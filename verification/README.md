# Verified model of the gqe query executor

gqe turns a physical query plan into a graph of tasks, splits the graph into stages, and runs the stages with worker
threads on one or several processes (ranks). This project models the parts of it that are hardest to get right and
proves, for every plan, table, split, interleaving and run, that they do what they are for:

- **Task execution.** Worker threads claim shared dependencies by compare-and-swap, call them on their own stack, or
  spin until another worker has finished or failed them (`StageMachine`, `StageSafety`, `StageProgress`,
  `StageOutcome`). A single process loops over the stages (`SingleGpu`). Several ranks run the same stage list, agree
  on errors by an OR-reduce, meet at a barrier and fetch earlier results from each other (`Cluster`, `ClusterSafety`,
  `ClusterProgress`, `ClusterCompletion`). Atomics are sequentially consistent; what a task computes is an arbitrary
  function of its inputs, and any task may throw.
- **Graph building.** Relations become tasks, stages, stage roots and pipeline ids (`Relations`, `BuilderState`,
  `PlanGraphs`, `PlanWiring`, `MergeTasks`, `MergePipelines`, `Pipelines`, `GraphBuilder`); schedulers decide which rank runs what
  (`Schedulers`). Which plans can be run to their end, by one process and by several ranks, is decided exactly
  (`BuiltPlans`, `FailingPlans`).
- **Operators split into tasks.** Apply-concat-apply aggregation (`Aggregation`), broadcast and shuffle joins (`Joins`,
  `Shuffle`), semi and anti joins by merged position lists (`PositionLists`), and window functions as aggregate plus join
  (`Window`) equal the plain operator on the whole table.
- **Expressions.** The evaluator compiles an expression graph with sharing into column tasks (`Expressions`,
  `Compilation`, `Evaluator`). Join conditions are split under three-valued logic into keys, a null policy and a residual
  predicate over two tables (`JoinCondition`, `PredicateRewriter`, `Casts`).
- **Supporting state machines.** The pinned-memory pool (`MemoryPool`), the exportable pool with deferred frees
  (`SharedPool`) and the child processes of the node manager (`NodeManager`).

Calls that may throw return an `Attempt`. Foreign calls (cuDF, NVSHMEM, gRPC, CUDA, the operating system) appear as
parameters, as short specifications, or as methods with the contract they are relied on for.

## What the proofs found

- `max_num_workers == 0` runs no task and reports success; a run computes its roots only if there is a worker
  (`SingleGpu.NeedsAWorker`).
- A shuffle join whose left tasks are still in the current stage while its right side closes that stage leaves those
  left tasks without a root. This is the only way a plan loses tasks (`PlanGraphs.GraphIs`). An example is a shuffle
  join of a shuffle join with a shuffle (`FailingPlans.ShuffledTwiceFails`).
- The builder merges a side of a shuffle join if its first task is a partition task, but a merge task throws unless all
  of them are. A union of a shuffled and an unshuffled input is such a side (`FailingPlans.MixedUnionFails`). These two
  are the only plans that one process cannot run to their end (`BuiltPlans.SafePlansFinish`).
- Migration serves roots of stages only (`ClusterSafety.OnlyRootsMigrate`), and brings the result of a partition task
  without the offsets that its merge tasks read. Ranks can complete a plan exactly if every dependency is scheduled on
  all ranks of its consumer, or is a root and its consumer is not a merge task (`Schedulers.RoundRobinCompletes`).
- So with two or more shuffle partitions, two or more ranks under round robin complete no plan that merges shuffled
  inputs: neighbouring merge tasks of a side run on different ranks, and both need the offsets of the same partition
  task, which runs on one (`BuiltPlans.MergesNeverComplete`). The smallest such plan is a join of two shuffled reads
  (`FailingPlans.ShuffledSidesFail`). The all-to-all scheduler has no such trouble (`BuiltPlans.AllToAllCompletes`).
- Apart from merge tasks, what is fetched is a root unless a task that merges position lists of a semi or anti join
  reads a concatenated left side, a window without ORDER BY reads an input that was still in the current stage, or a
  window with ORDER BY reads an input of one task (`PlanGraphs.GraphIs`). The first two fail on two ranks in a union:
  `FailingPlans.ConcatenatedLeftFails`, `FailingPlans.WindowInUnionFails`.
- A failed result migration leaves its dependency in progress, so every worker waiting for it spins forever
  (`StageOutcome.LostWaitIsForever`); with two workers and one shared dependency a stage never ends
  (`FailedFetch.FailedFetchDeadlocks`).
- An aggregation without keys and with a condition throws exactly if it gets a row (`Aggregation.PlanIsOneAggregation`).
- A window function without ORDER BY loses exactly the rows with a NULL partition key (`Window.AllRowsIff`), because the
  generated join compares keys with EQUAL.
- In a residual join predicate every integral cast becomes a cast to INT64 and every floating or fixed-point cast one to
  FLOAT64. An integral cast keeps its value exactly if the operand, read as an INT64, lies in the range of the original
  target, and another cast exactly if the target represents the operand (`PredicateRewriter.CastKeptIff`).
  CAST(x AS INT32) > 0 joins a row with x = 2^31, for which it is not TRUE (`PredicateRewriter.OverflowJoins`), and
  CAST(x AS FLOAT32) <> x does not join a row with x = 2^24 + 1, for which it is TRUE
  (`PredicateRewriter.RoundingIsLost`).
- A window function without ORDER BY and without an argument is planned, and then every execution throws
  (`Window.Run`).
- A request for more than 2^63 bytes makes the memory pool double forever (`MemoryPool.NeverReached`).

## Model

| member | source | states |
|---|---|---|
| `StageSafety.StepKeeps` | src/executor/task.cpp:96-133 | every step of every worker, in every interleaving, keeps the invariant: a task body starts at most once per process, a result is present only on a finished task, and it is the value of sequential bottom-up evaluation |
| `StageSafety.InputsAreValues` | src/executor/task.cpp:52-62 | when a body starts, `result()` of each dependency is present and is that dependency's sequential value |
| `StageSafety.ResultComposes` | src/executor/task.cpp:52-87 | the result of an executed task is its body applied to the results of its dependencies, in their order |
| `StageSafety.PickKeeps` | src/executor/task_graph.cpp:204-216 | taking the next root of the worker's stride keeps the invariant: no root is taken twice or by another worker |
| `StageSafety.ClaimCallKeeps` | src/executor/task.cpp:100-109 | claiming and calling a same-stage dependency keeps the invariant, including that frames on a stack descend in the graph |
| `StageSafety.ClaimWithoutCallKeeps` | src/executor/task.cpp:110-131 | so do losing the compare-and-swap and claiming a dependency of an earlier stage |
| `StageSafety.ObserveKeeps` | src/executor/task.cpp:125-131 | so does leaving the spin loop, both when the awaited task finished and when it failed |
| `StageSafety.PublishKeeps` | src/executor/task.cpp:73-87 | so does publishing a result and returning to the caller's frame |
| `StageSafety.UnwindKeeps` | src/executor/task.cpp:104-109 | so does unwinding an exception through nested calls, each of which marks its dependency failed |
| `StageSafety.FinishedStays` | src/executor/task.cpp:73-87 | a finished task stays finished with the same result |
| `StageProgress.Progress` | src/executor/task.cpp:96-133 | in every reachable state some worker can step, unless all have ended or one waits for a dependency whose migration failed |
| `StageProgress.Unblock` | src/executor/task.cpp:125-127 | a blocked worker waits for a task whose owner can step or waits for a strictly earlier task of the graph |
| `StageOutcome.LostWaitIsForever` | src/executor/task.cpp:110-127 | over every run, a worker that waits for a task whose migration failed still waits at the end, and the stage is not over |
| `StageOutcome.StageEnds` | src/executor/task_graph.cpp:155-237 | over every run, a stage in which no worker can step any more is over if and only if no worker waits for a task whose migration failed |
| `FailedFetch.FailedFetchDeadlocks` | src/executor/task.cpp:100-131 | a run in which a failed fetch leaves one worker ended and the other waiting: no worker can step and the stage is not over |
| `StageProgress.StepDecreases` | src/executor/task.cpp:96-139 | every step lowers a natural-number measure, so every run is finite up to spinning |
| `StageOutcome.RootsFinished` | src/executor/task_graph.cpp:189-237 | strides cover the root list: if no worker recorded an exception every root is finished and was started once |
| `StageOutcome.StageExecutes` | src/executor/task_graph.cpp:155-237 | a successful stage has finished exactly the tasks of the stage that its roots reach, each started once |
| `StageOutcome.SuccessSettles` | src/executor/task_graph.cpp:225-237 | after a successful stage nothing is in progress, failed or abandoned |
| `StageOutcome.StageRun` | src/executor/task_graph.cpp:155-237 | over a whole run of a stage, in every interleaving: bounded length, each body started at most once, a result visible exactly when its task is finished, and then equal to the sequential value |
| `SingleGpu.TaskGraphRun` | src/executor/task_graph.cpp:129-239 | every run of the stage loop is bounded; when done all roots of all stages hold their sequential values; when it rethrows in stage k no task of a later stage has started; it is never stuck if no executed task lacks an executed dependency |
| `SingleGpu.FinishesIffFed` | src/executor/task.cpp:96-133 | with a worker, some run ends normally if and only if every dependency of an executed task is executed, and is a partition task if its consumer is a merge task |
| `SingleGpu.UnfedNeverDone` | src/executor/task.cpp:110-117 | an executed task with a dependency that no root reaches, or a merge task with one that is no partition task, keeps every run from ending normally |
| `SingleGpu.NeverStarted` | src/executor/task_graph.cpp:155-237 | a task that no root of its stage reaches is not started and has no result in any state of any run |
| `SingleGpu.JoinKeeps` | src/executor/task_graph.cpp:225-237 | joining the workers and going on, or rethrowing, keeps the system invariant |
| `SingleGpu.SysProgress` | src/executor/task_graph.cpp:155-237 | a single process is not stuck while no dependency is abandoned |
| `SingleGpu.NeverLoses` | src/executor/task.cpp:110-123 | if no executed task lacks an executed dependency, no step of any worker abandons a claim: both `logic_error` branches are dead |
| `SingleGpu.NeedsAWorker` | src/executor/task_graph.cpp:158-166 | all roots of a finished run hold their values if and only if there is a worker or there are no roots |
| `SingleGpu.ZeroWorkersSkip` | src/executor/task_graph.cpp:158-166 | without workers the run ends at once with every task untouched |
| `ClusterSafety.MoveKeeps` | src/executor/task_graph.cpp:297-410 | every move of every rank (worker step, entering and leaving the reduce, leaving the barrier, skipping an empty stage) keeps the cluster invariant, also when migrations fail |
| `ClusterSafety.MoveLosesNothing` | src/executor/task.cpp:110-121 | if every dependency can be had, no move abandons a claim |
| `ClusterSafety.MigratedIsValue` | src/rpc/task_migration.cpp:254-292 | whatever a migration returns is the sequential value, for every job |
| `ClusterSafety.MigrationFinds` | src/executor/task.cpp:110-121 | when a rank fetches a dependency that is a root, every rank the scheduler names for it has registered it and holds it finished with its sequential value |
| `ClusterSafety.MigrationSucceeds` | src/rpc/task_migration.cpp:254-292 | whatever order the candidates are asked in, `migrate_result` returns the dependency's sequential value if it is a root of its stage, and throws if it is not |
| `ClusterSafety.FirstCandidateDecides` | src/rpc/task_migration.cpp:254-292 | candidates that do not know the task or failed it are passed over; the first other one decides, by its result or by an exception |
| `ClusterSafety.OnlyRootsMigrate` | src/rpc/task_migration.cpp:61-86 | a rank offers only roots that it executes itself, of stages it has entered; if no candidate offers a task, fetching it fails |
| `ClusterSafety.ReduceAgrees` | src/communicator.cpp:67-79 | if the reduce reports no error, every rank entered it without one |
| `ClusterProgress.NoStageOverlap` | src/executor/task_graph.cpp:349-410 | once a rank has started a task of a stage, every rank holds all its tasks of earlier stages finished |
| `ClusterProgress.ErrorStopsAll` | src/communicator.cpp:67-79 | an error reported by one rank in a stage keeps every rank from getting past the reduce of that stage |
| `ClusterProgress.AbortAgreement` | src/executor/task_graph.cpp:349-410 | if one rank has aborted, every other has aborted in the same stage or is about to leave the same reduce; none is in the barrier, in a later stage, or done |
| `ClusterProgress.ClusterCanMove` | src/executor/task_graph.cpp:297-410 | in every state of a run in which nothing was abandoned, some rank can move unless all have completed or aborted |
| `ClusterProgress.ClusterOutcome` | src/executor/task_graph.cpp:241-434 | every run of the cluster is bounded and keeps the invariant; if every dependency can be had, a run that cannot go on has all ranks completed or all aborted in one stage |
| `ClusterCompletion.NeverCompletes` | src/executor/task.cpp:110-121 | if a rank runs a task and one of its dependencies neither runs there nor is a root it can fetch, no run ever gets that rank past the stage of the task; a merge task cannot use a fetched dependency |
| `ClusterCompletion.CompletesIffAvailable` | src/executor/task_graph.cpp:241-434 | some run completes on all ranks if and only if every dependency runs wherever its consumer runs, or is a root and its consumer is no merge task; merge tasks need partition tasks |
| `GraphBuilder.GraphBuilder.AssignPipeline` | src/executor/task.cpp:141-156 | the walk without a visited set ends and adds the id to exactly the tasks reached by same-stage edges |
| `Pipelines.PushDependencies` | src/executor/task.cpp:149-154 | one step of the walk: the path count of the stack falls by one and nothing pending is lost |
| `TaskGraph.ReachesPath` | src/executor/task.cpp:141-156 | what a root reaches it reaches along a chain of dependencies inside the stage |
| `TaskGraph.PathReaches` | src/executor/task.cpp:141-156 | and whatever such a chain leads to is reached |
| `Schedulers.RoundRobinRanks` | src/scheduler.cpp:35-44 | the ranks of a task are its pipeline ids modulo the number of ranks |
| `Schedulers.AllToAllRanks` | src/scheduler.cpp:26-33 | all ranks |
| `Schedulers.WhoRuns` | src/executor/task_graph.cpp:284-291 | under round robin a rank's local pipelines contain a task if and only if the scheduler names that rank for it or a pipeline of it is marked to execute on all ranks |
| `Schedulers.OnAllRunsEverywhere` | src/executor/task_graph.cpp:284-291 | a root marked to execute on all ranks runs on every rank, whatever the scheduler names |
| `Schedulers.StageRunsOn` | src/executor/task_graph.cpp:284-410 | a stage that succeeds on a rank has executed a task there, once, if and only if the rank is named for it or a pipeline of it is marked |
| `Schedulers.RoundRobinCompletes` | src/executor/task.cpp:110-121 | under round robin some run completes on all ranks if and only if every dependency is named for all ranks named for its consumer, or is a root and its consumer is no merge task; merge tasks need partition tasks |
| `PlanGraphs.GraphIs` | src/executor/task_graph.cpp:96-112 | every plan gives a well-formed graph with distinct roots that no task of their stage uses, pipeline ids that are the positions of the roots reaching a task, and the predicted numbers of tasks and stages; every task is executed, and none without its dependencies, if and only if the plan is safe; dependencies on earlier stages are roots if and only if it is also plain |
| `PlanGraphs.BuiltOk` | src/executor/task_graph.cpp:107-112 | from any state of the builder, a visit refers to its own new tasks only, hands unused distinct tasks to its parent, and leaves tasks open, lost or unrooted exactly as forecast from the relation alone |
| `PlanGraphs.BuiltCounts` | src/executor/task_graph.cpp:107-112 | a visit creates and closes exactly the predicted numbers of tasks and stages |
| `PlanGraphs.AggregatedOk` | src/executor/task_graph.cpp:1023-1180 | apply-concat-apply keeps every task attached |
| `PlanGraphs.JoinedOk` | src/executor/task_graph.cpp:574-651 | so does a join with one side broadcast |
| `PlanGraphs.MergedOk` | src/executor/task_graph.cpp:618-729 | so does a semi or anti join by position lists or marks; the task that merges them reads a root if and only if the left side is a single task |
| `PlanGraphs.WindowedOk` | src/optimizer/physical_transformation.cpp:308-369 | so does a window without ORDER BY, whose input is visited twice; its joins read roots if and only if the input had left the current stage |
| `PlanGraphs.OrderedOk` | src/optimizer/physical_transformation.cpp:387-431 | so does a window with ORDER BY, whose input gets row ids and is visited twice; its joins read roots if and only if the input has other than one task |
| `PlanGraphs.ShuffleJoinOk` | src/executor/task_graph.cpp:758-836 | a shuffle join keeps every task attached unless its right side closes the stage of its open left tasks |
| `PlanGraphs.UnionOk` | src/executor/task_graph.cpp:1228-1247 | a union keeps every task attached |
| `PlanWiring.ReadWiring` | src/executor/task_graph.cpp:441-496 | a read is the given number of tasks without inputs |
| `PlanWiring.ReadInWiring` | src/executor/task_graph.cpp:441-496 | with an IN predicate each of them has the one subquery task as input |
| `PlanWiring.EachWiring` | src/executor/task_graph.cpp:910-931 | task i of a relation with one task per input task has input i |
| `PlanWiring.GatherWiring` | src/executor/task_graph.cpp:882-908 | a relation that gathers is one task over the concatenation of its input, or over its only task |
| `PlanWiring.AggregateWiring` | src/executor/task_graph.cpp:1023-1180 | an aggregation projects the aggregation of the concatenated aggregations of the inputs |
| `PlanWiring.PartitionWindowWiring` | src/optimizer/physical_transformation.cpp:308-369 | join i of a window without ORDER BY has input i on the left and the aggregation of all inputs on the right |
| `PlanWiring.OrderedWindowWiring` | src/optimizer/physical_transformation.cpp:387-431 | join i of a window with ORDER BY has input i with row ids on the left and the window over all of them on the right |
| `PlanWiring.BroadcastRightWiring` | src/executor/task_graph.cpp:574-617 | the right side is visited first; join i has exactly two inputs, task i of the left side and then the only task or the concatenation of the right side |
| `PlanWiring.BroadcastLeftWiring` | src/executor/task_graph.cpp:618-729 | the left side is visited first; join i has its only task or concatenation and then task i of the right side; position lists are merged after the left side, in order |
| `PlanWiring.ShuffleTaskWiring` | src/executor/task_graph.cpp:734-756 | partition task i has input i, and its stage is closed |
| `PlanWiring.ShuffleJoinWiring` | src/executor/task_graph.cpp:790-833 | join i takes partition i of the left side and then of the right one: a merge task of its own that reads all tasks of the side, or the i-th task of a side that is split already |
| `PlanWiring.UnionAllWiring` | src/executor/task_graph.cpp:1228-1247 | the tasks of the left side, whose stage is closed, and then those of the right side |
| `PlanWiring.StageRoots` | include/gqe/executor/task_graph.hpp:156-171 | the roots of a closed stage are its tasks among those held, in their order |
| `PlanWiring.ClosedIs` | include/gqe/executor/task_graph.hpp:156-171 | closing a stage adds no task, hands on what was held, records the roots and goes on to the next stage |
| `MergeTasks.GraphMatches` | src/executor/task_graph.cpp:790-817 | a plan has merge tasks if and only if it merges a side whose first task is a partition task, and all their inputs are partition tasks if and only if so are all tasks of those sides |
| `MergeTasks.BuiltKinded` | src/executor/task_graph.cpp:107-112 | so does every visit, from any state of the builder |
| `MergePipelines.MergesAreTorn` | src/executor/task_graph.cpp:790-833 | with two or more shuffle partitions, a safe and matched plan that merges a side has two merge tasks in neighbouring pipelines of one stage that read the same root of an earlier stage |
| `MergePipelines.BuiltApart` | src/executor/task_graph.cpp:107-112 | so the two stay neighbours through every relation above the shuffle join |
| `BuilderState.ChildOrphans` | src/executor/task_graph.cpp:770-773 | a child that closes a stage in which tasks are held loses them, and what is still held or executed needs them |
| `BuilderState.BrokenVisiting` | include/gqe/executor/task_graph.hpp:156-171 | closing the stage with everything held loses nothing and numbers the pipelines of the stage |
| `GraphBuilder.BuildGraph` | src/executor/task_graph.cpp:96-105 | the builder returns that graph, with all its guarantees; it has merge tasks that read other than partition tasks if and only if some merged side is not made of these |
| `GraphBuilder.GraphBuilder.Build` | src/executor/task_graph.cpp:107-112 | the builder's state after a visit is the one the theorems are about, for every relation |
| `GraphBuilder.GraphBuilder.Break` | include/gqe/executor/task_graph.hpp:156-171 | the held tasks of the current stage become its roots and their pipelines are marked with their positions |
| `GraphBuilder.GraphBuilder.Concatenate` | src/executor/task_graph.cpp:114-127 | one task is passed through in the same stage; more are concatenated, after a pipeline breaker in the next |
| `GraphBuilder.GraphBuilder.AddAggregation` | src/executor/task_graph.cpp:1023-1180 | partial, concatenate, final and projection tasks |
| `GraphBuilder.GraphBuilder.BuildOrderedWindow` | src/optimizer/physical_transformation.cpp:387-431 | row ids, concatenation, window, pipeline breaker, joins with the row ids |
| `GraphBuilder.GraphBuilder.BuildJoins` | src/executor/task_graph.cpp:574-680 | broadcast side, pipeline breaker, other side, concatenation without a breaker, join tasks |
| `GraphBuilder.GraphBuilder.BuildBroadcastLeft` | src/executor/task_graph.cpp:618-729 | joins directly, by position lists, or by marks and extraction tasks |
| `GraphBuilder.GraphBuilder.BuildShuffleJoin` | src/executor/task_graph.cpp:758-836 | left side, right side without a breaker between them, merge tasks, join tasks |
| `BuiltPlans.SafePlansFinish` | src/executor/task.cpp:110-117 | a single process with a worker can run a plan to its end if and only if the plan is safe and every merged side consists of partition tasks |
| `BuiltPlans.LostIsSkipped` | src/executor/task_graph.cpp:155-237 | a task that the builder lost is not started in any state of any run |
| `BuiltPlans.BuiltJobOk` | src/executor/task_graph.cpp:96-105 | a scheduler that deals out the built pipeline ids is the round robin of the cluster theorems |
| `BuiltPlans.PlansComplete` | src/executor/task.cpp:110-121 | under round robin ranks can complete a plan if and only if every dependency is named for all ranks of its consumer, or is a root and its consumer is no merge task; one rank completes exactly the safe, matched plans; several complete every safe, plain plan that merges nothing, and no plan that is not safe or not matched |
| `BuiltPlans.MergesNeverComplete` | src/executor/partition_merge.cpp:48-55 | two or more ranks under round robin never complete a plan that merges a side into two or more shuffle partitions |
| `BuiltPlans.PlainPlansComplete` | src/rpc/task_migration.cpp:254-292 | for plain plans with two or more shuffle partitions, without tasks marked for all ranks: they can be completed if and only if they are safe, matched, and merge nothing or run on one rank |
| `BuiltPlans.AllToAllCompletes` | src/scheduler.cpp:26-33 | with the all-to-all scheduler several ranks can complete a plan if and only if it is safe and matched |
| `FailingPlans.ShuffledTwiceFails` | src/executor/task_graph.cpp:770-773 | a shuffle join of a shuffle join with a shuffle is accepted, is not safe, and no run of it ends normally |
| `FailingPlans.MixedUnionFails` | src/executor/partition_merge.cpp:51-53 | a shuffle join of a union of a shuffled and an unshuffled input is accepted and loses no task, and no run of it ends normally |
| `FailingPlans.ShuffledSidesFail` | src/executor/partition_merge.cpp:54-55 | the join of two shuffled reads can be completed on one rank and on no larger number |
| `FailingPlans.ConcatenatedLeftFails` | src/executor/task_graph.cpp:685-723 | a semi join with a concatenated left side under a union is safe, but on two or more ranks the fetch of that side finds nothing and no run completes |
| `FailingPlans.WindowInUnionFails` | src/optimizer/physical_transformation.cpp:308-369 | a window without ORDER BY over two partitions under a union: on two or more ranks no run completes |
| `Evaluator.Evaluator.Visit` | src/executor/eval.cpp:342-643 | a visit succeeds if and only if no node below throws, and then every visited node has a column or an AST that denotes its row-by-row value |
| `Evaluator.Evaluator.VisitOne` | src/executor/eval.cpp:388-461 | so for nodes with one operand, inlined or as two tasks |
| `Evaluator.Evaluator.VisitBinary` | src/executor/eval.cpp:463-537 | so for binary operations, with the error for two scalars |
| `Evaluator.Evaluator.VisitIfThenElse` | src/executor/eval.cpp:539-572 | so for conditionals, whose condition always becomes a column |
| `Evaluator.Evaluator.DispatchTask` | src/executor/eval.cpp:645-658 | a node gets one column, the next free one, the first time it is asked for |
| `Evaluator.Evaluator.Compile` | src/executor/eval.cpp:81-100 | task k writes column num_columns + k and reads earlier columns only; the root is the last task |
| `Evaluator.Evaluator.RunTask` | src/executor/eval.cpp:121-327 | a task's column holds its node's value for every row, by either path; it throws exactly for LIKE without regard to case and for unknown functions |
| `Evaluator.Evaluator.Evaluate` | src/executor/eval.cpp:102-340 | running the tasks yields the root's value for every row, for every choice of nodes that take the AST path |
| `Evaluator.ConditionalMeans` | src/executor/eval.cpp:234-256 | a conditional evaluates, row by row, to what THEN evaluates to where the condition is true and to what ELSE evaluates to elsewhere |
| `Evaluator.OperationMeans` | src/executor/eval.cpp:388-537 | every other operation evaluates to itself applied row by row to what its operands evaluate to, first operand first |
| `Expressions.NodeMeans` | src/executor/eval.cpp:342-643 | the value of each kind of node from those of its operands; a reference reads its column, shifted by the offset |
| `Expressions.SupportedMeans` | src/executor/eval.cpp:342-643 | an evaluation is supported if and only if no node below is refused: subqueries, missing AST operators, two literals, mismatched conditionals, unsupported functions |
| `Evaluator.EvaluateExpressions` | src/executor/eval.cpp:697-741 | each result is the expression evaluated on each row with references shifted by the offset; throws if and only if some expression is unsupported or a bare reference is out of range |
| `Compilation.AppendKeeps` | src/executor/eval.cpp:645-658 | a new column leaves the meaning of every finished context unchanged |
| `Compilation.RunAstIsAstVal` | src/executor/eval.cpp:126-128 | an AST that reads columns already computed evaluates to what it denotes |
| `Aggregation.PlanIsOneAggregation` | src/executor/task_graph.cpp:1023-1180 | for every split into partitions, key list, mix of aggregates and mask, the plan gives the grouping of the rows of all partitions that the mask keeps; it throws if and only if there are no keys, a mask, and a row |
| `Aggregation.AggMeans` | src/executor/aggregate.cpp:53-101 | MIN and MAX are the least and greatest non-null cell, SUM is their sum, MEAN that sum divided by their number, all NULL if and only if there is none; the counts are the numbers of non-null and of all cells |
| `Aggregation.GroupedRow` | src/executor/aggregate.cpp:192-240 | each row of a grouping holds a key that occurs, and its further cells are the aggregates of the expressions over exactly the rows with that key |
| `Aggregation.KeyListed` | src/executor/aggregate.cpp:192-240 | the key of every row is listed exactly once; without keys there is one row |
| `Aggregation.ActiveRows` | src/executor/aggregate.cpp:154-160 | the mask keeps exactly the rows the condition holds for |
| `Aggregation.ApplyConcatApply` | src/executor/task_graph.cpp:1046-1177 | regrouping the concatenated partial results and projecting gives the grouping of the concatenated partitions, with and without keys |
| `Aggregation.AggConcat` | src/executor/task_graph.cpp:1009-1021 | the second kind of each aggregate combines partial results: COUNT by SUM, the others by themselves |
| `Aggregation.MeanIsQuotient` | src/executor/task_graph.cpp:1158-1164 | MEAN is SUM divided by COUNT_VALID, NULL without valid values |
| `Aggregation.PartialsAggregate` | src/executor/task_graph.cpp:1109-1137 | aggregating a column of the partial rows of a key gives the aggregate of all its rows; partitions without the key do not matter |
| `Aggregation.FirstAggregation` | src/executor/task_graph.cpp:1056-1085 | MEAN takes two columns, the others one; unknown kinds throw |
| `Aggregation.PostProcess` | src/executor/task_graph.cpp:1139-1170 | the running input index points at the right column of every value |
| `Aggregation.BuildPlan` | src/executor/task_graph.cpp:1046-1170 | builds a plan whose every expression reads the column it should, unless a kind is unknown |
| `Aggregation.Reduce` | src/executor/aggregate.cpp:166-189 | the branch without keys returns one row; each cell is the aggregate of its column (`Aggregation.AggMeans`), or what the reduction of another kind gives; throws if and only if a kind has no reduction |
| `Joins.NestedLoopIsJoin` | src/executor/join.cpp:655-1118 | the multiplicities that define a join are those of the nested-loop join, for inner, left, semi and anti |
| `Joins.JoinHolds` | src/executor/join.cpp:655-1118 | what each join type contains and how often: matching pairs, unmatched left rows without a right row, left rows with or without a match |
| `Joins.BroadcastRight` | src/executor/task_graph.cpp:574-617 | with the right side broadcast, the outputs of the join tasks together form the join of the whole tables, for every accepted join type |
| `Joins.BroadcastLeft` | src/executor/task_graph.cpp:618-729 | with the left side broadcast and direct materialisation, so they do for inner joins |
| `Joins.OnlyInnerSplitsRight` | src/executor/task_graph.cpp:618-625 | for left, semi and anti joins concatenating the outputs over a split right side is wrong |
| `Joins.ShuffleJoin` | src/executor/task_graph.cpp:758-836 | joining partition by partition gives the join of the whole tables if matching rows hash alike |
| `Joins.ShuffleNeedsAgreement` | src/executor/task_graph.cpp:758-836 | if two matching rows hash apart, their shuffle join is wrong for every join type |
| `Joins.SameBag` | src/executor/join.cpp:540-574 | projecting equal bags of joined rows gives equal bags of result rows |
| `Joins.Materialize` | src/executor/join.cpp:540-574 | each projected column holds the cells of the left rows, or of the right rows and NULL where there is none; throws if and only if an index is out of bounds |
| `Shuffle.Partition` | src/executor/partition.cpp:41-79 | the result holds the rows of the input; the rows between consecutive offsets i and i + 1 are those whose cells in the partition columns hash to i; throws unless all partition columns are plain references to existing columns |
| `Shuffle.SameKeySameSlice` | src/executor/partition.cpp:52-67 | rows with the same cells in the partition columns are in the same partition |
| `Shuffle.Merge` | src/executor/partition_merge.cpp:39-74 | the merged table is slice i of every input; throws if and only if some input is no partition task or lacks the offsets of the slice, as a fetched one does |
| `Shuffle.MergedSplits` | src/executor/partition_merge.cpp:48-64 | every input row is in exactly one merged table |
| `Shuffle.ShuffledTablesJoin` | src/executor/task_graph.cpp:734-836 | partitioning, merging and joining both sides gives the join of the whole tables if matching rows have the same cells in the hashed columns |
| `PositionLists.Materialize` | src/executor/join.cpp:1147-1214 | keeps, in left order, the rows in some list (semi) or in all lists (anti), also for no list, and projects them; throws if and only if a projected column does not exist |
| `PositionLists.KeptIs` | src/executor/join.cpp:1160-1203 | the kept rows are those at positions in some list (semi) or in all lists (anti), in left order |
| `PositionLists.AntiMask` | src/executor/join.cpp:1162-1201 | a count equals the number of lists exactly for the rows that are in all of them |
| `PositionLists.SemiMask` | src/executor/join.cpp:1172-1192 | the mask is set exactly for the rows in some list |
| `PositionLists.MergedPositions` | src/executor/join.cpp:1160-1203 | merged lists give the semi or anti join with the whole right side, for every assignment of right partitions to lists that covers them |
| `PositionLists.CoverNeeded` | src/executor/task_graph.cpp:685-723 | a partition that no list has seen makes the join wrong |
| `PositionLists.ExtractionCovers` | src/executor/task_graph.cpp:689-709 | under round robin the min(ranks, joins) extraction tasks, each on its own rank, together see the marks of all join tasks |
| `PositionLists.LeftRowsIsJoin` | src/executor/join.cpp:1202-1203 | the kept rows are the semi or anti join |
| `JoinCondition.JoinKeys.Parse` | src/executor/join.cpp:248-280 | appends exactly the equalities and residual predicates under the ANDs; throws if and only if null policies are mixed |
| `JoinCondition.SplitMeans` | src/executor/join.cpp:248-280 | the condition is TRUE under three-valued logic if and only if every extracted equality and every residual predicate is |
| `JoinCondition.KeysMean` | src/executor/join.cpp:248-280 | the keys are exactly the equalities that remain when the ANDs are taken apart, left operand left, and the residual predicates are exactly the rest |
| `JoinCondition.AddJoinCondition` | src/executor/join.cpp:293-324 | the key columns are the key expressions evaluated on their own table; throws if and only if null policies are mixed or a key cannot be evaluated there, such as a reference to the other side |
| `JoinCondition.KeysMatchMeans` | src/executor/join.cpp:293-324 | key columns agree under the recorded policy if and only if the extracted equalities hold for the pair of rows |
| `PredicateRewriter.RewriteMeans` | src/executor/join.cpp:393-522 | the rewritten predicate, with columns re-addressed to the left or right table, has the value of the original wherever every cast below it is left as it is or its operand is NULL or fits the target |
| `PredicateRewriter.RewriteMay` | src/executor/join.cpp:393-522 | a predicate can be rewritten if and only if it has no 8-bit literal, operator without an AST counterpart, cast to a type that is not arithmetic, or node of another kind |
| `PredicateRewriter.CastKeptIff` | src/executor/join.cpp:495-517 | a rewritten cast keeps its value if and only if the operand, read as an INT64, lies in the range of the integral target, or the floating or fixed-point target represents it |
| `PredicateRewriter.OverflowJoins` | src/executor/join.cpp:495-517 | CAST(x AS INT32) > 0 is not TRUE for x = 2^31, and yet the rewritten predicate joins the pair |
| `PredicateRewriter.RoundingIsLost` | src/executor/join.cpp:495-517 | CAST(x AS FLOAT32) <> x is TRUE for x = 2^24 + 1, and yet the rewritten predicate does not join the pair |
| `Casts.WidenedIff` | src/executor/join.cpp:504-507 | a value modulo 2^64, signed, equals the value modulo 2^bits if and only if it lies in the range of the narrower type |
| `PredicateRewriter.ParsePredicates` | src/executor/join.cpp:605-621 | chains the residual predicates; throws if and only if one of them cannot be rewritten |
| `PredicateRewriter.ConditionSplit` | src/executor/join.cpp:655-1118 | a pair of rows satisfies the condition if and only if its keys match and the residual expression is TRUE, wherever the casts of the residual predicates fit |
| `Window.Build` | src/optimizer/physical_transformation.cpp:284-369 | the generated condition is TRUE if and only if all partition keys are equal and not NULL; throws for bounded frames and several arguments |
| `Window.WindowMeans` | src/optimizer/physical_transformation.cpp:308-369 | the plan returns every row without a NULL partition key exactly once with its own partition's aggregate, for any number of partition expressions |
| `Window.WindowIs` | src/optimizer/physical_transformation.cpp:308-369 | the rows returned are, in order, those none of whose partition keys is NULL, each with one cell appended |
| `Window.WindowCell` | src/optimizer/physical_transformation.cpp:308-369 | the appended cell is the aggregate over exactly the rows with the same partition keys |
| `Window.AllRowsIff` | src/optimizer/physical_transformation.cpp:323-334 | no row is lost if and only if no partition key is NULL |
| `Window.Run` | src/optimizer/physical_transformation.cpp:308-345 | planning and then gathering the columns succeeds if and only if the frame is unbounded and there is exactly one argument; the columns are those of the input, and last the aggregate of the partition |
| `MemoryPool.RoundUp` | src/libperfect/memory_pool.cpp:118-129 | the least 8 * 2^k at or above the request, without overflow up to 2^63 |
| `MemoryPool.NeverReached` | src/libperfect/memory_pool.cpp:118-129 | above 2^63 no number of doublings reaches the request |
| `MemoryPool.Pool.Allocate` | src/libperfect/memory_pool.cpp:59-81 | reuses a free block of the least size class if there is one and asks the driver otherwise, throwing if and only if that fails; the block was not in use; used and free blocks stay disjoint and account for all blocks obtained |
| `MemoryPool.Pool.Deallocate` | src/libperfect/memory_pool.cpp:83-98 | moves a block in use to its free list; throws if and only if the block is not in use |
| `MemoryPool.Pool.Reset` | src/libperfect/memory_pool.cpp:100-116 | gives everything back if and only if nothing is in use |
| `SharedPool.SharedPool.Deallocate` | src/memory_resource/shared_numa_pool_memory_resource.cpp:102-119 | after export nothing goes back to the owner pool and the duplicate check never fires; before export each block goes back once |
| `SharedPool.SharedPool.Finalize` | src/memory_resource/shared_numa_pool_memory_resource.cpp:66-83 | returns every deferred block once; allocations equal live plus deferred plus returned throughout |
| `NodeManager.ProcessGroup.TryWaitAny` | src/node_manager/spawn.cpp:61-83 | reaps the first exited child and forgets its pid; nothing changes if none has exited |
| `NodeManager.ProcessGroup.TerminateAll` | src/node_manager/spawn.cpp:103-126 | every child is signalled and waited for once, and killed if and only if it has not exited in time; none is signalled or waited for after it was reaped, and a wait blocks only for a child that was signalled |
| `NodeManager.NodeManager.MonitorRound` | src/node_manager/node_manager.cpp:198-239 | if a child has exited, all children are reaped and a full group of new ones is started; otherwise nothing changes; a restart never meets a non-empty group, and after shutdown nothing is spawned |
| `NodeManager.NodeManager.Run` | src/node_manager/node_manager.cpp:140-239 | over every interleaving of monitor and shutdown, once shutdown has run no child is left and none is ever spawned again |

## Left out

- Task bodies, device memory and streams: a task is an arbitrary function of its dependencies' results that may throw.
- Memory order weaker than sequential consistency of the task status.
- Early release of dependencies and of stage maps is not modelled: results are kept to the end.
- GraphBuilder.GraphBuilder.Build: apart from the inputs of windows, relations are a tree (no other cached relation is visited twice), and the merge and join tasks of a shuffle join are numbered side by side instead of partition by partition; user-defined relations are not modelled.
- PlanGraphs.GraphIs: covers the relations of `GraphBuilder.GraphBuilder.Build`; so do the lemmas of `PlanWiring`, `PlanGraphs.BuiltOk`, `GraphBuilder.BuildGraph`, `MergeTasks.GraphMatches` and `MergePipelines.MergesAreTorn`.
- Shuffle.Merge: reading offsets that a partition task does not have is undefined in C++; the model throws there, and so does a merge task of the executor.
- BuiltPlans.MergesNeverComplete: with a single shuffle partition nothing is claimed beyond `BuiltPlans.PlansComplete`.
- Schedulers.RoundRobinCompletes: for a plan that is safe but not plain the condition is on the built graph and the number of ranks, since the same relations pass or fail depending on where their pipelines land.
- PredicateRewriter.CastKeptIff: for integral targets operands are integers of at most 64 bits or numbers that truncate into the range of the target, since C++ leaves other casts undefined; for other targets they are numbers that FLOAT64 represents and that lie between numbers of the target, so infinities and NaN are not modelled.
- Evaluator.Evaluator.Visit: column types are an arbitrary classification of nodes; the lookup of types by column number is not modelled.
- Evaluator.Evaluator.Evaluate: the final cast of the answer to the expected type is not modelled.
- Evaluator.EvaluateExpressions: references inside an expression must lie in the table; what cuDF does with others is not modelled.
- Aggregation.PlanIsOneAggregation: sums are exact, so rounding of floating-point SUM and MEAN is not modelled; at least one partition is required, because concatenating none has no columns.
- Joins.NestedLoopIsJoin: is about the specification of joins; the kernels of `join_task` are not modelled.
- Perfect-hash, unique-key and mark-join kernels, the hash-map cache and row filters passed into joins: each is another way to compute the same join.
- Full and single joins: both decompositions refuse them.
- Window.WindowMeans: what window functions with ORDER BY compute rests on rolling-window kernels and is not modelled; their task graphs are.
- JoinCondition.AddJoinCondition: references to the other side inside a larger key expression are not modelled, like those of `EvaluateExpressions`.
- MemoryPool.Pool.Allocate: the mutex is not modelled; calls are sequential.
- NodeManager.NodeManager.Run: threads interleave at the lock; failures while spawning are not modelled, and process ids are not reused.
- Query parsing, catalog, storage, sessions, the Flight service, serialisation, and the optimizer rules.
