/** Physical relations, and what can be said about the task graph of a plan before it is built. */
module Relations {

  datatype Positions = Direct | Lists | Marks(ranks: nat)

  /** `ReadIn` reads with an IN predicate over a subquery. `Each` stands for the relations with one task per input task
    (project, filter, row ids, parallel writes), `Gather` for those that concatenate their input first (sort, fetch,
    single writes). A window is a join of its input with something computed from it, whose second visit to the input
    finds the tasks in the cache: `PartitionWindow` (no ORDER BY) with its aggregation, `OrderedWindow` (ORDER BY) adds
    row ids to the input and joins it with the window over its concatenation. */
  datatype Rel =
    | Read(n: nat)
    | ReadIn(n: nat, sub: Rel)
    | Each(c: Rel)
    | Gather(c: Rel)
    | Aggregate(c: Rel)
    | PartitionWindow(c: Rel)
    | OrderedWindow(c: Rel)
    | BroadcastRight(l: Rel, r: Rel)
    | BroadcastLeft(l: Rel, r: Rel, positions: Positions)
    | Shuffle(c: Rel)
    | ShuffleJoin(l: Rel, r: Rel)
    | UnionAll(l: Rel, r: Rel)

  /** How many tasks a relation hands to its parent; `p` is the number of shuffle partitions. */
  function Num(p: nat, rel: Rel): nat
  {
    match rel
    case Read(n) => n
    case ReadIn(n, _) => n
    case Each(c) => Num(p, c)
    case Gather(_) => 1
    case Aggregate(_) => 1
    case PartitionWindow(c) => Num(p, c)
    case OrderedWindow(c) => Num(p, c)
    case BroadcastRight(l, _) => Num(p, l)
    case BroadcastLeft(_, r, positions) => if positions.Direct? then Num(p, r) else 1
    case Shuffle(c) => Num(p, c)
    case ShuffleJoin(_, _) => p
    case UnionAll(l, r) => Num(p, l) + Num(p, r)
  }

  /** A concatenate task and a closed stage are needed unless there is exactly one task. */
  function Extra(n: nat): nat
  {
    if n == 1 then 0 else 1
  }

  /** How many stages building the relation closes. */
  function Stages(p: nat, rel: Rel): nat
  {
    match rel
    case Read(_) => 0
    case ReadIn(_, sub) => Stages(p, sub) + Extra(Num(p, sub))
    case Each(c) => Stages(p, c)
    case Gather(c) => Stages(p, c) + Extra(Num(p, c))
    case Aggregate(c) => Stages(p, c) + Extra(Num(p, c))
    case PartitionWindow(c) => Stages(p, c) + Extra(Num(p, c)) + 1
    case OrderedWindow(c) => Stages(p, c) + Extra(Num(p, c)) + 1
    case BroadcastRight(l, r) => Stages(p, r) + 1 + Stages(p, l)
    case BroadcastLeft(l, r, positions) =>
      Stages(p, l) + 1 + Stages(p, r) + (match positions case Direct => 0 case Lists => 1 case Marks(_) => 2)
    case Shuffle(c) => Stages(p, c) + 1
    case ShuffleJoin(l, r) => Stages(p, l) + Stages(p, r)
    case UnionAll(l, r) => Stages(p, l) + 1 + Stages(p, r)
  }

  predicate Breaks(p: nat, rel: Rel)
  {
    Stages(p, rel) > 0
  }

  /** How many tasks building the relation creates. */
  function Tasks(p: nat, rel: Rel): nat
  {
    match rel
    case Read(n) => n
    case ReadIn(n, sub) => Tasks(p, sub) + Extra(Num(p, sub)) + n
    case Each(c) => Tasks(p, c) + Num(p, c)
    case Gather(c) => Tasks(p, c) + Extra(Num(p, c)) + 1
    case Aggregate(c) => Tasks(p, c) + Num(p, c) + Extra(Num(p, c)) + 2
    case PartitionWindow(c) => Tasks(p, c) + 2 * Num(p, c) + Extra(Num(p, c)) + 2
    case OrderedWindow(c) => Tasks(p, c) + 2 * Num(p, c) + Extra(Num(p, c)) + 1
    case BroadcastRight(l, r) => Tasks(p, r) + Tasks(p, l) + Extra(Num(p, r)) + Num(p, l)
    case BroadcastLeft(l, r, positions) =>
      Tasks(p, l) + Tasks(p, r) + Extra(Num(p, l)) + Num(p, r) +
      (match positions case Direct => 0 case Lists => 1 case Marks(ranks) => Min(ranks, Num(p, r)) + 1)
    case Shuffle(c) => Tasks(p, c) + Num(p, c)
    case ShuffleJoin(l, r) =>
      Tasks(p, l) + Tasks(p, r) + (if Partitions(l) then p else 0) + (if Partitions(r) then p else 0) + p
    case UnionAll(l, r) => Tasks(p, l) + Tasks(p, r)
  }

  function Min(a: nat, b: nat): nat
  {
    if a < b then a else b
  }

  /** Building the relation leaves tasks of its own in the current stage. */
  predicate HasOpen(rel: Rel)
  {
    match rel
    case Shuffle(_) => false
    case UnionAll(_, r) => HasOpen(r)
    case _ => true
  }

  /** No shuffle join has a left side that is still in the current stage while its right side closes that stage. */
  predicate Safe(p: nat, rel: Rel)
  {
    match rel
    case Read(_) => true
    case ReadIn(_, sub) => Safe(p, sub)
    case Each(c) => Safe(p, c)
    case Gather(c) => Safe(p, c)
    case Aggregate(c) => Safe(p, c)
    case PartitionWindow(c) => Safe(p, c)
    case OrderedWindow(c) => Safe(p, c)
    case BroadcastRight(l, r) => Safe(p, l) && Safe(p, r)
    case BroadcastLeft(l, r, _) => Safe(p, l) && Safe(p, r)
    case Shuffle(c) => Safe(p, c)
    case ShuffleJoin(l, r) => Safe(p, l) && Safe(p, r) && !(HasOpen(l) && Breaks(p, r))
    case UnionAll(l, r) => Safe(p, l) && Safe(p, r)
  }

  /** The first task of the relation is a partition task. */
  predicate Partitions(rel: Rel)
  {
    match rel
    case Shuffle(_) => true
    case UnionAll(l, _) => Partitions(l)
    case _ => false
  }

  /** All tasks of the relation are partition tasks. */
  predicate AllPartitions(rel: Rel)
  {
    match rel
    case Shuffle(_) => true
    case UnionAll(l, r) => AllPartitions(l) && AllPartitions(r)
    case _ => false
  }

  /** The builder merges a side if its first task is a partition task, and does not look at the others. */
  predicate Uniform(rel: Rel)
  {
    Partitions(rel) ==> AllPartitions(rel)
  }

  /** All sides that are merged consist of partition tasks. */
  predicate Matched(rel: Rel)
  {
    match rel
    case Read(_) => true
    case ReadIn(_, sub) => Matched(sub)
    case ShuffleJoin(l, r) => Matched(l) && Matched(r) && Uniform(l) && Uniform(r)
    case BroadcastRight(l, r) => Matched(l) && Matched(r)
    case BroadcastLeft(l, r, _) => Matched(l) && Matched(r)
    case UnionAll(l, r) => Matched(l) && Matched(r)
    case _ => Matched(rel.c)
  }

  /** Some shuffle join merges a side. */
  predicate Merges(rel: Rel)
  {
    match rel
    case Read(_) => false
    case ReadIn(_, sub) => Merges(sub)
    case ShuffleJoin(l, r) => Merges(l) || Merges(r) || Partitions(l) || Partitions(r)
    case BroadcastRight(l, r) => Merges(l) || Merges(r)
    case BroadcastLeft(l, r, _) => Merges(l) || Merges(r)
    case UnionAll(l, r) => Merges(l) || Merges(r)
    case _ => Merges(rel.c)
  }

  /** What the builder asserts about its input, and that reading a table takes at least one task. */
  predicate Valid(p: nat, rel: Rel)
  {
    match rel
    case Read(n) => n > 0
    case ReadIn(n, sub) => n > 0 && Valid(p, sub)
    case Each(c) => Valid(p, c)
    case Gather(c) => Valid(p, c)
    case Aggregate(c) => Valid(p, c)
    case PartitionWindow(c) => Valid(p, c)
    case OrderedWindow(c) => Valid(p, c)
    case BroadcastRight(l, r) => Valid(p, l) && Valid(p, r)
    case BroadcastLeft(l, r, positions) => Valid(p, l) && Valid(p, r) && (positions.Marks? ==> positions.ranks > 0)
    case Shuffle(c) => Valid(p, c)
    case ShuffleJoin(l, r) =>
      Valid(p, l) && Valid(p, r) && (Partitions(l) || Num(p, l) == p) && (Partitions(r) || Num(p, r) == p)
    case UnionAll(l, r) => Valid(p, l) && Valid(p, r)
  }

  /** Every dependency on an earlier stage is a root of it, unless position lists are merged by a task that also reads
    a concatenated broadcast side, or a window reads an input that was still in the current stage when it was
    aggregated, or a window with ORDER BY reads an input of one task, which was not concatenated. */
  predicate Plain(p: nat, rel: Rel)
  {
    match rel
    case Read(_) => true
    case ReadIn(_, sub) => Plain(p, sub)
    case Each(c) => Plain(p, c)
    case Gather(c) => Plain(p, c)
    case Aggregate(c) => Plain(p, c)
    case PartitionWindow(c) => Plain(p, c) && !HasOpen(c)
    case OrderedWindow(c) => Plain(p, c) && Num(p, c) != 1
    case BroadcastRight(l, r) => Plain(p, l) && Plain(p, r)
    case BroadcastLeft(l, r, positions) => Plain(p, l) && Plain(p, r) && (positions.Direct? || Num(p, l) == 1)
    case Shuffle(c) => Plain(p, c)
    case ShuffleJoin(l, r) => Plain(p, l) && Plain(p, r)
    case UnionAll(l, r) => Plain(p, l) && Plain(p, r)
  }
}
