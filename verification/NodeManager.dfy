/** The node manager's child processes: a monitor thread that restarts them and a shutdown that ends them. */
module NodeManager {
  import opened Wrappers

  /** From position `i` on, the list names exactly the children in `w`, each once; other entries are -1. */
  ghost predicate Tracks(pids: seq<int>, i: nat, w: set<int>)
  {
    i <= |pids| &&
    (forall j :: i <= j < |pids| && pids[j] > 0 ==> pids[j] in w) &&
    (forall k, j :: 0 <= k < j < |pids| && pids[k] > 0 ==> pids[k] != pids[j]) &&
    (forall pid :: pid in w ==> pid > 0 && Listed(pids, i, pid))
  }

  ghost predicate Listed(pids: seq<int>, i: nat, pid: int)
  {
    exists j :: i <= j < |pids| && pids[j] == pid
  }

  lemma TracksNext(pids: seq<int>, i: nat, w: set<int>)
    requires Tracks(pids, i, w) && i < |pids|
    ensures Tracks(pids, i + 1, if pids[i] > 0 then w - {pids[i]} else w)
  {
  }

  lemma TracksErase(pids: seq<int>, i: nat, w: set<int>)
    requires Tracks(pids, 0, w) && i < |pids| && pids[i] > 0
    ensures Tracks(pids[i := -1], 0, w - {pids[i]})
  {
    var after := pids[i := -1];
    forall pid | pid in w - {pids[i]} ensures Listed(after, 0, pid) {
      var j :| 0 <= j < |pids| && pids[j] == pid;
      assert after[j] == pid;
    }
  }

  lemma TracksAdd(pids: seq<int>, w: set<int>, pid: int)
    requires Tracks(pids, 0, w) && pid !in w && pid > 0
    ensures Tracks(pids + [pid], 0, w + {pid})
  {
    var after := pids + [pid];
    assert after[|pids|] == pid;
    forall p | p in w ensures Listed(after, 0, p) {
      var j :| 0 <= j < |pids| && pids[j] == p;
      assert after[j] == p;
    }
  }

  lemma TracksNothing(pids: seq<int>, w: set<int>)
    requires Tracks(pids, |pids|, w)
    ensures w == {} && Tracks([], 0, w)
  {
    assert forall pid :: pid in w ==> Listed(pids, |pids|, pid);
    assert forall pid :: !Listed(pids, |pids|, pid);
    assert forall pid :: pid !in w;
  }

  /** `process_group`, together with what the operating system knows: which children exist and which were reaped. */
  class ProcessGroup {
    var pids: seq<int>
    ghost var children: set<int>
    ghost var reaped: set<int>
    ghost var signalled: set<int>
    ghost var killed: set<int>

    /** The list names exactly the children that were not reaped yet. */
    ghost predicate Valid()
      reads this
    {
      reaped <= children && Tracks(pids, 0, children - reaped)
    }

    constructor ()
      ensures Valid() && pids == [] && children == {} && reaped == {}
    {
      pids := [];
      children, reaped, signalled, killed := {}, {}, {}, {};
    }

    // ---------- System calls: allowed for children that were not reaped ----------

    /** SIGKILL if `force`, otherwise SIGTERM. */
    method Kill(pid: int, force: bool)
      requires pid in children && pid !in reaped
      modifies `signalled, `killed
      ensures signalled == old(signalled) + {pid} && killed == old(killed) + if force then {pid} else {}
    {
      signalled := signalled + {pid};
      if force { killed := killed + {pid}; }
    }

    /** A wait that blocks only if the child has not exited; such a wait must be for a child that was told to exit. */
    method Reap(pid: int, exited: bool)
      requires pid in children && pid !in reaped && (exited || pid in signalled)
      modifies `reaped
      ensures reaped == old(reaped) + {pid}
    {
      reaped := reaped + {pid};
    }

    // ---------- `process_group` ----------

    method Add(pid: int) returns (r: Attempt<()>)
      requires Valid() && pid !in children
      modifies `pids, `children
      ensures r.Thrown? <==> pid <= 0
      ensures pid > 0 ==> pids == old(pids) + [pid] && children == old(children) + {pid}
      ensures pid <= 0 ==> pids == old(pids) && children == old(children)
      ensures Valid()
    {
      if pid <= 0 { return Thrown; }
      TracksAdd(pids, children - reaped, pid);
      assert children + {pid} - reaped == children - reaped + {pid};
      pids := pids + [pid];
      children := children + {pid};
      r := Returned(());
    }

    /** `exited` tells for which ranks a wait that does not block would find the child exited. */
    method TryWaitAny(exited: seq<bool>) returns (rank: Option<nat>)
      requires Valid() && |exited| == |pids|
      modifies `pids, `reaped
      ensures Valid()
      ensures rank.None? ==> pids == old(pids) && reaped == old(reaped)
      ensures rank.None? <==> forall i :: 0 <= i < |exited| ==> old(pids[i]) <= 0 || !exited[i]
      ensures rank.Some? ==> rank.value < |exited| && old(pids)[rank.value] > 0 && exited[rank.value]
      ensures rank.Some? ==> pids == old(pids)[rank.value := -1] && reaped == old(reaped) + {old(pids)[rank.value]}
    {
      for i := 0 to |pids|
        invariant pids == old(pids) && reaped == old(reaped) && Valid()
        invariant forall j :: 0 <= j < i ==> pids[j] <= 0 || !exited[j]
      {
        if pids[i] > 0 && exited[i] {
          TracksErase(pids, i, children - reaped);
          assert children - (reaped + {pids[i]}) == children - reaped - {pids[i]};
          Reap(pids[i], true);
          pids := pids[i := -1];
          return Some(i);
        }
      }
      rank := None;
    }

    method SignalAll()
      requires Valid()
      modifies `signalled, `killed
      ensures children - reaped <= signalled && killed == old(killed)
    {
      for i := 0 to |pids|
        invariant killed == old(killed)
        invariant forall j :: 0 <= j < i && pids[j] > 0 ==> pids[j] in signalled
      {
        if pids[i] > 0 { Kill(pids[i], false); }
      }
      forall pid | pid in children - reaped ensures pid in signalled {
        assert Listed(pids, 0, pid);
      }
    }

    /** Blocks until every child has exited; all of them have been signalled. */
    method WaitAll()
      requires Valid() && children - reaped <= signalled
      modifies `pids, `reaped, `signalled, `killed
      ensures Valid() && pids == [] && children == reaped && killed == old(killed)
    {
      for i := 0 to |pids|
        invariant killed == old(killed) && pids == old(pids) && reaped <= children && Tracks(pids, i, children - reaped)
        invariant children - reaped <= signalled
      {
        EndOne(i, true, false);
      }
      TracksNothing(pids, children - reaped);
      assert children == reaped + (children - reaped);
      pids := [];
    }

    /** SIGTERM to all; then each child is waited for, and killed first if it has not exited in time. */
    method TerminateAll(inTime: seq<bool>)
      requires Valid() && |inTime| == |pids|
      modifies this
      ensures Valid() && pids == [] && children == reaped && children == old(children)
      ensures old(children - reaped) <= signalled
      ensures forall pid :: pid in killed <==>
                pid in old(killed) || exists i :: 0 <= i < |inTime| && old(pids)[i] == pid > 0 && !inTime[i]
    {
      SignalAll();
      for i := 0 to |pids|
        invariant pids == old(pids) && children == old(children) && reaped <= children
        invariant forall pid :: pid in killed <==>
          pid in old(killed) || exists j :: 0 <= j < i && old(pids)[j] == pid > 0 && !inTime[j]
        invariant Tracks(pids, i, children - reaped)
        invariant old(children - reaped) <= signalled && old(reaped) <= reaped
      {
        EndOne(i, inTime[i], inTime[i]);
      }
      TracksNothing(pids, children - reaped);
      assert children == reaped + (children - reaped);
      pids := [];
    }

    /** Waits for the child at position `i`, after killing it unless `patient`. */
    method EndOne(i: nat, patient: bool, exited: bool)
      requires i < |pids| && reaped <= children && Tracks(pids, i, children - reaped)
      requires patient ==> exited || children - reaped <= signalled
      modifies `reaped, `signalled, `killed
      ensures old(reaped) <= reaped <= children && Tracks(pids, i + 1, children - reaped) && old(signalled) <= signalled
      ensures killed == old(killed) + if pids[i] > 0 && !patient then {pids[i]} else {}
    {
      var pid := pids[i];
      TracksNext(pids, i, children - reaped);
      if pid > 0 {
        assert children - (reaped + {pid}) == children - reaped - {pid};
        if !patient { Kill(pid, true); }
        Reap(pid, exited);
      }
    }
  }

  /** What happens at one acquisition of the manager's lock, by either thread. */
  datatype Move = Monitor(exited: nat -> bool) | Shutdown(inTime: nat -> bool)

  class NodeManager {
    const gpus: nat
    const group: ProcessGroup
    ghost var terminated: bool
    var nextPid: int

    ghost predicate Valid()
      reads this, group
    {
      group.Valid() && nextPid > 0 && (forall pid :: pid in group.children ==> 0 < pid < nextPid) &&
      (terminated ==> group.pids == [])
    }

    constructor (gpus: nat)
      ensures Valid() && !terminated && this.gpus == gpus && fresh(group) && group.pids == []
    {
      this.gpus := gpus;
      group := new ProcessGroup();
      terminated := false;
      nextPid := 1;
    }

    /** `launch_task_managers_unsafe`: refuses while processes are still listed. */
    method Launch() returns (r: Attempt<()>)
      requires Valid() && !terminated
      modifies this`nextPid, group`pids, group`children
      ensures Valid() && (r.Thrown? <==> old(group.pids) != [])
      ensures r.Thrown? ==> group.pids == old(group.pids) && group.children == old(group.children)
      ensures r.Returned? ==> |group.pids| == gpus && old(group.children) <= group.children
      ensures r.Returned? ==> forall i :: 0 <= i < gpus ==> group.pids[i] > 0 && group.pids[i] !in old(group.children)
      ensures r.Returned? ==> forall pid :: pid in group.children ==> pid in old(group.children) || pid in group.pids
    {
      if group.pids != [] { return Thrown; }
      for i := 0 to gpus
        invariant Valid() && |group.pids| == i && old(group.children) <= group.children && old(nextPid) <= nextPid
        invariant forall j :: 0 <= j < i ==> group.pids[j] >= old(nextPid)
        invariant forall pid :: pid in group.children ==> pid in old(group.children) || pid in group.pids
      {
        var _ := group.Add(nextPid);
        nextPid := nextPid + 1;
      }
      r := Returned(());
    }

    /** The monitor's critical section. It restarts all task managers when it finds one that has exited. The restart
      never meets a non-empty group. After shutdown nothing is spawned, even if the monitor had seen no stop request
      yet. */
    method MonitorRound(exited: seq<bool>) returns (r: Attempt<()>)
      requires Valid() && |exited| == |group.pids|
      modifies this`nextPid, group
      ensures Valid() && r.Returned? && terminated == old(terminated)
      ensures terminated ==> group.children == old(group.children) && group.reaped == old(group.reaped)
      ensures (exists i :: 0 <= i < |exited| && old(group.pids)[i] > 0 && exited[i]) ==>
                |group.pids| == gpus && old(group.children) <= group.reaped && group.killed == old(group.killed) &&
                forall i :: 0 <= i < gpus ==> group.pids[i] > 0 && group.pids[i] !in old(group.children)
      ensures !(exists i :: 0 <= i < |exited| && old(group.pids)[i] > 0 && exited[i]) ==>
                group.pids == old(group.pids) && group.children == old(group.children) &&
                group.reaped == old(group.reaped)
    {
      var rank := group.TryWaitAny(exited);
      if rank.Some? {
        group.SignalAll();
        group.WaitAll();
        r := Launch();
      } else {
        r := Returned(());
      }
    }

    method Terminate(inTime: seq<bool>)
      requires Valid() && |inTime| == |group.pids|
      modifies this`terminated, group
      ensures Valid() && terminated && group.pids == [] && group.children == group.reaped
    {
      group.TerminateAll(inTime);
      terminated := true;
    }

    /** Any interleaving of the two threads: once shutdown has terminated the task managers, no child is left and none
      is ever spawned again. */
    method Run(moves: seq<Move>)
      requires Valid() && !terminated
      modifies this, group
      ensures Valid() && (terminated <==> exists i :: 0 <= i < |moves| && moves[i].Shutdown?)
      ensures terminated ==> group.pids == [] && group.children == group.reaped
    {
      for i := 0 to |moves|
        invariant Valid() && (terminated <==> exists j :: 0 <= j < i && moves[j].Shutdown?)
        invariant terminated ==> group.children == group.reaped
      {
        match moves[i]
        case Monitor(exited) =>
          var _ := MonitorRound(seq(|group.pids|, k requires k >= 0 => exited(k)));
        case Shutdown(inTime) =>
          Terminate(seq(|group.pids|, k requires k >= 0 => inTime(k)));
      }
    }
  }
}
