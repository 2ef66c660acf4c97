/** The exportable memory pool: once exported, frees are put off until `finalize`. */
module SharedPool {
  import opened Wrappers

  class SharedPool {
    var exported: bool
    /** Blocks whose free has been put off, with their sizes. */
    var deferred: map<nat, nat>
    /** Blocks the clients hold, blocks the owner pool has handed out, and how often each direction was used. */
    ghost var live: map<nat, nat>
    ghost var owned: map<nat, nat>
    ghost var allocations: nat
    ghost var returns_: nat

    /** What the owner pool has handed out is either live or put off, never both; nothing is put off before export. */
    ghost predicate Valid()
      reads this
    {
      (forall p :: p in owned <==> p in live || p in deferred) &&
      (forall p :: p in live ==> p !in deferred && owned[p] == live[p]) &&
      (forall p :: p in deferred ==> owned[p] == deferred[p]) &&
      (!exported ==> deferred == map[]) &&
      0 !in owned && allocations == |live| + |deferred| + returns_
    }

    constructor ()
      ensures Valid() && !exported && live == map[] && deferred == map[] && returns_ == 0
    {
      exported, deferred := false, map[];
      live, owned := map[], map[];
      allocations, returns_ := 0, 0;
    }

    /** `p` is the block the owner pool answers with; a block it has handed out is not handed out again. */
    method Allocate(bytes: nat, p: nat) returns (r: nat)
      requires Valid() && p != 0 && p !in owned
      modifies this
      ensures Valid() && exported == old(exported) && deferred == old(deferred) && returns_ == old(returns_)
      ensures bytes == 0 ==> r == 0 && live == old(live)
      ensures bytes > 0 ==> r == p && r !in old(live) && r !in deferred && live == old(live)[p := bytes]
    {
      if bytes == 0 { return 0; }
      owned, live, allocations := owned[p := bytes], live[p := bytes], allocations + 1;
      r := p;
    }

    method Export()
      requires Valid()
      modifies `exported
      ensures Valid() && exported
    {
      exported := true;
    }

    /** Clients free blocks they hold. Then the check for a block that is put off already never fires. */
    method Deallocate(p: nat, bytes: nat) returns (r: Attempt<()>)
      requires Valid() && (p != 0 ==> p in live && live[p] == bytes)
      modifies this
      ensures Valid() && exported == old(exported) && r.Returned? && live == old(live) - {p}
      ensures exported ==> returns_ == old(returns_) && owned == old(owned)
      ensures deferred == if exported && p != 0 then old(deferred)[p := bytes] else old(deferred)
      ensures !exported && p != 0 ==> returns_ == old(returns_) + 1 && owned == old(owned) - {p}
    {
      if p == 0 {
        assert live - {p} == live;
        return Returned(());
      }
      RemoveKey(live, p);
      live := live - {p};
      if exported {
        if p in deferred { return Thrown; }
        deferred := deferred[p := bytes];
      } else {
        owned, returns_ := owned - {p}, returns_ + 1;
      }
      r := Returned(());
    }

    /** Gives every block that was put off back to the owner pool, each once. The pool stays exported. */
    method Finalize()
      requires Valid()
      modifies this
      ensures Valid() && exported == old(exported) && live == old(live) && deferred == map[]
      ensures returns_ == old(returns_) + |old(deferred)| && owned == live
    {
      while deferred != map[]
        invariant Valid() && exported == old(exported) && live == old(live)
        invariant returns_ + |deferred| == old(returns_) + |old(deferred)|
        decreases |deferred|
      {
        var p :| p in deferred;
        ReturnOne(p);
      }
    }

    method ReturnOne(p: nat)
      requires Valid() && p in deferred
      modifies `owned, `returns_, `deferred
      ensures Valid() && deferred == old(deferred) - {p} && owned == old(owned) - {p}
      ensures returns_ == old(returns_) + 1 && |deferred| == |old(deferred)| - 1
    {
      RemoveKey(deferred, p);
      owned, returns_ := owned - {p}, returns_ + 1;
      deferred := deferred - {p};
    }
  }

  lemma RemoveKey(m: map<nat, nat>, p: nat)
    requires p in m
    ensures |m - {p}| == |m| - 1
  {
  }
}
