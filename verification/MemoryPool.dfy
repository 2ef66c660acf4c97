/** The pool of pinned host blocks: size classes, free lists and blocks in use. */
module MemoryPool {
  import opened Arith
  import opened Wrappers

  const WORD: nat := 0x1_0000_0000_0000_0000
  const HALF: nat := 0x8000_0000_0000_0000

  /** The block size after `k` rounds of the doubling loop, in 64-bit arithmetic. */
  function Doubled(base: nat, k: nat): nat
  {
    if k == 0 then base else Doubled(base, k - 1) * 2 % WORD
  }

  /** `round_up_to_block_size` for the global pool, whose base is 8: the least `8 * 2^k` that is large enough. */
  method RoundUp(size: nat) returns (block: nat, ghost k: nat)
    requires size <= HALF
    ensures size <= block == 8 * Pow2(k) <= HALF
    ensures k > 0 ==> 8 * Pow2(k - 1) < size
  {
    k := 0;
    block := 8;
    if size <= 8 { return; }
    while block < size
      invariant block == 8 * Pow2(k) <= HALF && k <= 60
      invariant k > 0 ==> 8 * Pow2(k - 1) < size
      decreases 60 - k
    {
      BelowTop(k);
      TopPower();
      block := block * 2 % WORD;
      k := k + 1;
    }
  }

  /** For larger requests the loop never ends: doubling wraps to zero before it reaches them. */
  lemma {:induction false} NeverReached(size: nat, k: nat)
    requires HALF < size < WORD
    ensures Doubled(8, k) < size
  {
    if k <= 60 {
      DoubledExact(k);
      BelowTop(k);
    } else {
      DoubledZero(k);
    }
  }

  lemma NextDouble(x: nat)
    ensures x < HALF ==> x * 2 % WORD == x * 2
    ensures x == HALF || x == 0 ==> x * 2 % WORD == 0
  {
  }

  lemma {:induction false} DoubledExact(k: nat)
    requires k <= 60
    ensures Doubled(8, k) == 8 * Pow2(k)
  {
    if k > 0 {
      DoubledExact(k - 1);
      BelowTop(k - 1);
      PowPositive(k - 1);
      NextDouble(Doubled(8, k - 1));
    }
  }

  lemma {:induction false} DoubledZero(k: nat)
    requires k > 60
    ensures Doubled(8, k) == 0
  {
    NextDouble(Doubled(8, k - 1));
    if k == 61 {
      DoubledExact(60);
      TopPower();
    } else {
      DoubledZero(k - 1);
    }
  }

  lemma TopPower()
    ensures 8 * Pow2(60) == HALF
  {
    PowSplit(30, 30);
    PowSplit(15, 15);
    PowSplit(5, 10);
    PowSplit(5, 5);
    assert Pow2(5) == 32;
  }

  lemma {:induction false} BelowTop(k: nat)
    requires k <= 60
    ensures 8 * Pow2(k) <= HALF && (k < 60 ==> 16 * Pow2(k) <= HALF)
    decreases 60 - k
  {
    if k == 60 { TopPower(); } else { BelowTop(k + 1); }
  }

  class Pool {
    /** Free blocks by size class; sizes of the blocks in use. */
    var unused: map<nat, seq<nat>>
    var used: map<nat, nat>
    /** Every block obtained from the driver since the last reset, with its size. */
    ghost var obtained: map<nat, nat>

    ghost predicate Free(p: nat)
      reads this
    {
      p in obtained && obtained[p] in unused && p in unused[obtained[p]]
    }

    /** Each obtained block is in use or on exactly one free list, once; nothing else is anywhere. */
    ghost predicate Valid()
      reads this
    {
      0 !in obtained &&
      (forall p :: p in used ==> p in obtained && used[p] == obtained[p] && !Free(p)) &&
      (forall p :: p in obtained ==> p in used || Free(p)) &&
      (forall s, i :: s in unused && 0 <= i < |unused[s]| ==>
         unused[s][i] in obtained && obtained[unused[s][i]] == s) &&
      (forall s, i, j :: s in unused && 0 <= i < j < |unused[s]| ==> unused[s][i] != unused[s][j])
    }

    constructor ()
      ensures Valid() && obtained == map[] && used == map[]
    {
      unused, used := map[], map[];
      obtained := map[];
    }

    /** `driver` is what the driver would answer: a new block, or a failure. Address 0 stands for no block. */
    method Allocate(size: nat, driver: Option<nat>) returns (r: Attempt<nat>)
      requires Valid() && size <= HALF
      requires driver.Some? ==> driver.value != 0 && driver.value !in obtained
      modifies this
      ensures Valid()
      ensures size == 0 ==> r == Returned(0) && used == old(used) && obtained == old(obtained)
      ensures r.Thrown? ==> used == old(used) && obtained == old(obtained) && driver.None?
      ensures size > 0 && (exists p: nat :: Reusable(old(unused), p, size)) ==>
                r.Returned? && Reusable(old(unused), r.value, size)
      ensures size > 0 && !(exists p: nat :: Reusable(old(unused), p, size)) ==>
                (r.Returned? <==> driver.Some?) && (r.Returned? ==> r.value == driver.value)
      ensures size > 0 && r.Returned? ==>
                r.value !in old(used) && r.value in used && used == old(used)[r.value := used[r.value]]
      ensures size > 0 && r.Returned? ==> size <= used[r.value] && exists k: nat :: SizeClass(used[r.value], size, k)
      ensures size > 0 && r.Returned? ==>
                if r.value in old(obtained) then obtained == old(obtained)
                else obtained == old(obtained)[r.value := used[r.value]]
    {
      if size == 0 { return Returned(0); }
      var block, k := RoundUp(size);
      assert SizeClass(block, size, k);
      ReusableIs(unused, size, block, k);
      assert block in unused && unused[block] != [] ==> Reusable(unused, unused[block][0], size);
      r := Serve(block, driver);
    }

    /** From the free list, or from the driver if the list is empty. */
    method Serve(block: nat, driver: Option<nat>) returns (r: Attempt<nat>)
      requires Valid() && (driver.Some? ==> driver.value != 0 && driver.value !in obtained)
      modifies this
      ensures Valid()
      ensures r.Thrown? <==> (block !in old(unused) || old(unused)[block] == []) && driver.None?
      ensures r.Thrown? ==> used == old(used) && obtained == old(obtained)
      ensures r.Returned? ==> r.value !in old(used) && used == old(used)[r.value := block]
      ensures r.Returned? ==> if block in old(unused) && old(unused)[block] != []
                              then r.value in old(unused)[block] && obtained == old(obtained)
                              else r.value == driver.value && obtained == old(obtained)[r.value := block]
    {
      if block !in unused || unused[block] == [] {
        if driver.None? {
          unused := unused[block := []];
          return Thrown;
        }
        Obtain(block, driver.value);
      }
      var p := Take(block);
      r := Returned(p);
    }

    /** A new block of the driver goes on the free list. */
    method Obtain(block: nat, p: nat)
      requires Valid() && p != 0 && p !in obtained && (block !in unused || unused[block] == [])
      modifies `unused, `obtained
      ensures Valid() && unused == old(unused)[block := [p]] && obtained == old(obtained)[p := block]
    {
      unused := unused[block := [p]];
      obtained := obtained[p := block];
    }

    method Take(block: nat) returns (p: nat)
      requires Valid() && block in unused && unused[block] != []
      modifies `unused, `used
      ensures Valid() && p in obtained && p !in old(used) && used == old(used)[p := block] && p in old(unused)[block]
    {
      var list := unused[block];
      p := list[|list| - 1];
      unused := unused[block := list[..|list| - 1]];
      used := used[p := block];
    }

    method Deallocate(p: nat) returns (r: Attempt<()>)
      requires Valid()
      modifies this
      ensures Valid() && obtained == old(obtained)
      ensures r.Thrown? <==> p != 0 && p !in old(used)
      ensures used == old(used) - {p}
    {
      if p == 0 { return Returned(()); }
      if p !in used { return Thrown; }
      var block := used[p];
      unused := unused[block := (if block in unused then unused[block] else []) + [p]];
      used := used - {p};
      r := Returned(());
    }

    /** Throws while blocks are in use; otherwise gives everything back. */
    method Reset() returns (r: Attempt<()>)
      requires Valid()
      modifies this
      ensures Valid() && (r.Thrown? <==> old(used) != map[])
      ensures r.Thrown? ==> obtained == old(obtained) && used == old(used)
      ensures r.Returned? ==> obtained == map[] && used == map[]
    {
      if |used| != 0 { return Thrown; }
      unused := map[];
      obtained := map[];
      r := Returned(());
    }
  }

  lemma {:induction false} PowMonotone(k: nat, m: nat)
    requires k <= m
    ensures Pow2(k) <= Pow2(m)
    decreases m - k
  {
    if k < m {
      PowPositive(m - 1);
      PowMonotone(k, m - 1);
    }
  }

  lemma OneSizeClass(block: nat, k: nat, block': nat, k': nat, size: nat)
    requires SizeClass(block, size, k) && SizeClass(block', size, k')
    ensures block == block'
  {
    if k < k' { PowMonotone(k, k' - 1); }
    if k' < k { PowMonotone(k', k - 1); }
  }

  /** A free block of the size class that is asked for. */
  ghost predicate Reusable(unused: map<nat, seq<nat>>, p: nat, size: nat)
  {
    exists block, k: nat :: block in unused && p in unused[block] && SizeClass(block, size, k)
  }

  lemma ReusableIs(unused: map<nat, seq<nat>>, size: nat, block: nat, k: nat)
    requires SizeClass(block, size, k)
    ensures forall p: nat :: Reusable(unused, p, size) <==> block in unused && p in unused[block]
  {
    forall p: nat ensures Reusable(unused, p, size) <==> block in unused && p in unused[block] {
      if Reusable(unused, p, size) {
        var block', k': nat :| block' in unused && p in unused[block'] && SizeClass(block', size, k');
        OneSizeClass(block, k, block', k', size);
      }
    }
  }

  /** `block` is the least size class of base 8 that holds `size`. */
  ghost predicate SizeClass(block: nat, size: nat, k: nat)
  {
    block == 8 * Pow2(k) && size <= block && (k > 0 ==> 8 * Pow2(k - 1) < size)
  }
}
