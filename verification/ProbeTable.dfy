/**
 The open-addressed table behind both the descriptor registrations and the
 connection claims: linear probing, no tombstones, doubling at half load,
 backward-shift deletion.

 `Probing` holds the cyclic geometry and the lemmas about slot sequences;
 `ProbeTables` holds the class that works in place on the slot array and is
 proved to refine a plain map.
 */
module Probing {

  datatype Slot<K, V> = Free | Used(key: K, owner: V)

  // ─── Cyclic positions ───────────────────────────────────

  function Pow2(n: nat): (r: nat)
    ensures r >= 1
  {
    if n == 0 then 1 else 2 * Pow2(n - 1)
  }

  lemma {:induction false} Pow2Divides(m: nat, n: nat) returns (q: nat)
    requires m <= n
    ensures Pow2(n) == Pow2(m) * q
    decreases n
  {
    if m == n {
      q := 1;
    } else {
      q := Pow2Divides(m, n - 1);
      q := 2 * q;
    }
  }

  lemma MulBounds(d: nat, a: int)
    ensures a >= 1 ==> d * a >= d
    ensures a <= -1 ==> d * a <= 0 - d
  {
  }

  /** The quotient and remainder of a division are the only ones. */
  lemma ModUnique(x: int, d: nat, q: int, r: int)
    requires d > 0 && x == d * q + r && 0 <= r < d
    ensures x % d == r
  {
    var q', r' := x / d, x % d;
    assert d * (q - q') == r' - r;
    MulBounds(d, q - q');
  }

  lemma ModOfMod(x: int, cap: nat, n: nat)
    requires cap > 0 && n > 0
    ensures cap * n > 0 && (x % (cap * n)) % cap == x % cap
  {
    var big := cap * n;
    MulBounds(cap, n);
    var q, y := x / big, x % big;
    var t, rem := y / cap, y % cap;
    assert x == cap * (n * q + t) + rem by {
      assert x == big * q + y && big * q == cap * (n * q);
    }
    ModUnique(x, cap, n * q + t, rem);
  }

  /** `(i + 1) & mask` */
  function Next(i: nat, cap: nat): (r: nat)
    requires i < cap
    ensures r < cap
  {
    if i + 1 == cap then 0 else i + 1
  }

  /** `(to - from) & mask`: how far `to` lies ahead of `from` round the table. */
  function Dist(from: nat, to: nat, cap: nat): (r: nat)
    requires from < cap && to < cap
    ensures r < cap
    ensures r == 0 <==> from == to
  {
    if from <= to then to - from else to + cap - from
  }

  /** The unsigned 32-bit arithmetic of the source, masked by a power of two
      minus one, is the cyclic arithmetic used here, wrap-around included. */
  lemma MaskedArithmetic(i: nat, from: nat, bits: nat)
    requires bits <= 31 && i < Pow2(bits) && from < Pow2(bits)
    ensures Dist(from, i, Pow2(bits)) == ((i - from) % Pow2(32)) % Pow2(bits)
    ensures Next(i, Pow2(bits)) == ((i + 1) % Pow2(32)) % Pow2(bits)
  {
    var cap := Pow2(bits);
    var n := Pow2Divides(bits, 32);
    assert n > 0;
    ModOfMod(i - from, cap, n);
    ModOfMod(i + 1, cap, n);
    ModUnique(i - from, cap, if from <= i then 0 else -1, Dist(from, i, cap));
    ModUnique(i + 1, cap, if i + 1 == cap then 1 else 0, Next(i, cap));
  }

  /** The slot a key probes first. */
  function Home<K>(hash: K -> nat, k: K, cap: nat): (r: nat)
    requires cap > 0
    ensures r < cap
  {
    hash(k) % cap
  }

  // ─── What a slot sequence holds ─────────────────────────

  ghost predicate Distinct<K, V>(s: seq<Slot<K, V>>) {
    forall i, j :: 0 <= i < |s| && 0 <= j < |s| && s[i].Used? && s[j].Used? && s[i].key == s[j].key ==> i == j
  }

  ghost predicate Has<K, V>(s: seq<Slot<K, V>>, k: K) {
    exists i :: 0 <= i < |s| && s[i].Used? && s[i].key == k
  }

  /** `s` stores exactly the entries of `m`. */
  ghost predicate Represents<K, V>(s: seq<Slot<K, V>>, m: map<K, V>) {
    && (forall i :: 0 <= i < |s| && s[i].Used? ==> s[i].key in m && m[s[i].key] == s[i].owner)
    && (forall k :: k in m ==> Has(s, k))
  }

  /** No free slot, other than possibly `hole`, lies on the probe path that
      leads from the home of the key in slot `j` to `j`. */
  ghost predicate Covered<K, V>(s: seq<Slot<K, V>>, hash: K -> nat, j: nat, hole: int)
    requires j < |s| && s[j].Used?
  {
    var home := Home(hash, s[j].key, |s|);
    forall t :: 0 <= t < |s| && Dist(home, t, |s|) < Dist(home, j, |s|) ==> s[t].Used? || t == hole
  }

  /** Every probe path is whole, but for the hole. */
  ghost predicate Paths<K, V>(s: seq<Slot<K, V>>, hash: K -> nat, hole: int) {
    forall j :: 0 <= j < |s| && s[j].Used? ==> Covered(s, hash, j, hole)
  }

  ghost predicate Stores<K, V>(s: seq<Slot<K, V>>, m: map<K, V>) {
    Distinct(s) && Represents(s, m)
  }

  ghost predicate WellFormed<K, V>(s: seq<Slot<K, V>>, hash: K -> nat, m: map<K, V>) {
    Stores(s, m) && Paths(s, hash, -1)
  }

  lemma StoresPut<K, V>(s: seq<Slot<K, V>>, m: map<K, V>, i: nat, k: K, v: V)
    requires Stores(s, m) && i < |s|
    requires if s[i].Used? then s[i].key == k else k !in m
    ensures Stores(s[i := Used(k, v)], m[k := v])
  {
    var s' := s[i := Used(k, v)];
    forall k' | k' in m[k := v] ensures Has(s', k') {
      if k' == k {
        assert s'[i] == Used(k, v);
      } else {
        assert Has(s, k');
        var j :| 0 <= j < |s| && s[j].Used? && s[j].key == k';
        assert s'[j] == s[j];
      }
    }
  }

  lemma StoresClear<K, V>(s: seq<Slot<K, V>>, m: map<K, V>, i: nat)
    requires Stores(s, m) && i < |s| && s[i].Used?
    ensures Stores(s[i := Free], m - {s[i].key})
  {
    var s' := s[i := Free];
    forall k | k in m - {s[i].key} ensures Has(s', k) {
      assert Has(s, k);
      var j :| 0 <= j < |s| && s[j].Used? && s[j].key == k;
      assert s'[j] == s[j];
    }
  }

  lemma StoresMove<K, V>(s: seq<Slot<K, V>>, m: map<K, V>, hole: nat, i: nat)
    requires Stores(s, m) && hole < |s| && i < |s| && s[hole].Free? && s[i].Used?
    ensures Stores(s[hole := s[i]][i := Free], m)
  {
    var s' := s[hole := s[i]][i := Free];
    forall k | k in m ensures Has(s', k) {
      assert Has(s, k);
      var j :| 0 <= j < |s| && s[j].Used? && s[j].key == k;
      assert s'[if j == i then hole else j] == s[j];
    }
  }

  // ─── Counting ───────────────────────────────────────────

  ghost function UsedCount<K, V>(s: seq<Slot<K, V>>): (n: nat)
    ensures n <= |s|
  {
    if s == [] then 0
    else UsedCount(s[..|s| - 1]) + if s[|s| - 1].Used? then 1 else 0
  }

  lemma {:induction false} UsedCountUpdate<K, V>(s: seq<Slot<K, V>>, i: nat, x: Slot<K, V>)
    requires i < |s|
    ensures UsedCount(s[i := x])
         == UsedCount(s) - (if s[i].Used? then 1 else 0) + (if x.Used? then 1 else 0)
  {
    var last := |s| - 1;
    if i == last {
      assert s[i := x][..last] == s[..last];
    } else {
      assert s[i := x][..last] == s[..last][i := x];
      UsedCountUpdate(s[..last], i, x);
    }
  }

  /** A table that is not full has a free slot. */
  lemma {:induction false} FreeSlot<K, V>(s: seq<Slot<K, V>>) returns (f: nat)
    requires UsedCount(s) < |s|
    ensures f < |s| && s[f].Free?
  {
    var last := |s| - 1;
    if s[last].Free? {
      f := last;
    } else {
      f := FreeSlot(s[..last]);
    }
  }

  lemma {:induction false} AllFree<K, V>(s: seq<Slot<K, V>>)
    requires forall i :: 0 <= i < |s| ==> s[i].Free?
    ensures UsedCount(s) == 0
  {
    if s != [] {
      AllFree(s[..|s| - 1]);
    }
  }

  lemma PrefixRepresents<K, V>(s: seq<Slot<K, V>>, m: map<K, V>)
    requires Stores(s, m) && s != []
    ensures Stores(s[..|s| - 1], if s[|s| - 1].Used? then m - {s[|s| - 1].key} else m)
  {
    var last := |s| - 1;
    var rest := s[..last];
    var m' := if s[last].Used? then m - {s[last].key} else m;
    forall k | k in m' ensures Has(rest, k) {
      assert Has(s, k);
      var i :| 0 <= i < |s| && s[i].Used? && s[i].key == k;
      assert rest[i] == s[i];
    }
  }

  /** The entry count is the size of the map the table stores. */
  lemma {:induction false} CountIsSize<K, V>(s: seq<Slot<K, V>>, m: map<K, V>)
    requires Stores(s, m)
    ensures UsedCount(s) == |m|
  {
    if s == [] {
      assert forall k :: k in m ==> Has(s, k);
      assert m == map[];
    } else {
      PrefixRepresents(s, m);
      var last := s[|s| - 1];
      if last.Used? {
        CountIsSize(s[..|s| - 1], m - {last.key});
        assert m.Keys == (m - {last.key}).Keys + {last.key};
      } else {
        CountIsSize(s[..|s| - 1], m);
      }
    }
  }

  // ─── Probing ────────────────────────────────────────────

  /** Every slot from the home of `k` up to, not including, `i` is used by another key. */
  ghost predicate Passed<K, V>(s: seq<Slot<K, V>>, hash: K -> nat, k: K, i: nat)
    requires i < |s|
  {
    var home := Home(hash, k, |s|);
    forall t :: 0 <= t < |s| && Dist(home, t, |s|) < Dist(home, i, |s|) ==> s[t].Used? && s[t].key != k
  }

  lemma PassedNext<K, V>(s: seq<Slot<K, V>>, hash: K -> nat, k: K, i: nat)
    requires i < |s| && Passed(s, hash, k, i) && s[i].Used? && s[i].key != k
    requires Dist(Home(hash, k, |s|), i, |s|) + 1 < |s|
    ensures Passed(s, hash, k, Next(i, |s|))
    ensures Dist(Home(hash, k, |s|), Next(i, |s|), |s|) == Dist(Home(hash, k, |s|), i, |s|) + 1
  {
  }

  /** A free slot ends the probe: the key is not in the table. */
  lemma FreeEndsProbe<K, V>(s: seq<Slot<K, V>>, hash: K -> nat, m: map<K, V>, k: K, i: nat)
    requires WellFormed(s, hash, m) && i < |s| && Passed(s, hash, k, i) && s[i].Free?
    ensures k !in m
  {
    forall j | 0 <= j < |s| && s[j].Used? ensures s[j].key != k {
      assert Covered(s, hash, j, -1);
    }
    assert !Has(s, k);
  }

  lemma PutFree<K, V>(s: seq<Slot<K, V>>, hash: K -> nat, m: map<K, V>, i: nat, k: K, v: V)
    requires WellFormed(s, hash, m) && i < |s| && Passed(s, hash, k, i) && s[i].Free? && k !in m
    ensures WellFormed(s[i := Used(k, v)], hash, m[k := v])
    ensures UsedCount(s[i := Used(k, v)]) == UsedCount(s) + 1
  {
    var s' := s[i := Used(k, v)];
    UsedCountUpdate(s, i, Used(k, v));
    StoresPut(s, m, i, k, v);
    forall j | 0 <= j < |s'| && s'[j].Used? ensures Covered(s', hash, j, -1) {
      if j != i { assert Covered(s, hash, j, -1); }
    }
  }

  lemma PutOver<K, V>(s: seq<Slot<K, V>>, hash: K -> nat, m: map<K, V>, i: nat, k: K, v: V)
    requires WellFormed(s, hash, m) && i < |s| && s[i].Used? && s[i].key == k
    ensures k in m
    ensures WellFormed(s[i := Used(k, v)], hash, m[k := v])
    ensures UsedCount(s[i := Used(k, v)]) == UsedCount(s)
  {
    var s' := s[i := Used(k, v)];
    UsedCountUpdate(s, i, Used(k, v));
    StoresPut(s, m, i, k, v);
    forall j | 0 <= j < |s'| && s'[j].Used? ensures Covered(s', hash, j, -1) {
      assert Covered(s, hash, j, -1);
    }
  }

  // ─── Backward shift ─────────────────────────────────────

  /** The state of the shift with the hole at `hole` and the cursor at `i`: the
      slots strictly between them are used and none of their keys probed
      through the hole; every other probe path is whole but for the hole. */
  ghost predicate Shifting<K, V>(s: seq<Slot<K, V>>, hash: K -> nat, m: map<K, V>, hole: nat, i: nat) {
    && hole < |s| && i < |s| && hole != i
    && s[hole].Free?
    && Stores(s, m)
    && Paths(s, hash, hole)
    && (forall j :: 0 <= j < |s| && 0 < Dist(hole, j, |s|) < Dist(hole, i, |s|) ==>
          s[j].Used? && Covered(s, hash, j, -1))
  }

  lemma ShiftStart<K, V>(s: seq<Slot<K, V>>, hash: K -> nat, m: map<K, V>, hole: nat)
    requires WellFormed(s, hash, m) && hole < |s| && s[hole].Used? && |s| > 1
    ensures Shifting(s[hole := Free], hash, m - {s[hole].key}, hole, Next(hole, |s|))
    ensures UsedCount(s[hole := Free]) == UsedCount(s) - 1
  {
    var s' := s[hole := Free];
    UsedCountUpdate(s, hole, Free);
    StoresClear(s, m, hole);
    forall j | 0 <= j < |s'| && s'[j].Used? ensures Covered(s', hash, j, hole) {
      assert Covered(s, hash, j, -1);
    }
  }

  /** The key at the cursor did not probe through the hole: its home lies past it. */
  lemma ShiftSkip<K, V>(s: seq<Slot<K, V>>, hash: K -> nat, m: map<K, V>, hole: nat, i: nat)
    requires Shifting(s, hash, m, hole, i) && s[i].Used?
    requires Dist(Home(hash, s[i].key, |s|), i, |s|) < Dist(hole, i, |s|)
    requires Next(i, |s|) != hole
    ensures Shifting(s, hash, m, hole, Next(i, |s|))
  {
    assert Covered(s, hash, i, hole);
    assert Covered(s, hash, i, -1);
  }

  lemma MoveCovers<K, V>(s: seq<Slot<K, V>>, hash: K -> nat, m: map<K, V>, hole: nat, i: nat, j: nat)
    requires Shifting(s, hash, m, hole, i) && s[i].Used?
    requires Dist(Home(hash, s[i].key, |s|), i, |s|) >= Dist(hole, i, |s|)
    requires j < |s| && s[hole := s[i]][i := Free][j].Used?
    ensures Covered(s[hole := s[i]][i := Free], hash, j, i)
  {
    assert Covered(s, hash, if j == hole then i else j, hole);
  }

  lemma MoveKeepsCount<K, V>(s: seq<Slot<K, V>>, hole: nat, i: nat)
    requires hole < |s| && i < |s| && s[hole].Free? && s[i].Used?
    ensures UsedCount(s[hole := s[i]][i := Free]) == UsedCount(s)
  {
    UsedCountUpdate(s, hole, s[i]);
    UsedCountUpdate(s[hole := s[i]], i, Free);
  }

  /** The key at the cursor is pulled back into the hole, which moves to the cursor. */
  lemma ShiftMove<K, V>(s: seq<Slot<K, V>>, hash: K -> nat, m: map<K, V>, hole: nat, i: nat)
    requires Shifting(s, hash, m, hole, i) && s[i].Used?
    requires Dist(Home(hash, s[i].key, |s|), i, |s|) >= Dist(hole, i, |s|)
    ensures Shifting(s[hole := s[i]][i := Free], hash, m, i, Next(i, |s|))
  {
    var s' := s[hole := s[i]][i := Free];
    assert Paths(s', hash, i) by {
      forall j | 0 <= j < |s'| && s'[j].Used? ensures Covered(s', hash, j, i) {
        MoveCovers(s, hash, m, hole, i, j);
      }
    }
    StoresMove(s, m, hole, i);
    assert Dist(i, Next(i, |s|), |s|) <= 1;
  }

  /** At a slot that was already free the shift is over and every path is whole again. */
  lemma ShiftDone<K, V>(s: seq<Slot<K, V>>, hash: K -> nat, m: map<K, V>, hole: nat, i: nat)
    requires Shifting(s, hash, m, hole, i) && s[i].Free?
    ensures WellFormed(s, hash, m)
  {
    forall j | 0 <= j < |s| && s[j].Used? ensures Covered(s, hash, j, -1) {
      assert Covered(s, hash, j, hole);
    }
  }
}

module ProbeTables {
  import opened Probing

  datatype Found = Missing | At(index: nat)

  /** Where the entries below `pos` come from after an erase at `pos`: only from below `pos`. */
  ghost predicate FromBelow<K, V>(before: seq<Slot<K, V>>, after: seq<Slot<K, V>>, pos: nat)
    requires pos <= |before| == |after|
  {
    forall t :: 0 <= t < pos && after[t].Used? ==> exists u :: 0 <= u < pos && before[u] == after[t]
  }

  class Table<K(==), V(==)> {
    const hash: K -> nat
    const firstBits: nat              // the first allocation has 2^firstBits slots
    var slots: array<Slot<K, V>>      // no slots at all until the first use
    var count: nat
    ghost var bits: nat
    ghost var Contents: map<K, V>

    ghost predicate Valid()
      reads this, slots
    {
      && 1 <= firstBits <= 31
      && (slots.Length > 0 ==> 1 <= bits <= 31 && slots.Length == Pow2(bits))
      && WellFormed(slots[..], hash, Contents)
      && count == UsedCount(slots[..])
      && 2 * count <= slots.Length
    }

    constructor (hash: K -> nat, firstBits: nat)
      requires 1 <= firstBits <= 31
      ensures Valid() && Contents == map[] && fresh(slots) && slots.Length == 0
      ensures this.hash == hash && this.firstBits == firstBits
    {
      this.hash, this.firstBits := hash, firstBits;
      slots := new Slot<K, V>[0];
      count, bits, Contents := 0, 0, map[];
    }

    /** The count kept beside the slots is the number of entries stored. */
    lemma CountIsEntries()
      requires Valid()
      ensures count == |Contents|
    {
      CountIsSize(slots[..], Contents);
    }

    /** What a slot shows is an entry, and every entry shows in a slot. */
    lemma SlotsAreEntries()
      requires Valid()
      ensures forall i :: 0 <= i < slots.Length && slots[i].Used? ==>
                slots[i].key in Contents && Contents[slots[i].key] == slots[i].owner
      ensures forall k :: k in Contents ==> exists i :: 0 <= i < slots.Length && slots[i] == Used(k, Contents[k])
    {
      forall i | 0 <= i < slots.Length && slots[i].Used?
        ensures slots[i].key in Contents && Contents[slots[i].key] == slots[i].owner
      {
        assert slots[..][i] == slots[i];
      }
      forall k | k in Contents ensures exists i :: 0 <= i < slots.Length && slots[i] == Used(k, Contents[k]) {
        assert Has(slots[..], k);
        var i :| 0 <= i < slots.Length && slots[..][i].Used? && slots[..][i].key == k;
        assert slots[i] == Used(k, Contents[k]);
      }
    }

    /** Place a key in slots known to have room; true when it took a free slot. */
    static method Insert(slots: array<Slot<K, V>>, hash: K -> nat, k: K, v: V, ghost m: map<K, V>) returns (isNew: bool)
      requires WellFormed(slots[..], hash, m) && UsedCount(slots[..]) < slots.Length
      modifies slots
      ensures WellFormed(slots[..], hash, m[k := v])
      ensures isNew <==> k !in m
      ensures UsedCount(slots[..]) == old(UsedCount(slots[..])) + if isNew then 1 else 0
    {
      ghost var s := slots[..];
      ghost var f := FreeSlot(s);
      var cap := slots.Length;
      var home := Home(hash, k, cap);
      var i: nat := home;
      while slots[i].Used? && slots[i].key != k
        invariant i < cap && slots[..] == s
        invariant Passed(s, hash, k, i)
        invariant Dist(home, i, cap) <= Dist(home, f, cap)
        decreases cap - Dist(home, i, cap)
      {
        PassedNext(s, hash, k, i);
        i := Next(i, cap);
      }
      isNew := slots[i].Free?;
      if isNew {
        FreeEndsProbe(s, hash, m, k, i);
        PutFree(s, hash, m, i, k, v);
      } else {
        PutOver(s, hash, m, i, k, v);
      }
      slots[i] := Used(k, v);
      assert slots[..] == s[i := Used(k, v)];
    }

    /** Place every entry of `slots` in the empty `bigger`. */
    static method Rehash(slots: array<Slot<K, V>>, bigger: array<Slot<K, V>>, hash: K -> nat, ghost m: map<K, V>)
      requires Stores(slots[..], m) && slots != bigger && UsedCount(slots[..]) < bigger.Length
      requires forall i :: 0 <= i < bigger.Length ==> bigger[i].Free?
      modifies bigger
      ensures WellFormed(bigger[..], hash, m)
      ensures UsedCount(bigger[..]) == UsedCount(slots[..])
    {
      ghost var s := slots[..];
      ghost var moved: map<K, V> := map[];
      AllFree(bigger[..]);
      for i := 0 to slots.Length
        invariant slots[..] == s
        invariant WellFormed(bigger[..], hash, moved)
        invariant Stores(s[..i], moved)
        invariant UsedCount(bigger[..]) == UsedCount(s[..i]) <= UsedCount(s)
      {
        PrefixCount(s, i);
        StoresPrefix(s, i, moved);
        if slots[i].Used? {
          var k, v := slots[i].key, slots[i].owner;
          var _ := Insert(bigger, hash, k, v, moved);
          moved := moved[k := v];
        }
      }
      assert s[..slots.Length] == s;
      SameContents(s, moved, m);
    }

    /** Make room for one more entry. `alloc` is whether an allocation succeeds;
        it is asked only when the table has to grow, and not past 2^31 slots,
        where the doubling no longer fits 32 bits. */
    method Reserve(alloc: bool) returns (ok: bool)
      requires Valid()
      modifies this`slots, this`bits
      ensures Valid() && Contents == old(Contents) && count == old(count)
      ensures ok <==> HasRoom(old(slots.Length), old(count)) || (alloc && old(slots.Length) < MAX_SLOTS)
      ensures ok ==> 2 * (count + 1) <= slots.Length
      ensures slots.Length == Grown(old(slots.Length), firstBits, old(count), alloc)
      ensures if !ok || HasRoom(old(slots.Length), old(count)) then slots == old(slots) && bits == old(bits) else fresh(slots)
    {
      var cap := slots.Length;
      if cap != 0 && (count + 1) * 2 <= cap { return true; }
      if !alloc || cap >= MAX_SLOTS { return false; }

      var newCap := if cap != 0 then cap * 2 else Capacity(firstBits);
      var bigger := new Slot<K, V>[newCap](_ => Free);
      Rehash(slots, bigger, hash, Contents);
      if cap != 0 { DoubledIsPow2(bits); }
      bits := if cap != 0 then bits + 1 else firstBits;
      slots := bigger;
      return true;
    }

    /** Record `v` for `k`, growing first if need be; false only when the growth was refused. */
    method Put(k: K, v: V, alloc: bool) returns (ok: bool)
      requires Valid()
      modifies this, slots
      ensures Valid()
      ensures ok <==> HasRoom(old(slots.Length), old(count)) || (alloc && old(slots.Length) < MAX_SLOTS)
      ensures Contents == if ok then old(Contents)[k := v] else old(Contents)
      ensures slots.Length == Grown(old(slots.Length), firstBits, old(count), alloc)
      ensures slots == old(slots) || fresh(slots)
    {
      ok := Reserve(alloc);
      if ok {
        var isNew := Insert(slots, hash, k, v, Contents);
        if isNew { count := count + 1; }
        Contents := Contents[k := v];
      }
    }

    /** The slot that holds `k`, or that there is none. */
    method Find(k: K) returns (r: Found)
      requires Valid()
      ensures r.Missing? <==> k !in Contents
      ensures r.At? ==> r.index < slots.Length && slots[r.index] == Used(k, Contents[k])
    {
      if slots.Length == 0 { return Missing; }
      ghost var s := slots[..];
      var cap := slots.Length;
      var home := Home(hash, k, cap);
      var i: nat := home;
      ghost var f := FreeSlot(s);
      for probe := 0 to cap
        invariant i < cap && slots[..] == s
        invariant probe < cap ==> Passed(s, hash, k, i) && Dist(home, i, cap) == probe <= Dist(home, f, cap)
        invariant probe <= Dist(home, f, cap)
      {
        if slots[i].Free? {
          FreeEndsProbe(s, hash, Contents, k, i);
          return Missing;
        }
        if slots[i].key == k {
          return At(i);
        }
        PassedNext(s, hash, k, i);
        i := Next(i, cap);
      }
      return Missing;
    }

    /** Give an entry another owner where it stands. */
    method Overwrite(i: nat, v: V)
      requires Valid() && i < slots.Length && slots[i].Used?
      modifies this`Contents, slots
      ensures Valid() && Contents == old(Contents)[old(slots[i].key) := v]
    {
      ghost var s := slots[..];
      var k := slots[i].key;
      PutOver(s, hash, Contents, i, k, v);
      slots[i] := Used(k, v);
      assert slots[..] == s[i := Used(k, v)];
      Contents := Contents[k := v];
    }

    /** Free the slots of a table that holds nothing. */
    method Clear()
      requires Valid() && count == 0
      modifies this`slots, this`bits, this`Contents
      ensures Valid() && Contents == old(Contents) == map[]
      ensures fresh(slots) && slots.Length == 0
    {
      CountIsEntries();
      slots := new Slot<K, V>[0];
      bits := 0;
    }

    /** Clear one slot, pulling back the keys that probed past it. */
    method Erase(pos: nat)
      requires Valid() && pos < slots.Length && slots[pos].Used?
      modifies this`count, this`Contents, slots
      ensures Valid() && count == old(count) - 1
      ensures Contents == old(Contents) - {old(slots[pos].key)}
      ensures FromBelow(old(slots[..]), slots[..], pos)
    {
      ghost var s, m := slots[..], Contents - {slots[pos].key};
      ghost var f := FreeSlot(s);
      ShiftStart(s, hash, Contents, pos);

      slots[pos] := Free;
      count := count - 1;
      assert slots[..] == s[pos := Free];
      ShiftBack(slots, hash, pos, f, m);
      FromBelowChain(s, s[pos := Free], slots[..], pos);
      Contents := m;
    }

    /** Pull keys back into the hole at `pos` until a slot is reached that was already free. */
    static method ShiftBack(slots: array<Slot<K, V>>, hash: K -> nat, pos: nat, ghost f: nat, ghost m: map<K, V>)
      requires pos < slots.Length && f < slots.Length && f != pos && slots[f].Free?
      requires Shifting(slots[..], hash, m, pos, Next(pos, slots.Length))
      modifies slots
      ensures WellFormed(slots[..], hash, m)
      ensures UsedCount(slots[..]) == old(UsedCount(slots[..]))
      ensures FromBelow(old(slots[..]), slots[..], pos)
    {
      ghost var before := slots[..];
      var cap := slots.Length;
      var hole: nat := pos;
      var i: nat := Next(hole, cap);
      while slots[i].Used?
        invariant ShiftLoop(before, slots[..], hash, m, pos, f, hole, i)
        decreases cap - Dist(pos, i, cap)
      {
        ghost var s := slots[..];
        ShiftLoopStep(before, s, hash, m, pos, f, hole, i);
        if Dist(Home(hash, slots[i].key, cap), i, cap) >= Dist(hole, i, cap) {
          slots[hole] := slots[i];
          slots[i] := Free;
          assert slots[..] == s[hole := s[i]][i := Free];
          hole := i;
        }
        i := Next(i, cap);
      }
      ShiftDone(slots[..], hash, m, hole, i);
    }
  }

  /** What the shift loop keeps: the cursor stays between the hole and a slot `f` that is free throughout. */
  ghost predicate ShiftLoop<K, V>(before: seq<Slot<K, V>>, s: seq<Slot<K, V>>, hash: K -> nat, m: map<K, V>,
                                  pos: nat, f: nat, hole: nat, i: nat)
  {
    && |before| == |s| && pos < |s| && f < |s| && hole < |s| && i < |s|
    && f != hole && s[f].Free?
    && Shifting(s, hash, m, hole, i)
    && UsedCount(s) == UsedCount(before)
    && Dist(pos, hole, |s|) < Dist(pos, i, |s|) <= Dist(pos, f, |s|)
    && FromBelow(before, s, pos)
  }

  lemma ShiftLoopStep<K, V>(before: seq<Slot<K, V>>, s: seq<Slot<K, V>>, hash: K -> nat, m: map<K, V>,
                            pos: nat, f: nat, hole: nat, i: nat)
    requires ShiftLoop(before, s, hash, m, pos, f, hole, i) && s[i].Used?
    ensures Dist(pos, Next(i, |s|), |s|) == Dist(pos, i, |s|) + 1
    ensures if Dist(Home(hash, s[i].key, |s|), i, |s|) < Dist(hole, i, |s|)
            then ShiftLoop(before, s, hash, m, pos, f, hole, Next(i, |s|))
            else ShiftLoop(before, s[hole := s[i]][i := Free], hash, m, pos, f, i, Next(i, |s|))
  {
    if Dist(Home(hash, s[i].key, |s|), i, |s|) < Dist(hole, i, |s|) {
      ShiftSkip(s, hash, m, hole, i);
    } else {
      ShiftMove(s, hash, m, hole, i);
      MoveKeepsCount(s, hole, i);
      FromBelowMove(before, s, pos, hole, i);
    }
  }

  lemma FromBelowMove<K, V>(before: seq<Slot<K, V>>, s: seq<Slot<K, V>>, pos: nat, hole: nat, i: nat)
    requires |before| == |s| && pos < |s| && hole < |s| && i < |s|
    requires FromBelow(before, s, pos) && Dist(pos, hole, |s|) < Dist(pos, i, |s|)
    ensures FromBelow(before, s[hole := s[i]][i := Free], pos)
  {
  }

  lemma FromBelowChain<K, V>(a: seq<Slot<K, V>>, b: seq<Slot<K, V>>, c: seq<Slot<K, V>>, pos: nat)
    requires pos <= |a| == |b| == |c| && b[..pos] == a[..pos] && FromBelow(b, c, pos)
    ensures FromBelow(a, c, pos)
  {
    forall t | 0 <= t < pos && c[t].Used? ensures exists u :: 0 <= u < pos && a[u] == c[t] {
      var u :| 0 <= u < pos && b[u] == c[t];
      assert b[..pos][u] == a[..pos][u];
    }
  }

  lemma StoresPrefix<K, V>(s: seq<Slot<K, V>>, i: nat, m: map<K, V>)
    requires i < |s| && Distinct(s) && Stores(s[..i], m)
    ensures s[i].Used? ==> s[i].key !in m
    ensures Stores(s[..i + 1], if s[i].Used? then m[s[i].key := s[i].owner] else m)
  {
    var p, q := s[..i], s[..i + 1];
    assert forall j :: 0 <= j < i ==> p[j] == s[j];
    var m' := if s[i].Used? then m[s[i].key := s[i].owner] else m;
    forall k | k in m' ensures Has(q, k) {
      if s[i].Used? && k == s[i].key {
        assert q[i] == s[i];
      } else {
        assert Has(p, k);
        var j :| 0 <= j < |p| && p[j].Used? && p[j].key == k;
        assert q[j] == p[j];
      }
    }
  }

  lemma SameContents<K, V>(s: seq<Slot<K, V>>, m: map<K, V>, m': map<K, V>)
    requires Stores(s, m) && Stores(s, m')
    ensures m == m'
  {
    assert forall k :: Has(s, k) ==> k in m && k in m' && m[k] == m'[k];
  }

  const MAX_SLOTS: nat := 0x8000_0000

  lemma DoubledIsPow2(bits: nat)
    requires bits <= 31 && Pow2(bits) < MAX_SLOTS
    ensures bits < 31 && Pow2(bits + 1) == 2 * Pow2(bits)
  {
    assert Pow2(10) == 1024;
    assert Pow2(20) == 1024 * 1024;
    assert Pow2(31) == 2048 * Pow2(20);
  }

  /** One more entry keeps the load at or below half. */
  predicate HasRoom(cap: nat, count: nat) {
    2 * (count + 1) <= cap
  }

  /** The number of slots after room was asked for, the doubling at half load included. */
  function Grown(cap: nat, firstBits: nat, count: nat, alloc: bool): nat {
    if HasRoom(cap, count) || !alloc || cap >= MAX_SLOTS then cap
    else if cap > 0 then 2 * cap
    else Pow2(firstBits)
  }

  /** 2^bits slots. */
  function Capacity(bits: nat): (r: nat)
    ensures r == Pow2(bits)
  {
    Pow2(bits)
  }

  lemma {:induction false} PrefixCount<K, V>(s: seq<Slot<K, V>>, i: nat)
    requires i < |s|
    ensures UsedCount(s[..i + 1]) == UsedCount(s[..i]) + (if s[i].Used? then 1 else 0)
    ensures UsedCount(s[..i + 1]) <= UsedCount(s)
    decreases |s|
  {
    assert s[..i + 1][..i] == s[..i];
    if i + 1 < |s| {
      PrefixCount(s[..|s| - 1], i);
      assert s[..|s| - 1][..i + 1] == s[..i + 1] && s[..|s| - 1][..i] == s[..i];
    } else {
      assert s[..i + 1] == s;
    }
  }
}
