/**
 Which fiber a connection belongs to: a table from connection keys to the fiber
 that holds them, with a release sweep that erases while it iterates.
 */
module Claims {
  import opened Basics
  import opened Probing
  import opened ProbeTables

  /** What names a connection. Allocator addresses are even; odd keys are tags. */
  type Key = k: nat | k > 0 witness 1
  type Fiber = nat

  /** The claims as a plain map, with the number of slots behind it. */
  datatype Claimed = Claimed(owners: map<Key, Fiber>, slots: nat)

  function Acquired(c: Claimed, key: Key, owner: Fiber, alloc: bool): (r: (Claimed, bool)) {
    if key in c.owners then (c.(owners := c.owners[key := owner]), true)
    else if HasRoom(c.slots, |c.owners|) then (c.(owners := c.owners[key := owner]), true)
    else if !alloc || c.slots >= MAX_SLOTS then (c, false)
    else (Claimed(c.owners[key := owner], if c.slots > 0 then 2 * c.slots else 16), true)
  }

  function Forgotten(c: Claimed, key: Key): (r: Claimed) {
    c.(owners := c.owners - {key})
  }

  function Released(c: Claimed, fiber: Fiber): (r: Claimed) {
    c.(owners := map k | k in c.owners && c.owners[k] != fiber :: c.owners[k])
  }

  function ResetIfNone(c: Claimed): (r: Claimed) {
    if |c.owners| == 0 then Claimed(map[], 0) else c
  }

  datatype Op =
    | Acquire(key: Key, owner: Fiber, alloc: bool)
    | Forget(key: Key)
    | Release(fiber: Fiber)
    | Reset

  function Apply(c: Claimed, op: Op): (r: Claimed) {
    match op
    case Acquire(k, f, alloc) => Acquired(c, k, f, alloc).0
    case Forget(k) => Forgotten(c, k)
    case Release(f) => Released(c, f)
    case Reset => ResetIfNone(c)
  }

  function Run(c: Claimed, ops: seq<Op>): (r: Claimed) {
    if ops == [] then c else Apply(Run(c, ops[..|ops| - 1]), ops[|ops| - 1])
  }

  /** An odd key, which is no address, held by another fiber. */
  predicate TaggedElsewhere(key: Key, owner: Fiber, self: Fiber) {
    key % 2 == 1 && owner != self
  }

  ghost predicate NoneBelow(s: seq<Slot<Key, Fiber>>, fiber: Fiber, i: nat)
    requires i <= |s|
  {
    forall j :: 0 <= j < i && s[j].Used? ==> s[j].owner != fiber
  }

  lemma ReleasedLess(c: Claimed, key: Key, fiber: Fiber, table: Table<Key, Fiber>)
    requires table.Valid() && table.Contents == c.owners
    requires Used(key, fiber) in table.slots[..]
    ensures Released(Forgotten(c, key), fiber) == Released(c, fiber)
  {
    table.SlotsAreEntries();
    assert c.owners[key] == fiber;
  }

  lemma ReleasedNone(c: Claimed, fiber: Fiber, table: Table<Key, Fiber>)
    requires table.Valid() && table.Contents == c.owners
    requires NoneBelow(table.slots[..], fiber, table.slots.Length)
    ensures Released(c, fiber) == c
  {
    table.SlotsAreEntries();
    assert forall k :: k in c.owners ==> c.owners[k] != fiber;
  }

  // ─── What every run of operations keeps ─────────────────

  /** The load stays at or below half whatever the operations. */
  lemma {:induction false} RunHalfLoad(c: Claimed, ops: seq<Op>)
    requires 2 * |c.owners| <= c.slots
    ensures 2 * |Run(c, ops).owners| <= Run(c, ops).slots
  {
    if ops != [] {
      var mid := Run(c, ops[..|ops| - 1]);
      RunHalfLoad(c, ops[..|ops| - 1]);
      var after := Apply(mid, ops[|ops| - 1]);
      if ops[|ops| - 1].Forget? || ops[|ops| - 1].Release? {
        assert after.owners.Keys <= mid.owners.Keys;
        SubsetSize(after.owners.Keys, mid.owners.Keys);
      }
    }
  }

  /** Who holds `key` after `ops`, read off the operations alone: the last
      acquisition of it, unless it was forgotten or its holder released since. */
  function LastHolder(c: Claimed, ops: seq<Op>, key: Key): (r: Option<Fiber>) {
    if ops == [] then Holder(c, key)
    else
      var before := Run(c, ops[..|ops| - 1]);
      NextHolder(LastHolder(c, ops[..|ops| - 1], key), before, ops[|ops| - 1], key)
  }

  function Holder(c: Claimed, key: Key): Option<Fiber> {
    if key in c.owners then Some(c.owners[key]) else None
  }

  /** A key that nobody holds can be entered: there is room at half load, or the table can grow. */
  predicate CanEnter(before: Claimed, alloc: bool) {
    2 * (|before.owners| + 1) <= before.slots || (alloc && before.slots < 0x8000_0000)
  }

  /** One operation later. */
  function NextHolder(earlier: Option<Fiber>, before: Claimed, op: Op, key: Key): Option<Fiber> {
    match op
    case Acquire(k, f, alloc) => if k == key && (earlier.Some? || CanEnter(before, alloc)) then Some(f) else earlier
    case Forget(k) => if k == key then None else earlier
    case Release(f) => if earlier == Some(f) then None else earlier
    case Reset => earlier
  }

  lemma AcquireHolds(c: Claimed, k: Key, f: Fiber, alloc: bool, key: Key)
    ensures Holder(Acquired(c, k, f, alloc).0, key) == NextHolder(Holder(c, key), c, Acquire(k, f, alloc), key)
  {
  }

  lemma ReleaseHolds(c: Claimed, f: Fiber, key: Key)
    ensures Holder(Released(c, f), key) == NextHolder(Holder(c, key), c, Release(f), key)
  {
  }

  lemma ResetHolds(c: Claimed, key: Key)
    ensures Holder(ResetIfNone(c), key) == Holder(c, key)
  {
    if |c.owners| == 0 {
      assert key !in c.owners.Keys;
    }
  }

  lemma ResetIs(c: Claimed)
    ensures ResetIfNone(c) == Claimed(c.owners, if c.owners == map[] then 0 else c.slots)
  {
    if |c.owners| == 0 {
      assert c.owners.Keys == {};
    }
  }

  /** The table answers with exactly what was last stored for the key. */
  lemma {:induction false} RunHolds(c: Claimed, ops: seq<Op>, key: Key)
    ensures LastHolder(c, ops, key) == Holder(Run(c, ops), key)
  {
    if ops != [] {
      var before := Run(c, ops[..|ops| - 1]);
      RunHolds(c, ops[..|ops| - 1], key);
      match ops[|ops| - 1]
      case Acquire(k, f, alloc) => AcquireHolds(before, k, f, alloc, key);
      case Forget(k) =>
      case Release(f) => ReleaseHolds(before, f, key);
      case Reset => ResetHolds(before, key);
    }
  }

  class ConnectionClaims {
    var table: Table<Key, Fiber>

    ghost predicate Valid()
      reads this, table, table.slots
    {
      table.Valid() && table.firstBits == 4
    }

    ghost function View(): (r: Claimed)
      reads this, table, table.slots
    {
      Claimed(table.Contents, table.slots.Length)
    }

    constructor (hash: Key -> nat)
      ensures Valid() && View() == Claimed(map[], 0)
      ensures fresh(table) && fresh(table.slots)
    {
      table := new Table(hash, 4);
    }

    method Owner(key: Key) returns (r: Option<Fiber>)
      requires Valid()
      ensures r == if key in View().owners then Some(View().owners[key]) else None
    {
      var found := table.Find(key);
      match found
      case Missing => return None;
      case At(i) => return Some(table.slots[i].owner);
    }

    method Acquire(key: Key, owner: Fiber, alloc: bool) returns (ok: bool)
      requires Valid()
      modifies table, table.slots
      ensures Valid() && table == old(table) && (table.slots == old(table.slots) || fresh(table.slots))
      ensures (View(), ok) == Acquired(old(View()), key, owner, alloc)
      ensures ok <==> key in old(View()).owners || CanEnter(old(View()), alloc)
      ensures ok ==> key in View().owners && View().owners[key] == owner
    {
      table.CountIsEntries();
      assert Pow2(4) == 16;
      var found := table.Find(key);
      if found.At? {
        table.Overwrite(found.index, owner);
        return true;
      }
      ok := table.Put(key, owner, alloc);
    }

    method Forget(key: Key)
      requires Valid()
      modifies table, table.slots
      ensures Valid() && table == old(table) && table.slots == old(table.slots)
      ensures View() == Forgotten(old(View()), key)
    {
      var found := table.Find(key);
      if found.At? {
        table.Erase(found.index);
      }
    }

    method TaggedHeldByOther(self: Fiber) returns (r: bool)
      requires Valid()
      ensures r <==> exists k :: k in View().owners && TaggedElsewhere(k, View().owners[k], self)
    {
      table.SlotsAreEntries();
      if table.slots.Length == 0 || table.count == 0 {
        table.CountIsEntries();
        return false;
      }
      for i := 0 to table.slots.Length
        invariant forall j :: 0 <= j < i && table.slots[j].Used? ==> !TaggedElsewhere(table.slots[j].key, table.slots[j].owner, self)
      {
        var slot := table.slots[i];
        if slot.Used? && TaggedElsewhere(slot.key, slot.owner, self) {
          assert slot.key in View().owners;
          return true;
        }
      }
      return false;
    }

    /** Give up every connection `fiber` holds. An erase can pull a later entry
        into the slot just examined, so that slot is looked at again. */
    method ReleaseFiber(fiber: Fiber)
      requires Valid()
      modifies table, table.slots
      ensures Valid() && table == old(table) && table.slots == old(table.slots)
      ensures View() == Released(old(View()), fiber)
    {
      if table.slots.Length == 0 || table.count == 0 {
        table.CountIsEntries();
        return;
      }
      var i := 0;
      while i < table.slots.Length
        invariant Valid() && table == old(table) && table.slots == old(table.slots)
        invariant i <= table.slots.Length
        invariant Released(View(), fiber) == Released(old(View()), fiber)
        invariant NoneBelow(table.slots[..], fiber, i)
        decreases table.count, table.slots.Length - i
      {
        if table.slots[i].Used? && table.slots[i].owner == fiber {
          ReleasedLess(View(), table.slots[i].key, fiber, table);
          table.Erase(i);
          continue;
        }
        i := i + 1;
      }
      ReleasedNone(View(), fiber, table);
    }

    method ResetIfEmpty()
      requires Valid()
      modifies table, table.slots
      ensures Valid() && table == old(table) && (table.slots == old(table.slots) || fresh(table.slots))
      ensures View() == ResetIfNone(old(View()))
      ensures View().owners == old(View()).owners && View().slots == if old(View()).owners == map[] then 0 else old(View()).slots
    {
      table.CountIsEntries();
      ResetIs(View());
      if table.count != 0 { return; }
      table.Clear();
    }

    /** Over any sequence of operations the table is exactly the map. */
    method Replay(ops: seq<Op>)
      requires Valid()
      modifies table, table.slots
      ensures Valid() && View() == Run(old(View()), ops)
    {
      for i := 0 to |ops|
        invariant Valid() && table == old(table)
        invariant table.slots == old(table.slots) || fresh(table.slots)
        invariant View() == Run(old(View()), ops[..i])
      {
        assert ops[..i + 1][..i] == ops[..i];
        match ops[i]
        case Acquire(k, f, alloc) => var _ := Acquire(k, f, alloc);
        case Forget(k) => Forget(k);
        case Release(f) => ReleaseFiber(f);
        case Reset => ResetIfEmpty();
      }
      assert ops[..|ops|] == ops;
    }
  }
}
