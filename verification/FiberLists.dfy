/**
 The lists of a scheduler: a doubly linked list of active fibers and a singly
 linked list of fibers kept for reuse. Fibers are relinked in place as requests
 and tasks start and end.
 */
module FiberLists {
  import opened Basics

  const MAX_FIBERS: nat := 256

  datatype Reason = NoReason | Await | Sleep | IoWait

  /** Ids are the thread's rather than a scheduler's: one scheduler can follow another. */
  class IdSource {
    var next: nat
    ghost var Issued: set<nat>

    ghost predicate Valid()
      reads this
    {
      next > 0 && forall id :: id in Issued <==> 0 < id < next
    }

    constructor ()
      ensures Valid() && Issued == {}
    {
      next, Issued := 1, {};
    }

    /** No id is ever handed out twice. */
    method Take() returns (id: nat)
      requires Valid()
      modifies this
      ensures Valid() && id !in old(Issued) && Issued == old(Issued) + {id}
    {
      id := next;
      next := next + 1;
      Issued := Issued + {id};
    }
  }

  class Fiber {
    var id: nat
    var completed: bool
    var reason: Reason
    var fds: nat                     // descriptors its wait points at; 0 for none
    var cancelRequested: bool
    var next: Fiber?
    var prev: Fiber?

    constructor ()
      ensures !completed && reason == NoReason && fds == 0 && !cancelRequested && next == null && prev == null
    {
      id, completed, reason, fds, cancelRequested := 0, false, NoReason, 0, false;
      next, prev := null, null;
    }

    /** End a suspension: no reference to a descriptor outlives it. */
    method ClearSuspend()
      modifies this`reason, this`fds
      ensures reason == NoReason
      ensures fds == if old(reason) == IoWait then 0 else old(fds)
    {
      if reason == IoWait {
        fds := 0;
      }
      reason := NoReason;
    }
  }

  // ─── Lists as sequences ─────────────────────────────────

  /** What a link should name: the fiber at `i`, or nothing past either end. */
  function At(s: seq<Fiber>, i: int): Fiber? {
    if 0 <= i < |s| then s[i] else null
  }

  function Without(s: seq<Fiber>, k: nat): (r: seq<Fiber>)
    requires k < |s|
    ensures |r| == |s| - 1
    ensures forall i {:trigger r[i]} :: 0 <= i < |r| ==> r[i] == s[if i < k then i else i + 1]
  {
    s[..k] + s[k + 1..]
  }

  ghost predicate NoRepeats(s: seq<Fiber>) {
    forall i, j :: 0 <= i < j < |s| ==> s[i] != s[j]
  }

  ghost predicate Apart(s: seq<Fiber>, t: seq<Fiber>) {
    forall f :: f in s ==> f !in t
  }

  ghost predicate LinkedAt(s: seq<Fiber>, i: int)
    requires 0 <= i < |s|
    reads {s[i]}`next, {s[i]}`prev
  {
    s[i].next == At(s, i + 1) && s[i].prev == At(s, i - 1)
  }

  ghost predicate Linked(s: seq<Fiber>)
    reads s`next, s`prev
  {
    forall i :: 0 <= i < |s| ==> LinkedAt(s, i)
  }

  ghost predicate ChainedAt(s: seq<Fiber>, i: int)
    requires 0 <= i < |s|
    reads {s[i]}`next
  {
    s[i].next == At(s, i + 1)
  }

  ghost predicate Chained(s: seq<Fiber>)
    reads s`next
  {
    forall i :: 0 <= i < |s| ==> ChainedAt(s, i)
  }

  /** Reusable: its last request is over and it names no descriptor. */
  ghost predicate Reusable(s: seq<Fiber>)
    reads s`completed, s`reason, s`fds
  {
    forall f :: f in s ==> f.completed && f.reason == NoReason && f.fds == 0
  }

  /** A fiber holds descriptors only while it is parked on them. */
  ghost predicate WaitsOnly(s: seq<Fiber>)
    reads s`reason, s`fds
  {
    forall f :: f in s ==> f.fds != 0 ==> f.reason == IoWait
  }

  ghost predicate DistinctIds(s: seq<Fiber>, issued: set<nat>)
    reads s`id
  {
    && (forall i :: 0 <= i < |s| ==> s[i].id in issued)
    && (forall i, j :: 0 <= i < j < |s| ==> s[i].id != s[j].id)
  }

  lemma WithoutKeeps(s: seq<Fiber>, k: nat)
    requires k < |s| && NoRepeats(s)
    ensures NoRepeats(Without(s, k)) && s[k] !in Without(s, k)
    ensures forall f :: f in s ==> f == s[k] || f in Without(s, k)
    ensures multiset(s) == multiset{s[k]} + multiset(Without(s, k))
  {
    assert s == s[..k] + [s[k]] + s[k + 1..];
    forall f | f in s
      ensures f == s[k] || f in Without(s, k)
    {
      var i :| 0 <= i < |s| && s[i] == f;
      if i != k {
        assert Without(s, k)[if i < k then i else i - 1] == f;
      }
    }
  }

  /** The fiber at `k` first if it holds the session, then the other active ones, then the spare ones. */
  function TeardownOrder(held: bool, k: nat, active: seq<Fiber>, spare: seq<Fiber>): seq<Fiber>
    requires held ==> k < |active|
  {
    if held then [active[k]] + (Without(active, k) + spare) else active + spare
  }

  /** Every fiber of either list is freed, and none twice. */
  lemma EachFreedOnce(held: bool, k: nat, active: seq<Fiber>, spare: seq<Fiber>)
    requires held ==> k < |active|
    requires NoRepeats(active) && NoRepeats(spare) && Apart(active, spare)
    ensures forall f :: f in active || f in spare ==> multiset(TeardownOrder(held, k, active, spare))[f] == 1
    ensures |TeardownOrder(held, k, active, spare)| == |active| + |spare|
  {
    OnceEach(active);
    OnceEach(spare);
    if held {
      WithoutKeeps(active, k);
    }
  }

  lemma {:induction false} OnceEach(s: seq<Fiber>)
    requires NoRepeats(s)
    ensures forall f :: f in s ==> multiset(s)[f] == 1
  {
    if s != [] {
      var n := |s| - 1;
      OnceEach(s[..n]);
      assert s == s[..n] + [s[n]];
    }
  }

  lemma DistinctWithout(s: seq<Fiber>, k: nat, issued: set<nat>)
    requires k < |s| && DistinctIds(s, issued)
    ensures DistinctIds(Without(s, k), issued)
  {
  }

  class Scheduler {
    const ids: IdSource
    var head: Fiber?
    var tail: Fiber?
    var count: nat
    var freeList: Fiber?
    ghost var Active: seq<Fiber>
    ghost var Spare: seq<Fiber>

    ghost predicate ActiveOk()
      reads this`head, this`tail, this`count, this`Active, Active`next, Active`prev
    {
      && count == |Active|
      && head == At(Active, 0) && tail == At(Active, |Active| - 1)
      && NoRepeats(Active) && Linked(Active)
    }

    ghost predicate SpareOk()
      reads this`freeList, this`Spare, Spare`next, Spare`completed, Spare`reason, Spare`fds
    {
      freeList == At(Spare, 0) && NoRepeats(Spare) && Chained(Spare) && Reusable(Spare)
    }

    ghost predicate Valid()
      reads this, ids, Active, Spare
    {
      && ids.Valid()
      && ActiveOk() && SpareOk() && Apart(Active, Spare)
      && WaitsOnly(Active) && DistinctIds(Active, ids.Issued)
    }

    constructor (ids: IdSource)
      requires ids.Valid()
      ensures Valid() && this.ids == ids && Active == [] && Spare == []
    {
      this.ids := ids;
      head, tail, count, freeList := null, null, 0, null;
      Active, Spare := [], [];
    }

    /** Put `f` last on the active list. */
    method Append(f: Fiber)
      requires ActiveOk() && f !in Active
      modifies this`head, this`tail, this`count, this`Active, f`next, f`prev, Active`next
      ensures ActiveOk() && Active == old(Active) + [f]
    {
      ghost var was := Active;
      assert was != [] ==> LinkedAt(was, |was| - 1);
      f.prev := tail;
      f.next := null;
      if tail != null {
        tail.next := f;
      } else {
        head := f;
      }
      tail := f;
      count := count + 1;
      Active := Active + [f];
      forall i | 0 <= i < |Active|
        ensures LinkedAt(Active, i)
      {
        assert i < |was| ==> old(LinkedAt(was, i));
      }
    }

    /** Take `f` off the active list, whose other fibers keep their order. */
    method Unlink(f: Fiber, ghost k: nat)
      requires ActiveOk() && k < |Active| && Active[k] == f
      modifies this`head, this`tail, this`count, this`Active, Active`next, Active`prev
      ensures ActiveOk() && Active == Without(old(Active), k)
      ensures f.next == old(f.next)
    {
      ghost var was := Active;
      WithoutKeeps(was, k);
      assert LinkedAt(was, k);
      if f.prev != null {
        f.prev.next := f.next;
      } else {
        head := f.next;
      }
      if f.next != null {
        f.next.prev := f.prev;
      } else {
        tail := f.prev;
      }
      count := count - 1;
      Active := Without(Active, k);
      forall i | 0 <= i < |Active|
        ensures LinkedAt(Active, i)
      {
        assert old(LinkedAt(was, if i < k then i else i + 1));
      }
    }

    /** Take the first spare fiber. */
    method TakeSpare() returns (f: Fiber)
      requires SpareOk() && Spare != []
      modifies this`freeList, this`Spare
      ensures SpareOk() && f == old(Spare)[0] && Spare == old(Spare)[1..] && f !in Spare
      ensures f.reason == NoReason && f.fds == 0
    {
      ghost var was := Spare;
      f := freeList;
      assert ChainedAt(was, 0);
      freeList := f.next;
      Spare := was[1..];
      forall i | 0 <= i < |Spare|
        ensures ChainedAt(Spare, i)
      {
        assert ChainedAt(was, i + 1);
      }
    }

    /** Keep `f`, which has nothing left to do, for the next request. */
    method KeepSpare(f: Fiber)
      requires SpareOk() && f !in Spare
      requires f.completed && f.reason == NoReason && f.fds == 0
      modifies this`freeList, this`Spare, f`next
      ensures SpareOk() && Spare == [f] + old(Spare)
    {
      ghost var was := Spare;
      f.next := freeList;
      freeList := f;
      Spare := [f] + was;
      forall i | 0 <= i < |Spare|
        ensures ChainedAt(Spare, i)
      {
        assert i > 0 ==> old(ChainedAt(was, i - 1));
      }
    }

    /** On neither list. */
    ghost predicate Detached(f: Fiber)
      reads this`Active, this`Spare
    {
      f !in Active && f !in Spare
    }

    method Pick() returns (f: Fiber)
      requires Valid()
      modifies this`freeList, this`Spare
      ensures Valid() && Detached(f) && f.fds == 0
      ensures if old(Spare) == [] then fresh(f) && Spare == [] else f == old(Spare)[0] && Spare == old(Spare)[1..]
    {
      if freeList != null {
        f := TakeSpare();
      } else {
        f := new Fiber();
      }
    }

    /** A detached fiber starts over under an id of its own. */
    method Renew(f: Fiber)
      requires Valid() && Detached(f) && f.fds == 0
      modifies ids, f`id, f`completed, f`reason, f`fds
      ensures Valid() && DistinctIds(Active + [f], ids.Issued)
      ensures f.id !in old(ids.Issued) && ids.Issued == old(ids.Issued) + {f.id}
      ensures !f.completed && f.reason == NoReason && f.fds == 0
    {
      f.id := ids.Take();
      f.ClearSuspend();
      f.completed := false;
    }

    method Enlist(f: Fiber)
      requires Valid() && Detached(f) && f.fds == 0
      modifies this`head, this`tail, this`count, this`Active, ids, f, Active`next
      ensures Valid() && Active == old(Active) + [f]
      ensures f.id !in old(ids.Issued) && ids.Issued == old(ids.Issued) + {f.id}
      ensures !f.completed && f.reason == NoReason && f.fds == 0
    {
      Renew(f);
      ghost var was := Active;
      Append(f);
      forall i | 0 <= i < |Spare|
        ensures ChainedAt(Spare, i)
      {
        assert old(ChainedAt(Spare, i)) && Spare[i] !in was && Spare[i] != f;
      }
    }

    method Leave(f: Fiber, ghost k: nat)
      requires Valid() && k < |Active| && Active[k] == f
      modifies this`head, this`tail, this`count, this`Active, Active`next, Active`prev
      ensures Valid() && Active == Without(old(Active), k) && Detached(f)
    {
      ghost var was := Active;
      WithoutKeeps(was, k);
      Unlink(f, k);
      forall i | 0 <= i < |Spare|
        ensures ChainedAt(Spare, i)
      {
        assert old(ChainedAt(Spare, i)) && Spare[i] !in was;
      }
      DistinctWithout(was, k, ids.Issued);
    }

    method Shelve(f: Fiber)
      requires Valid() && Detached(f) && f.completed && (f.fds != 0 ==> f.reason == IoWait)
      modifies this`freeList, this`Spare, f`next, f`reason, f`fds
      ensures Valid() && Spare == [f] + old(Spare)
    {
      f.ClearSuspend();
      KeepSpare(f);
    }

    /** Take a fiber for a new request: a spare one before a new one. */
    method Create() returns (f: Fiber)
      requires Valid()
      modifies this, ids, Active, Spare
      ensures Valid() && Active == old(Active) + [f]
      ensures if old(Spare) == [] then fresh(f) && Spare == [] else f == old(Spare)[0] && Spare == old(Spare)[1..]
      ensures f.id !in old(ids.Issued) && ids.Issued == old(ids.Issued) + {f.id}
      ensures !f.completed && f.reason == NoReason && f.fds == 0
      ensures forall g :: g in old(Active) ==> g.id == old(g.id) && g.completed == old(g.completed) && g.reason == old(g.reason)
    {
      f := Pick();
      Enlist(f);
    }

    /** Take a fiber for a task, or say that the worker has no room for one. */
    method Spawn() returns (r: Option<Fiber>)
      requires Valid()
      modifies this, ids, Active, Spare
      ensures Valid()
      ensures r.None? <==> |old(Active)| >= MAX_FIBERS
      ensures r.None? ==> Active == old(Active) && Spare == old(Spare) && ids.Issued == old(ids.Issued)
      ensures r.Some? ==> Active == old(Active) + [r.value] && |Active| <= MAX_FIBERS
      ensures r.Some? ==> r.value.id !in old(ids.Issued) && !r.value.completed && !r.value.cancelRequested
    {
      if count >= MAX_FIBERS {
        return None;
      }
      var f := Create();
      f.cancelRequested := false;
      r := Some(f);
    }

    /** The request or task on `f` is over: off the active list, onto the spare one. */
    method Retire(f: Fiber, ghost k: nat)
      requires Valid() && k < |Active| && Active[k] == f && f.completed
      modifies this, Active, Spare
      ensures Valid() && Active == Without(old(Active), k) && Spare == [f] + old(Spare)
      ensures ids.Issued == old(ids.Issued)
      ensures forall g :: g in old(Active) ==> g.id == old(g.id) && g.completed == old(g.completed)
      ensures forall g :: g in Active ==> g.reason == old(g.reason) && g.fds == old(g.fds)
    {
      Leave(f, k);
      Shelve(f);
    }

    /** Where a fiber stands in the active list. */
    ghost predicate StandsAt(f: Fiber, k: nat)
      reads this`Active
    {
      k < |Active| && Active[k] == f
    }

    /** Walk the active list for an id. */
    method Find(id: nat) returns (f: Fiber?, ghost k: nat)
      requires Valid()
      ensures f == null ==> forall i :: 0 <= i < |Active| ==> Active[i].id != id
      ensures f != null ==> StandsAt(f, k) && f.id == id
    {
      k := 0;
      f := head;
      while f != null && f.id != id
        invariant k <= |Active| && f == At(Active, k)
        invariant forall i :: 0 <= i < k ==> Active[i].id != id
        decreases |Active| - k
      {
        assert LinkedAt(Active, k);
        f := f.next;
        k := k + 1;
      }
    }

    /** The first finished task, in the order in which they were spawned. */
    method PollCompleted() returns (r: Option<nat>)
      requires Valid()
      ensures r.None? <==> forall i :: 0 <= i < |Active| ==> !Active[i].completed
      ensures r.Some? ==> exists k ::
        && 0 <= k < |Active| && Active[k].completed && Active[k].id == r.value
        && forall i :: 0 <= i < k ==> !Active[i].completed
    {
      ghost var k := 0;
      var f := head;
      while f != null
        invariant 0 <= k <= |Active| && f == At(Active, k)
        invariant forall i :: 0 <= i < k ==> !Active[i].completed
        decreases |Active| - k
      {
        if f.completed {
          return Some(f.id);
        }
        assert LinkedAt(Active, k);
        f := f.next;
        k := k + 1;
      }
      r := None;
    }

    /** Hand a finished task's fiber back. An id that names no active fiber, or
        one whose task is not over, changes nothing. */
    method Release(id: nat) returns (f: Fiber?, ghost k: nat)
      requires Valid()
      modifies this, Active, Spare
      ensures Valid() && ids.Issued == old(ids.Issued)
      ensures f == null <==> forall g :: g in old(Active) ==> g.id != id || !old(g.completed)
      ensures f == null ==> Active == old(Active) && Spare == old(Spare)
      ensures f != null ==> k < |old(Active)| && f == old(Active)[k] && old(f.id) == id
      ensures f != null ==> Active == Without(old(Active), k) && Spare == [f] + old(Spare)
    {
      f, k := Find(id);
      if f == null {
        return;
      }
      if !f.completed {
        f := null;
        return;
      }
      Retire(f, k);
    }

    /** Ask a task to stop: known iff it is still active, and no other is asked. */
    method Cancel(id: nat) returns (known: bool)
      requires Valid()
      modifies Active`cancelRequested
      ensures Valid()
      ensures known <==> exists g :: g in Active && g.id == id
      ensures forall g :: g in Active ==> g.cancelRequested == (old(g.cancelRequested) || g.id == id)
    {
      ghost var k;
      var f: Fiber?;
      f, k := Find(id);
      known := f != null;
      if f != null {
        f.cancelRequested := true;
      }
    }

    /** A slice of `f` ends: it parks, on descriptors or otherwise, or its code is over. */
    method EndSlice(f: Fiber, reason: Reason, fds: nat, over: bool)
      requires Valid() && f in Active
      requires fds != 0 ==> reason == IoWait
      modifies f`reason, f`fds, f`completed
      ensures Valid() && f.reason == reason && f.fds == fds && f.completed == over
    {
      f.reason, f.fds, f.completed := reason, fds, over;
    }

    // ─── Teardown ─────────────────────────────────────────

    /** Free the fibers of the active list from the head. Each is freed once,
        and no fiber is read after it was freed. */
    method FreeActive() returns (freed: seq<Fiber>)
      requires ActiveOk() && WaitsOnly(Active)
      modifies Active`reason, Active`fds
      ensures freed == Active
      ensures forall f :: f in Active ==> f.reason == NoReason && f.fds == 0
    {
      freed := [];
      var f := head;
      while f != null
        invariant |freed| <= |Active| && freed == Active[..|freed|] && f == At(Active, |freed|)
        invariant WaitsOnly(Active)
        invariant forall g :: g in freed ==> g.reason == NoReason && g.fds == 0
        decreases |Active| - |freed|
      {
        assert LinkedAt(Active, |freed|);
        assert f !in freed;
        var next := f.next;
        f.ClearSuspend();
        freed := freed + [f];
        f := next;
      }
    }

    method FreeSpare() returns (freed: seq<Fiber>)
      requires SpareOk()
      ensures freed == Spare
    {
      freed := [];
      var f := freeList;
      while f != null
        invariant |freed| <= |Spare| && freed == Spare[..|freed|] && f == At(Spare, |freed|)
        decreases |Spare| - |freed|
      {
        assert ChainedAt(Spare, |freed|);
        assert f !in freed;
        var next := f.next;
        freed := freed + [f];
        f := next;
      }
    }

    method FreeLists() returns (freed: seq<Fiber>)
      requires Valid()
      modifies this, Active`reason, Active`fds
      ensures head == null && tail == null && freeList == null && count == 0 && Active == [] && Spare == []
      ensures freed == old(Active) + old(Spare)
      ensures forall f :: f in freed ==> f.reason == NoReason && f.fds == 0
    {
      var active := FreeActive();
      var spare := FreeSpare();
      freed := active + spare;
      head, tail, freeList, count := null, null, null, 0;
      Active, Spare := [], [];
    }

    /** The request parked with its session open is torn down ahead of the list. */
    method FreeHolder(holder: Fiber, ghost k: nat)
      requires Valid() && StandsAt(holder, k)
      modifies this`head, this`tail, this`count, this`Active, Active`next, Active`prev, holder`reason, holder`fds
      ensures Valid() && Active == Without(old(Active), k) && Detached(holder)
      ensures holder.reason == NoReason && holder.fds == 0
    {
      Leave(holder, k);
      holder.ClearSuspend();
    }

    /** Free every fiber of both lists once each: the one parked with its session
        open first, then the other active ones, then the spare ones. */
    method Destroy(holder: Fiber?, ghost k: nat) returns (freed: seq<Fiber>)
      requires Valid() && (holder != null ==> StandsAt(holder, k))
      modifies this, Active
      ensures head == null && tail == null && freeList == null && count == 0 && Active == [] && Spare == []
      ensures freed == TeardownOrder(holder != null, k, old(Active), old(Spare))
      ensures forall f :: f in freed ==> f.reason == NoReason && f.fds == 0
    {
      if holder == null {
        freed := FreeLists();
      } else {
        FreeHolder(holder, k);
        var rest := FreeLists();
        freed := [holder] + rest;
      }
    }
  }
}
