/**
 Loops that user code can feed: discarding an exception whose destructor throws
 another, closing handles whose filters run PHP, and refusing a fiber that keeps
 suspending itself. User code is a function or a sequence the loop is handed, and
 may answer anything.
 */
module Drains {
  import opened Basics

  // ─── Discarding an exception ──────────────────────────────

  type Exception = nat

  const DRAIN_LIMIT: nat := 16

  /** What stands in the slot at turn `t`: `throws(t)` is what clearing turn `t`'s leaves there. */
  function Standing(first: Option<Exception>, throws: nat -> Option<Exception>, t: nat): Option<Exception> {
    if t == 0 then first else throws(t - 1)
  }

  /** The slot always ends empty. The exceptions before the first empty turn are
      cleared and their destructors run, sixteen of them at most; only a chain that
      outlasts those has its seventeenth dropped with its destructor refused. */
  method Discard(first: Option<Exception>, throws: nat -> Option<Exception>)
    returns (slot: Option<Exception>, cleared: seq<Exception>, refused: Option<Exception>)
    ensures slot.None?
    ensures |cleared| <= 16
    ensures forall t :: 0 <= t < |cleared| ==> Standing(first, throws, t) == Some(cleared[t])
    ensures refused.None? ==> Standing(first, throws, |cleared|).None?
    ensures refused.Some? <==> forall t :: 0 <= t <= 16 ==> Standing(first, throws, t).Some?
    ensures refused.Some? ==> |cleared| == 16 && refused == Standing(first, throws, 16)
  {
    slot, cleared, refused := first, [], None;
    while slot.Some?
      invariant slot == Standing(first, throws, |cleared|) && |cleared| <= DRAIN_LIMIT
      invariant forall t :: 0 <= t < |cleared| ==> Standing(first, throws, t) == Some(cleared[t])
      decreases DRAIN_LIMIT - |cleared|, slot.Some?
    {
      if |cleared| >= DRAIN_LIMIT {
        refused := slot;
        slot := None;
        return;
      }
      var e := slot.value;
      slot := throws(|cleared|);
      cleared := cleared + [e];
    }
  }

  // ─── Closing php://input handles ──────────────────────────

  /** A resource: the body it reads through if it is an open php://input handle. */
  datatype Resource = Resource(input: Option<nat>, kept: bool)

  predicate Closable(r: Resource, body: nat) {
    r.input == Some(body) && !r.kept
  }

  predicate NoneClosable(rs: seq<Resource>, body: nat) {
    forall i :: 0 <= i < |rs| ==> !Closable(rs[i], body)
  }

  /** What closing entry `i` leaves of the table: the close runs PHP. */
  type UserCode = (nat, seq<Resource>, nat) -> seq<Resource>

  /** Every close leaves fewer closable handles than it found, whatever else it opens,
      closes or removes. */
  ghost predicate Progresses(user: UserCode, body: nat) {
    forall turn, rs, i :: 0 <= i < |rs| && Closable(rs[i], body) ==>
      ClosableCount(user(turn, rs, i), body) < ClosableCount(rs, body)
  }

  /** A close that retires its handle in place, with nothing that becomes closable by it. */
  predicate RetiresAt(before: seq<Resource>, i: nat, after: seq<Resource>, body: nat)
    requires i < |before|
  {
    && |after| == |before| && !Closable(after[i], body)
    && forall j :: 0 <= j < |before| && Closable(after[j], body) ==> Closable(before[j], body)
  }

  ghost predicate Retires(user: UserCode, body: nat) {
    forall turn, rs, i :: 0 <= i < |rs| && Closable(rs[i], body) ==> RetiresAt(rs, i, user(turn, rs, i), body)
  }

  function ClosableCount(rs: seq<Resource>, body: nat): nat {
    if rs == [] then 0
    else ClosableCount(rs[..|rs| - 1], body) + (if Closable(rs[|rs| - 1], body) then 1 else 0)
  }

  lemma {:induction false} CountAtMostSize(rs: seq<Resource>, body: nat)
    ensures ClosableCount(rs, body) <= |rs|
    ensures ClosableCount(rs, body) == 0 ==> NoneClosable(rs, body)
  {
    if rs != [] {
      CountAtMostSize(rs[..|rs| - 1], body);
    }
  }

  lemma {:induction false} CountOnlyFalls(before: seq<Resource>, after: seq<Resource>, body: nat)
    requires |after| == |before|
    requires forall j :: 0 <= j < |before| && Closable(after[j], body) ==> Closable(before[j], body)
    ensures ClosableCount(after, body) <= ClosableCount(before, body)
  {
    if before != [] {
      CountOnlyFalls(before[..|before| - 1], after[..|before| - 1], body);
    }
  }

  lemma {:induction false} RetiringLowers(before: seq<Resource>, i: nat, after: seq<Resource>, body: nat)
    requires i < |before| && Closable(before[i], body) && RetiresAt(before, i, after, body)
    ensures ClosableCount(after, body) < ClosableCount(before, body)
  {
    var n := |before| - 1;
    if i < n {
      RetiringLowers(before[..n], i, after[..n], body);
    } else {
      CountOnlyFalls(before[..n], after[..n], body);
    }
  }

  /** Retiring its own handle and opening no other on the same body is such progress. */
  lemma RetiringProgresses(user: UserCode, body: nat)
    requires Retires(user, body)
    ensures Progresses(user, body)
  {
    forall turn, rs, i | 0 <= i < |rs| && Closable(rs[i], body)
      ensures ClosableCount(user(turn, rs, i), body) < ClosableCount(rs, body)
    {
      RetiringLowers(rs, i, user(turn, rs, i), body);
    }
  }

  /** The first closable handle. */
  method FindClosable(rs: seq<Resource>, body: nat) returns (i: nat)
    ensures i <= |rs| && forall j :: 0 <= j < i ==> !Closable(rs[j], body)
    ensures i < |rs| ==> Closable(rs[i], body)
  {
    i := 0;
    while i < |rs| && !(rs[i].input == Some(body) && !rs[i].kept)
      invariant i <= |rs| && forall j :: 0 <= j < i ==> !Closable(rs[j], body)
    {
      i := i + 1;
    }
  }

  /** One close a pass, and then from the start: whatever the closes do, there are at
      most as many as there were entries, and one more; and if each makes progress, no
      closable handle is left. */
  method CloseInputs(rs: seq<Resource>, body: nat, user: UserCode) returns (left: seq<Resource>, closes: nat)
    ensures closes <= |rs| + 1
    ensures Progresses(user, body) ==> NoneClosable(left, body) && closes <= ClosableCount(rs, body)
    ensures NoneClosable(rs, body) ==> left == rs && closes == 0
  {
    left, closes := rs, 0;
    var passesLeft: nat := |rs| + 1;
    var restart := true;
    CountAtMostSize(rs, body);
    while restart && passesLeft > 0
      invariant closes + passesLeft + (if restart then 0 else 1) == |rs| + 1
      invariant !restart ==> NoneClosable(left, body)
      invariant closes == 0 ==> left == rs
      invariant NoneClosable(rs, body) ==> closes == 0
      invariant Progresses(user, body) ==> ClosableCount(left, body) + closes <= ClosableCount(rs, body)
      decreases passesLeft
    {
      passesLeft := passesLeft - 1;
      restart := false;
      var i := FindClosable(left, body);
      if i < |left| {
        left := user(closes, left, i);
        closes := closes + 1;
        restart := true;
      }
    }
  }

  // ─── Refusing to be suspended ─────────────────────────────

  const MAX_REFUSALS: nat := 32

  /** Where a fiber is after it ran. */
  datatype Fiber = Fiber(completed: bool, hasReason: bool, suspended: bool)

  /** Suspended by itself, with nothing to wait for: nobody would ever resume it. */
  predicate Stranded(f: Fiber) {
    !f.completed && !f.hasReason && f.suspended
  }

  /** The fiber at its `t`-th stop: `stops[t]` is what the `t`-th resume comes back with. */
  function StopAt(first: Fiber, stops: seq<Fiber>, t: nat): Fiber
    requires t <= |stops|
  {
    if t == 0 then first else stops[t - 1]
  }

  /** The first stop at which the fiber is not stranded. */
  predicate FirstStop(first: Fiber, stops: seq<Fiber>, t: nat) {
    && t <= |stops| && !Stranded(StopAt(first, stops, t))
    && forall u :: 0 <= u < t ==> Stranded(StopAt(first, stops, u))
  }

  /** One no longer suspended never reached the loop's own end, and is marked completed. */
  function Settled(f: Fiber): Fiber {
    if f.suspended then f else f.(completed := true)
  }

  predicate EndedAt(first: Fiber, stops: seq<Fiber>, f: Fiber) {
    exists t :: 32 < t <= |stops| && FirstStop(first, stops, t) && f == Settled(StopAt(first, stops, t))
  }

  datatype Entered = Spinning | Returned(fiber: Fiber, refusals: nat, ended: bool)

  /** Refused thirty-two times, then ended until it stops suspending itself. The loop
      comes back exactly if the fiber ever does, and then it is not stranded; it is
      marked as failed exactly if it outlasted the refusals. */
  method Enter(first: Fiber, stops: seq<Fiber>) returns (r: Entered)
    ensures r.Spinning? <==> forall t :: 0 <= t <= |stops| ==> Stranded(StopAt(first, stops, t))
    ensures r.Returned? ==> !Stranded(r.fiber) && r.refusals <= 32
    ensures r.Returned? && !r.ended ==> FirstStop(first, stops, r.refusals) && r.fiber == StopAt(first, stops, r.refusals)
    ensures r.Returned? && r.ended ==> r.refusals == 32 && EndedAt(first, stops, r.fiber)
  {
    var f := first;
    var refusals: nat := 0;
    while Stranded(f)
      invariant refusals <= MAX_REFUSALS && refusals <= |stops| && f == StopAt(first, stops, refusals)
      invariant forall t :: 0 <= t < refusals ==> Stranded(StopAt(first, stops, t))
      decreases MAX_REFUSALS - refusals
    {
      if refusals == MAX_REFUSALS {
        r := EndAfterRefusals(first, stops);
        return;
      }
      if refusals == |stops| {
        return Spinning;
      }
      f := stops[refusals];
      refusals := refusals + 1;
    }
    r := Returned(f, refusals, false);
  }

  method EndAfterRefusals(first: Fiber, stops: seq<Fiber>) returns (r: Entered)
    requires MAX_REFUSALS <= |stops|
    requires forall t :: 0 <= t <= MAX_REFUSALS ==> Stranded(StopAt(first, stops, t))
    ensures r.Spinning? <==> forall t :: 0 <= t <= |stops| ==> Stranded(StopAt(first, stops, t))
    ensures r.Returned? ==> !Stranded(r.fiber) && r.refusals == 32 && r.ended && EndedAt(first, stops, r.fiber)
  {
    var t := MAX_REFUSALS;
    var g := StopAt(first, stops, t);
    while true
      invariant MAX_REFUSALS <= t <= |stops|
      invariant forall u :: 0 <= u <= t ==> Stranded(StopAt(first, stops, u))
      decreases |stops| - t
    {
      if t == |stops| {
        return Spinning;
      }
      g := stops[t];
      t := t + 1;
      assert g == StopAt(first, stops, t);
      if !Stranded(g) {
        break;
      }
    }
    assert FirstStop(first, stops, t);
    if !g.suspended {
      g := g.(completed := true);
    }
    r := Returned(g, MAX_REFUSALS, true);
  }
}
