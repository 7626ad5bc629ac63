/**
 The session slot of a worker: one request at a time has its session open, and
 the requests that want one wait in a line of numbered places.

 The steps below are what the scheduler and `session_start()` do; what a
 request does between them is left open.
 */
module SessionSlot {
  import opened Basics

  type Fiber = nat

  datatype State = State(
    places: map<Fiber, nat>,       // the active fibers; 0 for one that does not wait
    holder: Option<Fiber>,
    waiters: int,
    next: nat,                     // the last place handed out
    running: Option<Fiber>,        // whose slice is on the thread
    open: bool,                    // a session is open on the thread
    lifted: set<Fiber>             // parked with their session open
  )

  datatype Step =
    | Admit(fiber: Fiber)
    | Resume(fiber: Fiber)
    | Open                         // session_start() went through
    | Barge                        // it went through ahead of the line, from where it cannot wait
    | Close
    | WaitBegin                    // it has to wait
    | WaitOpen                     // the turn of one that waits: its place given back, its session opened
    | WaitEnd                      // the wait is over without a session
    | Park
    | Finish
    | GapOpen                      // a session opened by code outside any request

  function Init(): State {
    State(map[], None, 0, 0, None, false, {})
  }

  // ─── The source's questions and moves ───────────────────

  ghost predicate EarlierWaits(s: State, self: Fiber)
    requires self in s.places
  {
    exists f :: f in s.places && Earlier(s.places, f, self)
  }

  predicate Earlier(places: map<Fiber, nat>, f: Fiber, self: Fiber)
    requires f in places && self in places
  {
    f != self && places[f] != 0 && (places[self] == 0 || places[f] < places[self])
  }

  predicate HeldByOther(s: State, self: Fiber) {
    s.holder.Some? && s.holder.value != self
  }

  /** Whether `self` may not start a session yet, by the shortcuts the source takes. */
  ghost predicate WaitNeeded(s: State, self: Fiber)
    requires self in s.places
  {
    if s.open then false
    else if HeldByOther(s, self) then true
    else if s.waiters == (if s.places[self] != 0 then 1 else 0) then false
    else EarlierWaits(s, self)
  }

  function WaitBegun(s: State, self: Fiber): (r: State)
    requires self in s.places
  {
    if s.places[self] != 0 then s
    else s.(places := s.places[self := s.next + 1], waiters := s.waiters + 1, next := s.next + 1)
  }

  function WaitEnded(s: State, self: Fiber): (r: State)
    requires self in s.places
  {
    if s.places[self] == 0 then s
    else s.(places := s.places[self := 0], waiters := s.waiters - 1)
  }

  /** The end of a slice: an open session leaves with its request, which holds the slot from then on. */
  function AfterSlice(s: State, fiber: Fiber, completed: bool): (r: State)
    requires fiber in s.places
  {
    var t := if completed then WaitEnded(s, fiber) else s;
    if !completed && s.open then
      t.(lifted := t.lifted + {fiber}, holder := Some(fiber), open := false, running := None)
    else
      t.(holder := if t.holder == Some(fiber) then None else t.holder, open := false, running := None)
  }

  /** The slice over, and the request off the active list if it is over too. */
  function Left(s: State, fiber: Fiber, completed: bool): (r: State)
    requires fiber in s.places
  {
    var t := AfterSlice(s, fiber, completed);
    if completed then t.(places := t.places - {fiber}) else t
  }

  ghost predicate Enabled(s: State, step: Step) {
    match step
    case Admit(f) => s.running == None && s.holder == None && f !in s.places
    case Resume(f) => s.running == None && f in s.places
    case Open => s.running.Some? && s.running.value in s.places && !WaitNeeded(s, s.running.value)
    case Barge => s.running.Some? && s.running.value in s.places && !HeldByOther(s, s.running.value)
    case WaitBegin => s.running.Some? && s.running.value in s.places && WaitNeeded(s, s.running.value)
    case WaitOpen =>
      && s.running.Some? && s.running.value in s.places
      && s.places[s.running.value] != 0 && !WaitNeeded(s, s.running.value)
    case GapOpen => s.running == None
    case _ => s.running.Some? && s.running.value in s.places
  }

  /** A step that is not enabled is not taken. */
  ghost function Do(s: State, step: Step): (r: State) {
    if !Enabled(s, step) then s else
    match step
    case Admit(f) => s.(places := s.places[f := 0], running := Some(f), open := false)
    case Resume(f) => s.(running := Some(f), open := f in s.lifted, lifted := s.lifted - {f})
    case Open => s.(open := true)
    case Barge => s.(open := true)
    case Close => s.(open := false)
    case WaitBegin => WaitBegun(s, s.running.value)
    case WaitOpen => WaitEnded(s, s.running.value).(open := true)
    case WaitEnd => WaitEnded(s, s.running.value)
    case Park => Left(s, s.running.value, false)
    case Finish => Left(s, s.running.value, true)
    case GapOpen => s.(open := true)
  }

  // ─── What every run keeps ───────────────────────────────

  ghost function Line(places: map<Fiber, nat>): (r: set<Fiber>) {
    set f | f in places && places[f] != 0
  }

  ghost predicate PlacesInv(s: State) {
    && s.waiters == |Line(s.places)|
    && (forall f :: f in s.places ==> s.places[f] <= s.next)
    && (forall f, g :: f in s.places && g in s.places && s.places[f] == s.places[g] != 0 ==> f == g)
  }

  /** The slot is held exactly while a request is parked with its session open,
      or still runs the slice in which it came back with it. */
  ghost predicate SlotInv(s: State) {
    && s.lifted <= s.places.Keys
    && (s.running.Some? ==> s.running.value in s.places)
    && (match s.holder
        case None => s.lifted == {}
        case Some(h) => h in s.places && s.lifted == if s.running == Some(h) then {} else {h})
    && (s.open && s.running.Some? ==> s.lifted == {})
  }

  ghost predicate Inv(s: State) {
    PlacesInv(s) && SlotInv(s)
  }

  /** The requests of the worker whose session is open, on the thread or off it. */
  ghost function OpenRequests(s: State): (r: set<Fiber>) {
    s.lifted + if s.open && s.running.Some? then {s.running.value} else {}
  }

  lemma BeginKeepsPlaces(s: State, f: Fiber)
    requires PlacesInv(s) && f in s.places
    ensures PlacesInv(WaitBegun(s, f))
  {
    var t := WaitBegun(s, f);
    if s.places[f] == 0 {
      assert Line(t.places) == Line(s.places) + {f};
    }
  }

  lemma EndKeepsPlaces(s: State, f: Fiber)
    requires PlacesInv(s) && f in s.places
    ensures PlacesInv(WaitEnded(s, f)) && WaitEnded(s, f).places[f] == 0
  {
    var t := WaitEnded(s, f);
    if s.places[f] != 0 {
      assert f in Line(s.places);
      assert Line(t.places) == Line(s.places) - {f};
    }
  }

  lemma StepKeepsPlaces(s: State, step: Step)
    requires PlacesInv(s)
    ensures PlacesInv(Do(s, step))
  {
    if !Enabled(s, step) { return; }
    match step
    case Admit(f) => assert Line(Do(s, step).places) == Line(s.places);
    case WaitBegin => BeginKeepsPlaces(s, s.running.value);
    case WaitOpen => EndKeepsPlaces(s, s.running.value);
    case WaitEnd => EndKeepsPlaces(s, s.running.value);
    case Finish =>
      EndKeepsPlaces(s, s.running.value);
      assert Line(Do(s, step).places) == Line(WaitEnded(s, s.running.value).places);
    case _ =>
  }

  lemma OpenInTurnIs(s: State, f: Fiber)
    requires Inv(s) && s.running == Some(f) && s.places[f] != 0 && !WaitNeeded(s, f)
    ensures Do(s, WaitOpen) == WaitEnded(s, f).(open := true) && Inv(WaitEnded(s, f).(open := true))
  {
    StepKeepsInv(s, WaitOpen);
  }

  lemma AfterSliceKeepsInv(s: State, f: Fiber, completed: bool)
    requires Inv(s) && s.running == Some(f)
    ensures Inv(AfterSlice(s, f, completed))
  {
    EndKeepsPlaces(s, f);
  }

  lemma StepKeepsSlot(s: State, step: Step)
    requires SlotInv(s)
    ensures SlotInv(Do(s, step))
  {
  }

  lemma StepKeepsInv(s: State, step: Step)
    requires Inv(s)
    ensures Inv(Do(s, step))
  {
    StepKeepsPlaces(s, step);
    StepKeepsSlot(s, step);
  }

  ghost function After(s: State, steps: seq<Step>): (r: State) {
    if steps == [] then s else Do(After(s, steps[..|steps| - 1]), steps[|steps| - 1])
  }

  lemma {:induction false} RunKeepsInv(s: State, steps: seq<Step>)
    requires Inv(s)
    ensures Inv(After(s, steps))
  {
    if steps != [] {
      RunKeepsInv(s, steps[..|steps| - 1]);
      StepKeepsInv(After(s, steps[..|steps| - 1]), steps[|steps| - 1]);
    }
  }

  /** In every run from an empty worker at most one request has its session
      open, the waiter count is the length of the line and places are distinct. */
  lemma OneSessionAtATime(steps: seq<Step>)
    ensures var s := After(Init(), steps);
      && |OpenRequests(s)| <= 1
      && s.waiters == |Line(s.places)|
      && (forall f, g :: f in Line(s.places) && g in Line(s.places) && s.places[f] == s.places[g] ==> f == g)
      && (s.running == None ==> s.lifted == if s.holder.Some? then {s.holder.value} else {})
  {
    RunKeepsInv(Init(), steps);
  }

  /** The shortcuts decide the right question: a request waits exactly while
      another holds the slot or somebody stands ahead of it in line. */
  lemma WaitNeededMeans(s: State, self: Fiber)
    requires Inv(s) && self in s.places
    ensures WaitNeeded(s, self) <==> !s.open && (HeldByOther(s, self) || EarlierWaits(s, self))
  {
    if s.waiters == (if s.places[self] != 0 then 1 else 0) && EarlierWaits(s, self) {
      var f :| f in s.places && Earlier(s.places, f, self);
      var seen := if s.places[self] != 0 then {f, self} else {f};
      assert seen <= Line(s.places);
      SubsetSize(seen, Line(s.places));
    }
  }

  /** `f` stands behind `g`: it has no place, or a later one. */
  ghost predicate Behind(s: State, f: Fiber, g: Fiber) {
    && f != g && g in s.places && s.places[g] != 0
    && (f in s.places ==> s.places[f] == 0 || s.places[f] > s.places[g])
  }

  ghost predicate Opens(s: State, step: Step, f: Fiber) {
    (step == Open || step == WaitOpen || step == Barge) && Enabled(s, step) && s.running == Some(f) && !s.open
  }

  /** `f` goes past the line: it starts a session from where it cannot wait, with no
      session open on the thread and no other request holding the slot. */
  predicate GoesPast(s: State, step: Step, f: Fiber) {
    step == Barge && s.running == Some(f) && !s.open && (s.holder == None || s.holder == Some(f))
  }

  lemma BehindLasts(s: State, step: Step, f: Fiber, g: Fiber)
    requires Inv(s) && Behind(s, f, g) && KeepsPlace(s, Do(s, step), g)
    ensures Behind(Do(s, step), f, g) && (Opens(s, step, f) <==> GoesPast(s, step, f))
  {
    if (step == Open || step == WaitOpen) && s.running == Some(f) {
      WaitNeededMeans(s, f);
      if !s.open {
        assert Earlier(s.places, g, f);
      }
    }
  }

  /** Parked, and not resumed since, with its session open or not. */
  ghost predicate Away(s: State, f: Fiber, open: bool) {
    s.running != Some(f) && f in s.places && (f in s.lifted <==> open)
  }

  lemma {:induction false} StaysAway(s: State, steps: seq<Step>, f: Fiber, open: bool)
    requires Away(s, f, open) && Resume(f) !in steps
    ensures Away(After(s, steps), f, open)
  {
    if steps != [] {
      StaysAway(s, steps[..|steps| - 1], f, open);
      assert steps[|steps| - 1] in steps;
    }
  }

  /** Whatever runs between, a request has its session open as it resumes exactly if it
      was open as it parked, and holds the slot all the while. */
  lemma SessionReturns(s: State, f: Fiber, between: seq<Step>)
    requires Inv(s) && s.running == Some(f) && Resume(f) !in between
    requires Enabled(After(Do(s, Park), between), Resume(f))
    ensures var t := After(Do(s, Park), between);
            (Do(t, Resume(f)).open <==> s.open) && (t.holder == Some(f) <==> s.open)
  {
    StepKeepsInv(s, Park);
    RunKeepsInv(Do(s, Park), between);
    StaysAway(Do(s, Park), between, f, s.open);
  }

  ghost predicate KeptThroughout(s: State, steps: seq<Step>, g: Fiber) {
    forall j :: 0 <= j <= |steps| ==> KeepsPlace(s, After(s, steps[..j]), g)
  }

  lemma {:induction false} BehindAt(s: State, steps: seq<Step>, f: Fiber, g: Fiber, i: nat)
    requires Inv(s) && Behind(s, f, g) && KeptThroughout(s, steps, g) && i <= |steps|
    ensures Inv(After(s, steps[..i])) && Behind(After(s, steps[..i]), f, g)
    ensures i < |steps| ==> KeepsPlace(After(s, steps[..i]), Do(After(s, steps[..i]), steps[i]), g)
  {
    assert KeepsPlace(s, After(s, steps[..i]), g);
    if i < |steps| {
      assert steps[..i + 1][..i] == steps[..i];
      assert KeepsPlace(s, After(s, steps[..i + 1]), g);
    }
    if i > 0 {
      var before := After(s, steps[..i - 1]);
      BehindAt(s, steps, f, g, i - 1);
      assert steps[..i][..i - 1] == steps[..i - 1];
      BehindLasts(before, steps[i - 1], f, g);
      StepKeepsInv(before, steps[i - 1]);
    }
  }

  /** For as long as `g` keeps its place, over every run, a request behind it opens its
      session exactly at the steps at which it goes past the line; whoever else does, one
      that never does waits its turn. */
  lemma OvertakesIff(s: State, steps: seq<Step>, f: Fiber, g: Fiber, i: nat)
    requires Inv(s) && Behind(s, f, g) && KeptThroughout(s, steps, g) && i < |steps|
    ensures Opens(After(s, steps[..i]), steps[i], f) <==> GoesPast(After(s, steps[..i]), steps[i], f)
  {
    BehindAt(s, steps, f, g, i);
    BehindLasts(After(s, steps[..i]), steps[i], f, g);
  }

  ghost predicate KeepsPlace(s: State, t: State, g: Fiber) {
    g in s.places && g in t.places && t.places[g] == s.places[g]
  }

  /** A run of an empty worker in which a request that has closed its session starts
      another from where it cannot wait, past the one that waits for it. */
  lemma BargingOvertakes()
    ensures var s := After(Init(), [Admit(1), Park] + [Admit(2), Open, Park] + [Resume(1), WaitBegin, Park]
                                   + [Resume(2), Close] + [WaitBegin, WaitEnd]);
            Inv(s) && Behind(s, 2, 1) && 2 in s.places && WaitNeeded(s, 2) && Opens(s, Barge, 2)
  {
    RunKeepsInv(Init(), [Admit(1), Park] + [Admit(2), Open, Park] + [Resume(1), WaitBegin, Park]
                        + [Resume(2), Close] + [WaitBegin, WaitEnd]);
    OvertakingRun();
    var s := State(map[1 := 1, 2 := 0], Some(2), 1, 2, Some(2), false, {});
    assert Earlier(s.places, 1, 2);
  }

  lemma OvertakingRun()
    ensures After(Init(), [Admit(1), Park] + [Admit(2), Open, Park] + [Resume(1), WaitBegin, Park]
                          + [Resume(2), Close] + [WaitBegin, WaitEnd])
         == State(map[1 := 1, 2 := 0], Some(2), 1, 2, Some(2), false, {})
  {
    var a, b, c := [Admit(1), Park], [Admit(2), Open, Park], [Resume(1), WaitBegin, Park];
    var d, e := [Resume(2), Close], [WaitBegin, WaitEnd];
    RunConcat(Init(), a, b);
    RunConcat(Init(), a + b, c);
    RunConcat(Init(), a + b + c, d);
    RunConcat(Init(), a + b + c + d, e);
    FirstParks();
    SecondParksOpen();
    FirstWaits();
    SecondCloses();
    SecondCannotWait();
  }

  lemma FirstParks()
    ensures After(Init(), [Admit(1), Park]) == State(map[1 := 0], None, 0, 0, None, false, {})
  {
    AfterTwo(Init(), Admit(1), Park);
  }

  lemma SecondParksOpen()
    ensures After(State(map[1 := 0], None, 0, 0, None, false, {}), [Admit(2), Open, Park])
         == State(map[1 := 0, 2 := 0], Some(2), 0, 0, None, false, {2})
  {
    var s := State(map[1 := 0], None, 0, 0, None, false, {});
    AfterTwo(s, Admit(2), Open);
    AfterSnoc(s, [Admit(2), Open], Park);
    assert [Admit(2), Open] + [Park] == [Admit(2), Open, Park];
  }

  lemma FirstWaits()
    ensures After(State(map[1 := 0, 2 := 0], Some(2), 0, 0, None, false, {2}), [Resume(1), WaitBegin, Park])
         == State(map[1 := 1, 2 := 0], Some(2), 1, 1, None, false, {2})
  {
    var s := State(map[1 := 0, 2 := 0], Some(2), 0, 0, None, false, {2});
    AfterTwo(s, Resume(1), WaitBegin);
    AfterSnoc(s, [Resume(1), WaitBegin], Park);
    assert [Resume(1), WaitBegin] + [Park] == [Resume(1), WaitBegin, Park];
  }

  lemma SecondCloses()
    ensures After(State(map[1 := 1, 2 := 0], Some(2), 1, 1, None, false, {2}), [Resume(2), Close])
         == State(map[1 := 1, 2 := 0], Some(2), 1, 1, Some(2), false, {})
  {
    AfterTwo(State(map[1 := 1, 2 := 0], Some(2), 1, 1, None, false, {2}), Resume(2), Close);
  }

  lemma SecondCannotWait()
    ensures After(State(map[1 := 1, 2 := 0], Some(2), 1, 1, Some(2), false, {}), [WaitBegin, WaitEnd])
         == State(map[1 := 1, 2 := 0], Some(2), 1, 2, Some(2), false, {})
  {
    var s := State(map[1 := 1, 2 := 0], Some(2), 1, 1, Some(2), false, {});
    AfterTwo(s, WaitBegin, WaitEnd);
    assert Earlier(s.places, 1, 2);
    assert Do(s, WaitBegin) == s.(places := s.places[2 := 2], waiters := 2, next := 2);
    assert s.places[2 := 2][2 := 0] == s.places;
  }

  lemma AfterOne(s: State, a: Step)
    ensures After(s, [a]) == Do(s, a)
  {
    assert [a] == [] + [a];
    AfterSnoc(s, [], a);
  }

  lemma AfterTwo(s: State, a: Step, b: Step)
    ensures After(s, [a]) == Do(s, a) && After(s, [a, b]) == Do(Do(s, a), b)
  {
    AfterOne(s, a);
    assert [a, b] == [a] + [b];
    AfterSnoc(s, [a], b);
  }

  lemma {:induction false} RunConcat(s: State, a: seq<Step>, b: seq<Step>)
    ensures After(s, a + b) == After(After(s, a), b)
  {
    if b == [] {
      assert a + b == a;
    } else {
      var n := |b| - 1;
      RunConcat(s, a, b[..n]);
      assert (a + b)[..|a + b| - 1] == a + b[..n];
    }
  }

  // ─── The worker, in place ───────────────────────────────

  datatype UserOp =
    | Start                        // session_start() is called
    | LookAgain                    // one that waits looks again
    | Unable                       // one that waits finds that it cannot
    | GiveUp                       // and one is ended, or out of time
    | WriteClose

  /** The steps of the protocol that it comes to. */
  ghost function Asked(s: State, f: Fiber, op: UserOp): (r: seq<Step>) {
    if f !in s.places then [] else
    match op
    case Start => [if WaitNeeded(s, f) then WaitBegin else Open]
    case LookAgain => if s.places[f] != 0 && !WaitNeeded(s, f) then [WaitOpen] else []
    case Unable => if s.places[f] == 0 then [] else if HeldByOther(s, f) then [WaitEnd] else [WaitEnd, Barge]
    case GiveUp => [WaitEnd]
    case WriteClose => [Close]
  }

  ghost function AskedAll(s: State, f: Fiber, ops: seq<UserOp>): (r: seq<Step>)
    ensures Quiet(r)
  {
    if ops == [] then [] else
      var before := AskedAll(s, f, ops[..|ops| - 1]);
      before + Asked(After(s, before), f, ops[|ops| - 1])
  }

  /** One slice as user code makes it: what it asks of the session, whether the
      request ends in it, and whether it parks in a sleep. */
  datatype Slice = Slice(ops: seq<UserOp>, finishes: bool, sleeps: bool)

  ghost predicate First(s: State, f: Fiber) {
    f in Line(s.places) && forall g :: g in Line(s.places) ==> s.places[f] <= s.places[g]
  }

  /** The first in line is not parked in a sleep, so nothing is to be woken. */
  ghost predicate FirstIsUp(s: State, asleep: set<Fiber>) {
    exists f :: First(s, f) && f !in asleep
  }

  /** Only a request that is resumed wakes or falls asleep. */
  ghost predicate SameOthers(before: set<Fiber>, now: set<Fiber>, trace: seq<Step>) {
    forall f :: (f in before <==> f !in now) ==> Resume(f) in trace
  }

  lemma SameAfterOne(before: set<Fiber>, mid: set<Fiber>, now: set<Fiber>, trace: seq<Step>, longer: seq<Step>, g: Fiber)
    requires SameOthers(before, mid, trace) && trace + [Resume(g)] <= longer
    requires mid - {g} == now - {g}
    ensures SameOthers(before, now, longer)
  {
    assert longer[|trace|] == Resume(g);
    forall f | Resume(f) in trace ensures Resume(f) in longer {
      var i :| 0 <= i < |trace| && trace[i] == Resume(f);
      assert longer[i] == trace[i];
    }
    forall f | f != g ensures f in mid <==> f in now {
      assert f in mid - {g} <==> f in now - {g};
    }
  }

  /** Every request a hand-off wakes is the first of the line, with the slot free, as it is woken. */
  ghost predicate InOrder(s: State, trace: seq<Step>) {
    trace == [] ||
    var init, last := trace[..|trace| - 1], trace[|trace| - 1];
    && InOrder(s, init)
    && (last.Resume? ==> First(After(s, init), last.fiber) && After(s, init).holder == None)
    && !last.Admit?
  }

  /** Steps of one slice: nobody is admitted or resumed in them. */
  predicate Quiet(trace: seq<Step>) {
    forall i :: 0 <= i < |trace| ==> !trace[i].Resume? && !trace[i].Admit?
  }

  class Worker {
    var order: seq<Fiber>            // the active list
    var asleep: set<Fiber>           // parked in a sleep
    var places: map<Fiber, nat>
    var holder: Option<Fiber>
    var waiters: int
    var next: nat
    var running: Option<Fiber>
    var open: bool
    var lifted: set<Fiber>

    ghost function View(): (r: State)
      reads this
    {
      State(places, holder, waiters, next, running, open, lifted)
    }

    ghost predicate Valid()
      reads this
    {
      && (forall f :: f in order <==> f in places)
      && Inv(View())
    }

    constructor ()
      ensures Valid() && View() == Init() && order == []
    {
      order, asleep, places, holder := [], {}, map[], None;
      waiters, next, running, open, lifted := 0, 0, None, false, {};
    }

    method NeedsWait(self: Fiber) returns (r: bool)
      requires Valid() && self in places
      ensures r <==> WaitNeeded(View(), self)
    {
      if open { return false; }
      if holder.Some? && holder.value != self { return true; }
      if waiters == (if places[self] != 0 then 1 else 0) { return false; }
      for i := 0 to |order|
        invariant forall j :: 0 <= j < i ==> !Earlier(places, order[j], self)
      {
        var f := order[i];
        if f != self && places[f] != 0 && (places[self] == 0 || places[f] < places[self]) {
          assert Earlier(places, f, self);
          return true;
        }
      }
      return false;
    }

    method TakePlace(self: Fiber)
      requires Valid() && self in places
      modifies this`places, this`waiters, this`next
      ensures Valid() && View() == WaitBegun(old(View()), self)
    {
      ghost var t := WaitBegun(View(), self);
      BeginKeepsPlaces(View(), self);
      if places[self] == 0 {
        next := next + 1;
        places := places[self := next];
        waiters := waiters + 1;
      }
      assert View() == t;
    }

    method GiveBackPlace(self: Fiber)
      requires Valid() && self in places
      modifies this`places, this`waiters
      ensures Valid() && View() == WaitEnded(old(View()), self)
    {
      ghost var t := WaitEnded(View(), self);
      EndKeepsPlaces(View(), self);
      if places[self] != 0 {
        places := places[self := 0];
        waiters := waiters - 1;
      }
      assert View() == t;
    }

    method EndSlice(fiber: Fiber, completed: bool)
      requires Valid() && running == Some(fiber)
      modifies this`places, this`waiters, this`holder, this`running, this`open, this`lifted
      ensures Valid() && View() == AfterSlice(old(View()), fiber, completed)
    {
      ghost var t := AfterSlice(View(), fiber, completed);
      AfterSliceKeepsInv(View(), fiber, completed);
      var wasOpen := !completed && open;
      if completed && places[fiber] != 0 {
        places, waiters := places[fiber := 0], waiters - 1;
      }
      open, running := false, None;
      if wasOpen {
        lifted := lifted + {fiber};
        holder := Some(fiber);
      } else if holder == Some(fiber) {
        holder := None;
      }
      assert View() == t;
    }

    method FirstInLine() returns (first: Option<Fiber>)
      requires Valid()
      ensures first == None <==> Line(places) == {}
      ensures first.Some? ==> First(View(), first.value)
    {
      first := None;
      for i := 0 to |order|
        invariant first.Some? ==> first.value in Line(places)
        invariant forall j :: 0 <= j < i && places[order[j]] != 0 ==> first.Some? && places[first.value] <= places[order[j]]
      {
        var f := order[i];
        if places[f] != 0 && (first.None? || places[f] < places[first.value]) {
          first := Some(f);
        }
      }
    }

    /** A step that only opens or closes the session on the thread. */
    method SetOpen(now: bool, ghost step: Step)
      requires Valid() && Do(View(), step) == View().(open := now)
      modifies this`open
      ensures Valid() && View() == Do(old(View()), step)
    {
      ghost var t := Do(View(), step);
      StepKeepsInv(View(), step);
      open := now;
      assert View() == t;
    }

    /** The turn of one that waits. The line is asked before its place goes, and not again. */
    method OpenInTurn(fiber: Fiber)
      requires Valid() && running == Some(fiber) && places[fiber] != 0 && !WaitNeeded(View(), fiber)
      modifies this`places, this`waiters, this`open
      ensures Valid() && View() == Do(old(View()), WaitOpen)
    {
      OpenInTurnIs(View(), fiber);
      GiveBackPlace(fiber);
      open := true;
    }

    /** The switch into `fiber`, its session back on the thread if it was parked with it. */
    method Enter(fiber: Fiber)
      requires Valid() && running == None && fiber in places
      modifies this`running, this`open, this`lifted
      ensures Valid() && View() == Do(old(View()), Resume(fiber))
    {
      ghost var t := Do(View(), Resume(fiber));
      StepKeepsInv(View(), Resume(fiber));
      running, open, lifted := Some(fiber), fiber in lifted, lifted - {fiber};
      assert View() == t;
    }

    method Look(fiber: Fiber)
      requires Valid() && running == Some(fiber)
      modifies this`places, this`waiters, this`open
      ensures Valid()
      ensures var s := old(View());
              View() == if s.places[fiber] != 0 && !WaitNeeded(s, fiber) then Do(s, WaitOpen) else s
    {
      var wait := NeedsWait(fiber);
      if places[fiber] != 0 && !wait {
        OpenInTurn(fiber);
      }
    }

    method StartSession(fiber: Fiber)
      requires Valid() && running == Some(fiber)
      modifies this`places, this`waiters, this`next, this`open
      ensures Valid() && View() == Do(old(View()), if WaitNeeded(old(View()), fiber) then WaitBegin else Open)
    {
      var wait := NeedsWait(fiber);
      if wait {
        TakePlace(fiber);
      } else {
        SetOpen(true, Open);
      }
    }

    /** Nothing holds the slot, and others are in line: it takes the slot ahead of them. */
    method CannotWait(fiber: Fiber)
      requires Valid() && running == Some(fiber)
      modifies this`places, this`waiters, this`open
      ensures Valid()
      ensures var s := old(View());
              var ended := Do(s, WaitEnd);
              View() == if s.places[fiber] == 0 then s else if HeldByOther(s, fiber) then ended else Do(ended, Barge)
    {
      ghost var ended := Do(View(), WaitEnd);
      if places[fiber] != 0 {
        GiveBackPlace(fiber);
        assert View() == ended;
        if holder == None || holder == Some(fiber) {
          assert Do(ended, Barge) == ended.(open := true);
          SetOpen(true, Barge);
        }
      }
    }

    /** One thing user code asks of the session, within the slice of `fiber`. */
    method Ask(fiber: Fiber, op: UserOp) returns (ghost steps: seq<Step>)
      requires Valid() && running == Some(fiber)
      modifies this`places, this`waiters, this`next, this`open
      ensures Valid() && steps == Asked(old(View()), fiber, op) && View() == After(old(View()), steps)
    {
      ghost var s := View();
      steps := Asked(s, fiber, op);
      match op
      case Start =>
        AfterOne(s, steps[0]);
        StartSession(fiber);
      case LookAgain =>
        AfterOne(s, WaitOpen);
        Look(fiber);
      case Unable =>
        AfterTwo(s, WaitEnd, Barge);
        CannotWait(fiber);
      case GiveUp =>
        AfterOne(s, WaitEnd);
        GiveBackPlace(fiber);
      case WriteClose =>
        AfterOne(s, Close);
        SetOpen(false, Close);
    }

    method AskAll(fiber: Fiber, ops: seq<UserOp>) returns (ghost trace: seq<Step>)
      requires Valid() && running == Some(fiber)
      modifies this`places, this`waiters, this`next, this`open
      ensures Valid() && trace == AskedAll(old(View()), fiber, ops) && View() == After(old(View()), trace)
    {
      ghost var s := View();
      trace := [];
      for i := 0 to |ops|
        invariant Valid() && running == Some(fiber) && View() == After(s, trace)
        invariant trace == AskedAll(s, fiber, ops[..i])
      {
        trace := AskNext(fiber, ops[i], s, trace);
        assert ops[..i + 1][..i] == ops[..i];
      }
      assert ops[..|ops|] == ops;
    }

    /** One more thing asked, after the steps `trace` from `s`. */
    method AskNext(fiber: Fiber, op: UserOp, ghost s: State, ghost trace: seq<Step>) returns (ghost longer: seq<Step>)
      requires Valid() && running == Some(fiber) && View() == After(s, trace)
      modifies this`places, this`waiters, this`next, this`open
      ensures Valid() && longer == trace + Asked(After(s, trace), fiber, op) && View() == After(s, longer)
    {
      ghost var steps := Ask(fiber, op);
      RunConcat(s, trace, steps);
      longer := trace + steps;
    }

    /** Resume `fiber` for one slice and take in what it leaves. */
    method RunSlice(fiber: Fiber, slice: Slice) returns (ghost trace: seq<Step>)
      requires Valid() && running == None && fiber in places
      modifies this
      ensures Valid() && running == None && View() == After(old(View()), trace)
      ensures trace == [Resume(fiber)] + AskedAll(Do(old(View()), Resume(fiber)), fiber, slice.ops)
                       + [if slice.finishes then Finish else Park]
      ensures Quiet(trace[1..])
      ensures asleep == if slice.sleeps && !slice.finishes then old(asleep) + {fiber} else old(asleep) - {fiber}
    {
      ghost var s := View();
      Enter(fiber);
      ghost var asked := AskAll(fiber, slice.ops);
      Leave(fiber, slice);
      SliceAfter(s, fiber, asked, slice.finishes);
      trace := [Resume(fiber)] + asked + [if slice.finishes then Finish else Park];
    }

    /** The end of the slice, and of the request if it finished in it. */
    method Leave(fiber: Fiber, slice: Slice)
      requires Valid() && running == Some(fiber)
      modifies this
      ensures Valid() && running == None && View() == Left(old(View()), fiber, slice.finishes)
      ensures asleep == if slice.sleeps && !slice.finishes then old(asleep) + {fiber} else old(asleep) - {fiber}
    {
      asleep := if slice.sleeps && !slice.finishes then asleep + {fiber} else asleep - {fiber};
      if slice.finishes {
        FinishRequest(fiber);
      } else {
        EndSlice(fiber, false);
      }
    }

    method FinishRequest(fiber: Fiber)
      requires Valid() && running == Some(fiber)
      modifies this`places, this`waiters, this`holder, this`running, this`open, this`lifted, this`order
      ensures Valid() && running == None && View() == Left(old(View()), fiber, true)
    {
      FinishKeepsInv(View(), fiber);
      EndSlice(fiber, true);
      Unlink(fiber);
    }

    /** Take a request that is over off the active list. */
    method Unlink(fiber: Fiber)
      requires Valid() && fiber in places
      requires Inv(View().(places := places - {fiber}))
      modifies this`places, this`order
      ensures Valid() && View() == old(View()).(places := old(places) - {fiber})
    {
      ghost var t := View().(places := places - {fiber});
      places, order := places - {fiber}, Without(order, fiber);
      assert View() == t;
    }

    /** The request first in line, woken for one slice after the steps `trace` from `s`. */
    method Wake(first: Fiber, slice: Slice, ghost s: State, ghost trace: seq<Step>) returns (ghost longer: seq<Step>)
      requires Valid() && running == None && holder == None && First(View(), first)
      requires View() == After(s, trace) && InOrder(s, trace)
      modifies this
      ensures Valid() && running == None
      ensures View() == After(s, longer) && InOrder(s, longer) && Resumptions(longer) == Resumptions(trace) + 1
      ensures trace + [Resume(first)] <= longer
      ensures asleep == if slice.sleeps && !slice.finishes then old(asleep) + {first} else old(asleep) - {first}
    {
      asleep := asleep - {first};
      ghost var steps := RunSlice(first, slice);
      RunConcat(s, trace, steps);
      OneMoreResumed(s, trace, steps);
      longer := trace + steps;
    }

    /** Wake the request first in line while the slot is free. However the
        slices behave, no more are run than stood in line on entry; and it is not
        given up before that while the slot is free and the first in line asleep. */
    method HandOff(slices: seq<Slice>) returns (resumed: bool, ghost trace: seq<Step>, ghost turns: nat)
      requires Valid() && running == None && |slices| >= waiters
      modifies this
      ensures Valid() && running == None
      ensures View() == After(old(View()), trace) && InOrder(old(View()), trace)
      ensures turns <= |Line(old(places))| && turns == Resumptions(trace) && (resumed <==> turns > 0)
      ensures forall f :: old(holder) == None && First(old(View()), f) && f in old(asleep) ==>
                resumed && trace != [] && trace[0] == Resume(f)
      ensures SameOthers(old(asleep), asleep, trace)
      ensures turns == |Line(old(places))| || holder != None || Line(places) == {} || FirstIsUp(View(), asleep)
    {
      ghost var s := View();
      resumed, trace, turns := false, [], 0;
      var left := waiters;
      while left > 0 && holder == None && waiters > 0
        invariant Valid() && running == None && 0 <= left <= old(waiters)
        invariant View() == After(s, trace) && InOrder(s, trace)
        invariant turns == old(waiters) - left == Resumptions(trace) && (resumed <==> turns > 0)
        invariant SameOthers(old(asleep), asleep, trace)
        invariant if trace == [] then View() == s && asleep == old(asleep) && turns == 0
                  else turns > 0 && trace[0].Resume? && First(s, trace[0].fiber)
      {
        var first := FirstInLine();
        if first.None? || first.value !in asleep { break; }
        ghost var earlier, slept := trace, asleep;
        trace := Wake(first.value, slices[left - 1], s, trace);
        SameAfterOne(old(asleep), slept, asleep, earlier, trace, first.value);
        resumed, turns, left := true, turns + 1, left - 1;
      }
      forall f | old(holder) == None && First(s, f) && f in old(asleep)
        ensures resumed && trace != [] && trace[0] == Resume(f)
      {
        WokenFirst(s, View(), old(asleep), asleep, trace, left, f);
      }
    }
  }

  lemma FirstIsOne(s: State, f: Fiber, g: Fiber)
    requires PlacesInv(s) && First(s, f) && First(s, g)
    ensures f == g
  {
  }

  /** Where a hand-off stops, what it found first was woken first. */
  lemma WokenFirst(s: State, t: State, before: set<Fiber>, asleep: set<Fiber>, trace: seq<Step>, left: int, f: Fiber)
    requires PlacesInv(s) && s.holder == None && First(s, f) && f in before
    requires if trace == [] then t == s && asleep == before && left == s.waiters
             else trace[0].Resume? && First(s, trace[0].fiber)
    requires left <= 0 || t.holder != None || t.waiters <= 0 || Line(t.places) == {} || FirstIsUp(t, asleep)
    ensures trace != [] && trace[0] == Resume(f)
  {
    if trace != [] {
      FirstIsOne(s, f, trace[0].fiber);
    }
  }

  function Without(order: seq<Fiber>, f: Fiber): (r: seq<Fiber>)
    ensures forall g :: g in r <==> g in order && g != f
  {
    if order == [] then []
    else if order[0] == f then Without(order[1..], f)
    else [order[0]] + Without(order[1..], f)
  }

  ghost function Resumptions(trace: seq<Step>): (n: nat) {
    if trace == [] then 0
    else Resumptions(trace[..|trace| - 1]) + if trace[|trace| - 1].Resume? then 1 else 0
  }

  lemma AfterSnoc(s: State, trace: seq<Step>, step: Step)
    ensures After(s, trace + [step]) == Do(After(s, trace), step)
  {
    assert (trace + [step])[..|trace|] == trace;
  }

  lemma FinishKeepsInv(s: State, f: Fiber)
    requires Inv(s) && s.running == Some(f)
    ensures var t := AfterSlice(s, f, true);
      f in t.places && Inv(t.(places := t.places - {f}))
  {
    StepKeepsInv(s, Finish);
  }

  lemma SliceAfter(s: State, f: Fiber, asked: seq<Step>, finishes: bool)
    requires Quiet(asked)
    ensures var u, trace := After(Do(s, Resume(f)), asked), [Resume(f)] + asked + [if finishes then Finish else Park];
      && (u.running == Some(f) && f in u.places ==> After(s, trace) == Left(u, f, finishes))
      && Quiet(trace[1..])
  {
    var last := if finishes then Finish else Park;
    AfterSnoc(s, [], Resume(f));
    assert [] + [Resume(f)] == [Resume(f)];
    RunConcat(s, [Resume(f)], asked);
    AfterSnoc(s, [Resume(f)] + asked, last);
    assert ([Resume(f)] + asked + [last])[1..] == asked + [last];
  }

  lemma {:induction false} OneMoreResumed(s: State, a: seq<Step>, b: seq<Step>)
    requires InOrder(s, a)
    requires |b| > 0 && b[0].Resume? && First(After(s, a), b[0].fiber) && After(s, a).holder == None
    requires Quiet(b[1..])
    ensures InOrder(s, a + b) && Resumptions(a + b) == Resumptions(a) + 1
    decreases |b|
  {
    var n := |b| - 1;
    assert (a + b)[..|a + b| - 1] == a + b[..n];
    if n > 0 {
      assert b[..n][1..] == b[1..][..n - 1] && b[1..][n - 1] == b[n];
      OneMoreResumed(s, a, b[..n]);
    } else {
      assert a + b[..n] == a;
    }
  }
}
