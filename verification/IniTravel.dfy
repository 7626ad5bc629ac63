/**
 Ini directives on a thread that runs several requests. The engine keeps one live
 value per directive and one set of those changed since startup, each with the
 value to go back to. The directives whose handler only stores travel with their
 request; the others stay on the thread until the last request in flight ends.
 */
module IniTravel {
  import opened Basics

  type Name = string
  type Value = nat            // a string object: the engine compares values by identity
  type Fiber = nat

  /** What a directive's handler is: none, one of the standard setters, or any other. */
  datatype Handler = NoHandler | Setter | Acting

  /** Every directive, with its handler and the value startup gave it. */
  datatype Directive = Directive(handler: Handler, startup: Value)
  type Table = map<Name, Directive>

  predicate WorkerScoped(n: Name) {
    n == "max_execution_time" || n == "memory_limit" || n == "opcache.enable" || "session." <= n
  }

  predicate Travels(t: Table, n: Name)
    requires n in t
  {
    && !WorkerScoped(n)
    && (|| t[n].handler.NoHandler? || t[n].handler.Setter?
        || n == "precision" || n == "serialize_precision" || n == "display_errors" || n == "error_reporting")
  }

  /** A directive's entry: its live value and, while it is modified, the value to go back to. */
  datatype Entry = Entry(value: Value, orig: Option<Value>)
  type Ini = map<Name, Entry>

  /** Whether a pass moves the directive. */
  predicate Moves(t: Table, travellingOnly: bool, n: Name)
    requires n in t
  {
    !WorkerScoped(n) && (travellingOnly ==> Travels(t, n))
  }

  // ─── The four operations ──────────────────────────────────

  /** An entry put back, if it is modified. */
  function PutBack(e: Entry): Entry {
    if e.orig.Some? then Entry(e.orig.value, None) else e
  }

  /** An entry changed, as ini_set() changes it. */
  function Altered(e: Entry, v: Value): Entry {
    Entry(v, if e.orig.Some? then e.orig else Some(e.value))
  }

  /** A pass puts back every entry that it moves. */
  function Passed(t: Table, i: Ini, travellingOnly: bool): (r: Ini)
    requires i.Keys == t.Keys
    ensures r.Keys == t.Keys
  {
    map n | n in i :: if Moves(t, travellingOnly, n) then PutBack(i[n]) else i[n]
  }

  /** Whether a pass that keeps takes the value along: not one that is still what it started as. */
  predicate Keeps(t: Table, travellingOnly: bool, n: Name, e: Entry)
    requires n in t
  {
    Moves(t, travellingOnly, n) && e.orig.Some? && e.value != e.orig.value
  }

  function Kept(t: Table, i: Ini, travellingOnly: bool): map<Name, Value>
    requires i.Keys == t.Keys
  {
    map n | n in i && Keeps(t, travellingOnly, n, i[n]) :: i[n].value
  }

  function Applied(i: Ini, kept: map<Name, Value>): (r: Ini)
    ensures r.Keys == i.Keys
  {
    map n | n in i :: if n in kept then Altered(i[n], kept[n]) else i[n]
  }

  // ─── Whole runs ───────────────────────────────────────────

  datatype State = State(ini: Ini, parked: map<Fiber, map<Name, Value>>, current: Option<Fiber>)

  /** `own[f]` is a plain account of what request `f` has set and not undone. */
  datatype World = World(s: State, own: map<Fiber, map<Name, Value>>)

  datatype Step =
    | Begin(fiber: Fiber)
    | Set(name: Name, v: Value)      // in a request, or outside every request
    | Undo(name: Name)
    | Silence(name: Name)            // marks the entry changed and gives it no new value
    | Park
    | Resume(fiber: Fiber)
    | End

  predicate Enabled(t: Table, s: State, step: Step)
    requires s.ini.Keys == t.Keys
  {
    match step
    case Begin(f) => s.current.None? && f !in s.parked
    case Set(n, _) => n in t
    case Undo(n) => n in t && s.ini[n].orig.Some?
    case Silence(n) => n in t
    case Park => s.current.Some?
    case Resume(f) => s.current.None? && f in s.parked
    case End => s.current.Some?
  }

  predicate Valid(t: Table, s: State) {
    s.ini.Keys == t.Keys && forall f :: f in s.parked ==> s.parked[f].Keys <= t.Keys
  }

  /** A step that is not enabled is not taken. */
  function Do(t: Table, s: State, step: Step): (r: State)
    requires Valid(t, s)
    ensures Valid(t, r)
  {
    if !Enabled(t, s, step) then s else
    match step
    case Begin(f) => s.(ini := Passed(t, s.ini, true), current := Some(f))
    case Set(n, v) => s.(ini := s.ini[n := Altered(s.ini[n], v)])
    case Undo(n) => s.(ini := s.ini[n := PutBack(s.ini[n])])
    case Silence(n) => s.(ini := s.ini[n := Altered(s.ini[n], s.ini[n].value)])
    case Park => State(Passed(t, s.ini, true), s.parked[s.current.value := Kept(t, s.ini, true)], None)
    case Resume(f) => State(Applied(Passed(t, s.ini, true), s.parked[f]), s.parked - {f}, Some(f))
    case End => s.(ini := Passed(t, s.ini, s.parked != map[]), current := None)
  }

  function Noted(own: map<Name, Value>, n: Name, v: Value): map<Name, Value> {
    own[n := v]
  }

  function OwnAfter(t: Table, w: World, step: Step): map<Fiber, map<Name, Value>>
    requires Valid(t, w.s)
  {
    if !Enabled(t, w.s, step) then w.own else
    match step
    case Begin(f) => w.own[f := map[]]
    case Set(n, v) => if Running(w) then w.own[w.s.current.value := Noted(w.own[w.s.current.value], n, v)] else w.own
    case Undo(n) => if Running(w) then w.own[w.s.current.value := w.own[w.s.current.value] - {n}] else w.own
    case _ => w.own
  }

  predicate Running(w: World) {
    w.s.current.Some? && w.s.current.value in w.own
  }

  function Stepped(t: Table, w: World, step: Step): World
    requires Valid(t, w.s)
  {
    World(Do(t, w.s, step), OwnAfter(t, w, step))
  }

  function After(t: Table, w: World, steps: seq<Step>): (r: World)
    requires Valid(t, w.s)
    ensures Valid(t, r.s)
  {
    if steps == [] then w else Stepped(t, After(t, w, steps[..|steps| - 1]), steps[|steps| - 1])
  }

  /** Startup's value, overlaid by `changes`. */
  function Look(t: Table, changes: map<Name, Value>, n: Name): Value
    requires n in t
  {
    if n in changes then changes[n] else t[n].startup
  }

  /** What every step keeps of the directive `n`. */
  predicate BaseAt(t: Table, s: State, n: Name)
    requires Valid(t, s) && n in t
  {
    PutBack(s.ini[n]).value == t[n].startup
  }

  predicate SliceAt(t: Table, w: World, n: Name)
    requires Valid(t, w.s) && n in t
  {
    w.s.current.Some? ==>
      && w.s.current.value in w.own && w.s.current.value !in w.s.parked
      && (Travels(t, n) ==> w.s.ini[n].value == Look(t, w.own[w.s.current.value], n))
  }

  predicate ParkedAt(t: Table, w: World, n: Name, f: Fiber)
    requires n in t
  {
    f in w.s.parked ==>
      && f in w.own
      && (Travels(t, n) ==> Look(t, w.s.parked[f], n) == Look(t, w.own[f], n))
      && (!Travels(t, n) ==> n !in w.s.parked[f])
  }

  predicate InvAt(t: Table, w: World, n: Name, f: Fiber)
    requires Valid(t, w.s) && n in t
  {
    BaseAt(t, w.s, n) && SliceAt(t, w, n) && ParkedAt(t, w, n, f)
  }

  lemma StepKeepsInv(t: Table, w: World, step: Step, n: Name, f: Fiber)
    requires Valid(t, w.s) && n in t
    requires InvAt(t, w, n, f) && (step.Resume? ==> InvAt(t, w, n, step.fiber))
    ensures InvAt(t, Stepped(t, w, step), n, f)
  {
  }

  ghost predicate Inv(t: Table, w: World, n: Name)
    requires Valid(t, w.s) && n in t
  {
    forall f :: InvAt(t, w, n, f)
  }

  lemma {:induction false} RunKeepsInv(t: Table, w: World, steps: seq<Step>, n: Name)
    requires Valid(t, w.s) && n in t && Inv(t, w, n)
    ensures Inv(t, After(t, w, steps), n)
  {
    if steps != [] {
      var v, last := After(t, w, steps[..|steps| - 1]), steps[|steps| - 1];
      RunKeepsInv(t, w, steps[..|steps| - 1], n);
      forall f
        ensures InvAt(t, Stepped(t, v, last), n, f)
      {
        assert InvAt(t, v, n, f) && (last.Resume? ==> InvAt(t, v, n, last.fiber));
        StepKeepsInv(t, v, last, n, f);
      }
    }
  }

  /** Before any request, with startup's values live. */
  predicate Boot(t: Table, w: World) {
    w.s == State(map n | n in t :: Entry(t[n].startup, None), map[], None) && w.own == map[]
  }

  lemma BootInv(t: Table, w: World, n: Name)
    requires Boot(t, w) && n in t
    ensures Valid(t, w.s) && Inv(t, w, n)
  {
  }

  /** In every run, a request runs with startup's travelling directives overlaid by
      its own changes and by nobody else's. */
  lemma EverySliceSeesItsOwn(t: Table, w: World, steps: seq<Step>, n: Name)
    requires Boot(t, w) && Valid(t, w.s) && n in t && Travels(t, n)
    ensures var v := After(t, w, steps);
            v.s.current.Some? ==>
              v.s.current.value in v.own && v.s.ini[n].value == Look(t, v.own[v.s.current.value], n)
  {
    BootInv(t, w, n);
    RunKeepsInv(t, w, steps, n);
    assert InvAt(t, After(t, w, steps), n, 0);
  }

  lemma {:induction false} OthersLeaveIt(t: Table, w: World, f: Fiber, steps: seq<Step>)
    requires Valid(t, w.s) && f in w.s.parked && f in w.own && w.s.current.None?
    requires forall i :: 0 <= i < |steps| ==> steps[i] != Resume(f)
    ensures var v := After(t, w, steps);
            f in v.s.parked && f in v.own && v.own[f] == w.own[f] && v.s.current != Some(f)
  {
    if steps != [] {
      OthersLeaveIt(t, w, f, steps[..|steps| - 1]);
      assert steps[|steps| - 1] != Resume(f);
    }
  }

  /** Parking and resuming is the identity on a request's view of the travelling
      directives, whatever ran in between and whatever it changed. */
  lemma ParkAndResume(t: Table, w: World, steps: seq<Step>, n: Name)
    requires Valid(t, w.s) && n in t && Travels(t, n) && Inv(t, w, n) && w.s.current.Some?
    requires forall i :: 0 <= i < |steps| ==> steps[i] != Resume(w.s.current.value)
    ensures var f := w.s.current.value;
            var before := After(t, Stepped(t, w, Park), steps);
            && f in before.s.parked
            && (before.s.current.None? ==>
                  Do(t, before.s, Resume(f)).ini[n].value == w.s.ini[n].value)
  {
    var f := w.s.current.value;
    ParkLeaves(t, w, n);
    ParkKeepsInv(t, w, n);
    RunThenResume(t, Stepped(t, w, Park), f, steps, n);
  }

  lemma ParkLeaves(t: Table, w: World, n: Name)
    requires Valid(t, w.s) && n in t && Travels(t, n) && Inv(t, w, n) && w.s.current.Some?
    ensures var f, p := w.s.current.value, Stepped(t, w, Park);
            f in p.s.parked && f in p.own && p.s.current.None? && Look(t, p.own[f], n) == w.s.ini[n].value
  {
    assert InvAt(t, w, n, w.s.current.value);
  }

  lemma RunThenResume(t: Table, w: World, f: Fiber, steps: seq<Step>, n: Name)
    requires Valid(t, w.s) && n in t && Travels(t, n) && Inv(t, w, n)
    requires f in w.s.parked && f in w.own && w.s.current.None?
    requires forall i :: 0 <= i < |steps| ==> steps[i] != Resume(f)
    ensures var before := After(t, w, steps);
            && f in before.s.parked
            && (before.s.current.None? ==> Do(t, before.s, Resume(f)).ini[n].value == Look(t, w.own[f], n))
  {
    OthersLeaveIt(t, w, f, steps);
    RunKeepsInv(t, w, steps, n);
    if After(t, w, steps).s.current.None? {
      ResumeShows(t, After(t, w, steps), n, f);
    }
  }

  lemma ParkKeepsInv(t: Table, w: World, n: Name)
    requires Valid(t, w.s) && n in t && Inv(t, w, n)
    ensures Inv(t, Stepped(t, w, Park), n)
  {
    forall f
      ensures InvAt(t, Stepped(t, w, Park), n, f)
    {
      assert InvAt(t, w, n, f);
      StepKeepsInv(t, w, Park, n, f);
    }
  }

  lemma ResumeShows(t: Table, w: World, n: Name, f: Fiber)
    requires Valid(t, w.s) && n in t && Travels(t, n) && Inv(t, w, n) && w.s.current.None? && f in w.s.parked
    ensures f in w.own && Do(t, w.s, Resume(f)).ini[n].value == Look(t, w.own[f], n)
  {
    assert InvAt(t, w, n, f);
    StepKeepsInv(t, w, Resume(f), n, f);
  }

  /** As the last request in flight ends, every directive but the worker's own is
      back to what startup gave it; as any request ends, those that travel are. */
  lemma EndPutsBack(t: Table, w: World, steps: seq<Step>, n: Name)
    requires Boot(t, w) && Valid(t, w.s) && n in t && !WorkerScoped(n)
    ensures var s := After(t, w, steps).s;
            s.current.Some? && (Travels(t, n) || s.parked == map[]) ==>
              Do(t, s, End).ini[n] == Entry(t[n].startup, None)
  {
    BootInv(t, w, n);
    RunKeepsInv(t, w, steps, n);
    assert InvAt(t, After(t, w, steps), n, 0);
  }

  /** The three directives and the family that are the worker's own. */
  predicate IsWorkers(n: Name) {
    n in ["max_execution_time", "memory_limit", "opcache.enable"] || (|n| >= 8 && n[..8] == "session.")
  }

  /** A directive that setting does no more to than store. */
  predicate OnlyStored(t: Table, n: Name)
    requires n in t
  {
    !t[n].handler.Acting? || n in ["precision", "serialize_precision", "display_errors", "error_reporting"]
  }

  lemma NamesAre(t: Table, n: Name)
    requires n in t
    ensures WorkerScoped(n) <==> IsWorkers(n)
    ensures Travels(t, n) <==> !IsWorkers(n) && OnlyStored(t, n)
  {
  }

  /** In every run, a park puts back exactly the directives that are only stored and not the
      worker's own, and takes along exactly those of them that differ from startup's value;
      every other stays as it is. */
  lemma ParkMovesExactly(t: Table, w: World, steps: seq<Step>, n: Name)
    requires Boot(t, w) && Valid(t, w.s) && n in t
    ensures var s := After(t, w, steps).s;
            var p := Do(t, s, Park);
            s.current.Some? ==>
              var f := s.current.value;
              && f in p.parked
              && (if !IsWorkers(n) && OnlyStored(t, n)
                  then && p.ini[n] == Entry(t[n].startup, None)
                       && (n in p.parked[f] <==> s.ini[n].value != t[n].startup)
                       && (n in p.parked[f] ==> p.parked[f][n] == s.ini[n].value)
                  else p.ini[n] == s.ini[n] && n !in p.parked[f])
  {
    NamesAre(t, n);
    BootInv(t, w, n);
    RunKeepsInv(t, w, steps, n);
    assert InvAt(t, After(t, w, steps), n, 0);
  }

  /** What the worker keeps for itself moves on no park, resume or end. */
  lemma WorkerScopedStays(t: Table, s: State, step: Step, n: Name)
    requires Valid(t, s) && n in t && WorkerScoped(n)
    requires forall f :: f in s.parked ==> n !in s.parked[f]
    requires !step.Set? && !step.Undo?
    ensures Do(t, s, step).ini[n].value == s.ini[n].value
  {
  }

  // ─── The thread, updated in place ─────────────────────────

  /** A pass that still has the entries `todo` to come to. */
  predicate PassedBut(t: Table, travellingOnly: bool, was: Ini, now: Ini, todo: set<Name>)
    requires was.Keys == t.Keys
  {
    && now.Keys == was.Keys
    && forall n :: n in was ==> now[n] == if n in todo then was[n] else Passed(t, was, travellingOnly)[n]
  }

  predicate KeptBut(t: Table, keeping: bool, travellingOnly: bool, was: Ini, kept: map<Name, Value>, todo: set<Name>)
    requires was.Keys == t.Keys
  {
    && kept.Keys <= was.Keys
    && (forall n :: n in was ==> (n in kept <==> keeping && n !in todo && Keeps(t, travellingOnly, n, was[n])))
    && (forall n :: n in kept ==> kept[n] == was[n].value)
  }

  lemma PassedOne(t: Table, travellingOnly: bool, was: Ini, now: Ini, todo: set<Name>, n: Name)
    requires was.Keys == t.Keys && n in todo && n in was && PassedBut(t, travellingOnly, was, now, todo)
    ensures now[n] == was[n]
    ensures PassedBut(t, travellingOnly, was,
                      if Moves(t, travellingOnly, n) then now[n := PutBack(now[n])] else now, todo - {n})
  {
  }

  lemma KeptOne(t: Table, keeping: bool, travellingOnly: bool, was: Ini, kept: map<Name, Value>, todo: set<Name>, n: Name)
    requires was.Keys == t.Keys && n in todo && n in was && KeptBut(t, keeping, travellingOnly, was, kept, todo)
    ensures KeptBut(t, keeping, travellingOnly, was,
                    if keeping && Keeps(t, travellingOnly, n, was[n]) then kept[n := was[n].value] else kept, todo - {n})
  {
  }

  lemma PassedNone(t: Table, keeping: bool, travellingOnly: bool, was: Ini, todo: set<Name>)
    requires was.Keys == t.Keys && todo == set n | n in was && was[n].orig.Some?
    ensures PassedBut(t, travellingOnly, was, was, todo) && KeptBut(t, keeping, travellingOnly, was, map[], todo)
  {
  }

  lemma PassedAll(t: Table, keeping: bool, travellingOnly: bool, was: Ini, now: Ini, kept: map<Name, Value>)
    requires was.Keys == t.Keys
    requires PassedBut(t, travellingOnly, was, now, {}) && KeptBut(t, keeping, travellingOnly, was, kept, {})
    ensures now == Passed(t, was, travellingOnly)
    ensures kept == if keeping then Kept(t, was, travellingOnly) else map[]
  {
  }

  class Thread {
    const table: Table
    var ini: Ini
    var parked: map<Fiber, map<Name, Value>>
    var current: Option<Fiber>

    ghost function View(): State
      reads this
    {
      State(ini, parked, current)
    }

    constructor (table: Table)
      ensures Boot(table, World(View(), map[])) && this.table == table
    {
      this.table := table;
      ini := map n | n in table :: Entry(table[n].startup, None);
      parked, current := map[], None;
    }

    /** Put one entry back, keeping its value first if the pass keeps. */
    method TakeEntry(n: Name, keeping: bool, travellingOnly: bool, kept: map<Name, Value>) returns (r: map<Name, Value>)
      requires n in table && n in ini && ini[n].orig.Some?
      modifies this`ini
      ensures ini == if Moves(table, travellingOnly, n) then old(ini)[n := PutBack(old(ini)[n])] else old(ini)
      ensures r == if keeping && Keeps(table, travellingOnly, n, old(ini)[n]) then kept[n := old(ini)[n].value] else kept
    {
      r := kept;
      if WorkerScoped(n) || (travellingOnly && !Travels(table, n)) {
        return;
      }
      if keeping && ini[n].value != ini[n].orig.value {
        r := kept[n := ini[n].value];
      }
      ini := ini[n := Entry(ini[n].orig.value, None)];
    }

    /** One pass over the modified set, in whatever order it is walked. */
    method RunPass(keeping: bool, travellingOnly: bool) returns (kept: map<Name, Value>)
      requires ini.Keys == table.Keys
      modifies this`ini
      ensures ini == Passed(table, old(ini), travellingOnly)
      ensures kept == if keeping then Kept(table, old(ini), travellingOnly) else map[]
    {
      ghost var was := ini;
      var todo := set n | n in ini && ini[n].orig.Some?;
      kept := map[];
      PassedNone(table, keeping, travellingOnly, was, todo);
      while todo != {}
        invariant todo <= was.Keys && forall n :: n in todo ==> was[n].orig.Some?
        invariant PassedBut(table, travellingOnly, was, ini, todo)
        invariant KeptBut(table, keeping, travellingOnly, was, kept, todo)
        decreases |todo|
      {
        var n :| n in todo;
        PassedOne(table, travellingOnly, was, ini, todo, n);
        KeptOne(table, keeping, travellingOnly, was, kept, todo, n);
        kept := TakeEntry(n, keeping, travellingOnly, kept);
        todo := todo - {n};
      }
      PassedAll(table, keeping, travellingOnly, was, ini, kept);
    }

    /** Apply what a request kept, as ini_set() would. */
    method ApplyKept(kept: map<Name, Value>)
      requires kept.Keys <= ini.Keys
      modifies this`ini
      ensures ini == Applied(old(ini), kept)
    {
      ghost var was := ini;
      var todo := kept.Keys;
      while todo != {}
        invariant ini.Keys == was.Keys && todo <= kept.Keys
        invariant forall n :: n in was ==> ini[n] == if n in kept && n !in todo then Altered(was[n], kept[n]) else was[n]
        decreases |todo|
      {
        var n :| n in todo;
        ini := ini[n := Altered(ini[n], kept[n])];
        todo := todo - {n};
      }
    }

    method StartRequest(f: Fiber)
      requires Valid(table, View()) && Enabled(table, View(), Begin(f))
      modifies this`ini, this`current
      ensures View() == Do(table, old(View()), Begin(f))
    {
      var none := RunPass(false, true);
      current := Some(f);
    }

    method ParkRequest()
      requires Valid(table, View()) && current.Some?
      modifies this
      ensures View() == Do(table, old(View()), Park)
    {
      var kept := RunPass(true, true);
      parked := parked[current.value := kept];
      current := None;
    }

    method ResumeRequest(f: Fiber)
      requires Valid(table, View()) && Enabled(table, View(), Resume(f))
      modifies this
      ensures View() == Do(table, old(View()), Resume(f))
    {
      var none := RunPass(false, true);
      var kept := parked[f];
      parked := parked - {f};
      ApplyKept(kept);
      current := Some(f);
    }

    /** What only the last request out may put back waits for it. */
    method EndRequest()
      requires Valid(table, View()) && current.Some?
      modifies this`ini, this`current
      ensures View() == Do(table, old(View()), End)
    {
      var none := RunPass(false, parked != map[]);
      current := None;
    }
  }
}
