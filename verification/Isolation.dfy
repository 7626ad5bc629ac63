/**
 The request state a thread has one of: output buffers, last error, shutdown
 functions, superglobals, headers, body. A request that parks takes its own with
 it; a resume puts it back over whatever stands there by then.
 */
module Isolation {
  import opened Basics

  type Obj = nat
  type Fiber = nat

  /** A slot that owns one reference to an engine object, or none. */
  datatype Cell = Nil | Blank | Ref(obj: Obj)

  /** The slot of the six tracked arrays that describes the process, not the request. */
  const ENV: nat := 4
  const TRACKED: nat := 6

  /** `active` and `running` point into the stack of handlers and own nothing. */
  datatype Output = Output(handlers: seq<Cell>, active: Cell, running: Cell)

  datatype LastError = LastError(kind: int, line: int, message: Cell, file: Cell, backtrace: Cell)

  datatype Headers = Headers(list: seq<Cell>, mimetype: Cell, code: int, sent: bool, connection: int)

  /** `stream` is the bare address; the reference behind it is `claim`. */
  datatype Body = Body(stream: Cell, claim: Cell, read: nat, complete: bool, uploads: Cell)

  datatype Bridge = Bridge(streaming: bool, headersSent: bool, finished: bool, time: int)

  datatype Request = Request(
    output: Output,
    rewriter: Cell,
    sid: Cell,
    error: LastError,
    shutdown: Cell,
    slots: seq<Cell>,          // the engine's six tracked arrays
    symbols: seq<Cell>,        // the six names a script reads; Nil for an absent entry
    headers: Headers,
    body: Body,
    bridge: Bridge)

  predicate Shaped(r: Request) {
    |r.slots| == TRACKED && |r.symbols| == TRACKED
  }

  const NO_OUTPUT := Output([], Nil, Nil)
  const NO_ERROR := LastError(0, 0, Nil, Nil, Nil)
  const NO_BODY := Body(Nil, Nil, 0, false, Nil)

  // ─── References ───────────────────────────────────────────

  function Times(s: seq<Cell>, o: Obj): nat {
    multiset(s)[Ref(o)]
  }

  function In(c: Cell, o: Obj): nat {
    if c == Ref(o) then 1 else 0
  }

  /** How often the record owns a reference to `o`. */
  function HeldTimes(r: Request, o: Obj): nat {
    Times(r.output.handlers, o) + In(r.rewriter, o) + In(r.sid, o) + InError(r.error, o) + In(r.shutdown, o)
    + Times(r.slots, o) + Times(r.symbols, o) + Times(r.headers.list, o) + In(r.headers.mimetype, o)
    + In(r.body.claim, o) + In(r.body.uploads, o)
  }

  function InError(e: LastError, o: Obj): nat {
    In(e.message, o) + In(e.file, o) + In(e.backtrace, o)
  }

  lemma TimesUpdate(s: seq<Cell>, i: nat, c: Cell, o: Obj)
    requires i < |s|
    ensures Times(s[i := c], o) + In(s[i], o) == Times(s, o) + In(c, o)
  {
    assert s == s[..i] + [s[i]] + s[i + 1..];
    assert s[i := c] == s[..i] + [c] + s[i + 1..];
  }

  lemma TimesNone(s: seq<Cell>, o: Obj)
    requires forall i :: 0 <= i < |s| ==> !s[i].Ref?
    ensures Times(s, o) == 0
  {
    assert Ref(o) !in s;
  }

  /** All six slots hold `c`, but the environment's, which keeps `env`. */
  function AllBut(c: Cell, env: Cell): (r: seq<Cell>)
    ensures |r| == TRACKED
  {
    seq(TRACKED, _ => c)[ENV := env]
  }

  lemma TimesAllBut(c: Cell, env: Cell, o: Obj)
    requires !c.Ref?
    ensures Times(AllBut(c, env), o) == In(env, o)
  {
    TimesNone(seq(TRACKED, _ => c), o);
    TimesUpdate(seq(TRACKED, _ => c), ENV, env, o);
  }

  // ─── Park and resume ──────────────────────────────────────

  /** What a parking request takes: everything of its own, so not the environment. */
  function Taken(r: Request): Request
    requires Shaped(r)
  {
    r.(slots := r.slots[ENV := Nil])
  }

  /** What it leaves on the thread. The entries a script reads are copied, not moved. */
  function LeftBehind(r: Request): Request
    requires Shaped(r)
  {
    Request(NO_OUTPUT, Nil, Nil, NO_ERROR, Nil, AllBut(Nil, r.slots[ENV]), r.symbols,
            r.headers.(list := [], mimetype := Nil), NO_BODY, r.bridge)
  }

  lemma ParkConserves(r: Request, o: Obj)
    requires Shaped(r)
    ensures HeldTimes(Taken(r), o) + HeldTimes(LeftBehind(r), o) == HeldTimes(r, o) + Times(r.symbols, o)
  {
    TimesUpdate(r.slots, ENV, Nil, o);
    TimesAllBut(Nil, r.slots[ENV], o);
  }

  /** The resumed request over what stands on the thread, whose environment stays. */
  function PutBack(p: Request, standing: Request): Request
    requires Shaped(p) && Shaped(standing)
  {
    p.(slots := p.slots[ENV := standing.slots[ENV]])
  }

  /** What stands on the thread and is given up, in the order it goes. */
  function GivenUp(t: Request): seq<Cell>
    requires Shaped(t)
  {
    [t.error.backtrace] + t.slots[ENV := Nil] + t.symbols + GivenUpRest(t)
  }

  function GivenUpRest(t: Request): seq<Cell> {
    t.headers.list + [t.headers.mimetype] + [t.body.claim] + t.output.handlers
    + [t.rewriter] + [t.sid] + [t.error.message] + [t.error.file]
  }

  function GivenUpTimes(t: Request, o: Obj): nat
    requires Shaped(t)
  {
    InError(t.error, o) + Times(t.slots[ENV := Nil], o) + Times(t.symbols, o) + Times(t.headers.list, o)
    + In(t.headers.mimetype, o) + In(t.body.claim, o) + Times(t.output.handlers, o) + In(t.rewriter, o) + In(t.sid, o)
  }

  lemma TimesConcat(s: seq<Cell>, t: seq<Cell>, o: Obj)
    ensures Times(s + t, o) == Times(s, o) + Times(t, o)
  {
  }

  lemma TimesSnoc(s: seq<Cell>, c: Cell, o: Obj)
    ensures Times(s + [c], o) == Times(s, o) + In(c, o)
  {
  }

  lemma GivenUpCounts(t: Request, o: Obj)
    requires Shaped(t)
    ensures Times(GivenUp(t), o) == GivenUpTimes(t, o)
  {
    var a := [t.error.backtrace];
    TimesSnoc([], t.error.backtrace, o);
    assert a == [] + a;
    TimesConcat(a, t.slots[ENV := Nil], o);
    TimesConcat(a + t.slots[ENV := Nil], t.symbols, o);
    TimesConcat(a + t.slots[ENV := Nil] + t.symbols, GivenUpRest(t), o);
    GivenUpRestCounts(t, o);
  }

  lemma GivenUpRestCounts(t: Request, o: Obj)
    ensures Times(GivenUpRest(t), o) == Times(t.headers.list, o) + In(t.headers.mimetype, o) + In(t.body.claim, o)
      + Times(t.output.handlers, o) + In(t.rewriter, o) + In(t.sid, o) + In(t.error.message, o) + In(t.error.file, o)
  {
    var a := t.headers.list + [t.headers.mimetype] + [t.body.claim];
    TimesSnoc(t.headers.list, t.headers.mimetype, o);
    TimesSnoc(t.headers.list + [t.headers.mimetype], t.body.claim, o);
    TimesConcat(a, t.output.handlers, o);
    var b := a + t.output.handlers;
    TimesSnoc(b, t.rewriter, o);
    TimesSnoc(b + [t.rewriter], t.sid, o);
    TimesSnoc(b + [t.rewriter] + [t.sid], t.error.message, o);
    TimesSnoc(b + [t.rewriter] + [t.sid] + [t.error.message], t.error.file, o);
  }

  /** What stands on the thread and is overwritten, its references with nobody. */
  function OverwrittenTimes(t: Request, o: Obj): nat {
    In(t.body.uploads, o) + In(t.shutdown, o)
  }

  lemma ResumeConserves(p: Request, t: Request, o: Obj)
    requires Shaped(p) && Shaped(t) && p.slots[ENV] == Nil
    ensures HeldTimes(p, o) + HeldTimes(t, o)
         == HeldTimes(PutBack(p, t), o) + GivenUpTimes(t, o) + OverwrittenTimes(t, o)
  {
    TimesUpdate(p.slots, ENV, t.slots[ENV], o);
    TimesUpdate(t.slots, ENV, Nil, o);
  }

  /** Whatever stood on the thread, the request finds what it took, and beside it
      the process's environment as it stands. */
  lemma RoundTrip(r: Request, standing: Request)
    requires Shaped(r) && Shaped(standing)
    ensures PutBack(Taken(r), standing) == r.(slots := r.slots[ENV := standing.slots[ENV]])
  {
    assert r.slots[ENV := Nil][ENV := standing.slots[ENV]] == r.slots[ENV := standing.slots[ENV]];
  }

  // ─── Start, end and teardown ──────────────────────────────

  /** What a new request starts from. */
  function Admitted(r: Request): Request
    requires Shaped(r)
  {
    r.(headers := Headers([], Nil, 200, false, 0), error := NO_ERROR, body := NO_BODY, slots := AllBut(Nil, r.slots[ENV]))
  }

  function AdmitGivesUp(r: Request, o: Obj): nat
    requires Shaped(r)
  {
    InError(r.error, o) + Times(r.headers.list, o) + In(r.headers.mimetype, o) + In(r.body.claim, o)
    + Times(r.slots[ENV := Nil], o)
  }

  lemma AdmitConserves(r: Request, o: Obj)
    requires Shaped(r)
    ensures HeldTimes(r, o) == HeldTimes(Admitted(r), o) + AdmitGivesUp(r, o) + In(r.body.uploads, o)
  {
    TimesUpdate(r.slots, ENV, Nil, o);
    TimesAllBut(Nil, r.slots[ENV], o);
  }

  /** What an ended request leaves, its response sent. */
  function Ended(r: Request): Request
    requires Shaped(r)
  {
    r.(rewriter := Nil, sid := Nil, body := r.body.(stream := Nil, claim := Nil, uploads := Nil),
       slots := AllBut(Blank, r.slots[ENV]), symbols := seq(TRACKED, _ => Nil))
  }

  function EndGivesUp(r: Request, o: Obj): nat
    requires Shaped(r)
  {
    In(r.rewriter, o) + In(r.sid, o) + In(r.body.uploads, o) + In(r.body.claim, o) + Times(r.symbols, o)
    + Times(r.slots[ENV := Nil], o)
  }

  lemma EndConserves(r: Request, o: Obj)
    requires Shaped(r)
    ensures HeldTimes(r, o) == HeldTimes(Ended(r), o) + EndGivesUp(r, o)
  {
    TimesUpdate(r.slots, ENV, Nil, o);
    TimesAllBut(Blank, r.slots[ENV], o);
    TimesNone(Ended(r).symbols, o);
  }

  /** A request torn down while parked: its header list and its arrays are not released. */
  function TeardownGivesUp(p: Request, o: Obj): nat {
    In(p.headers.mimetype, o) + Times(p.output.handlers, o) + In(p.rewriter, o) + In(p.sid, o) + InError(p.error, o)
    + In(p.shutdown, o) + In(p.body.uploads, o) + In(p.body.claim, o) + Times(p.symbols, o)
  }

  function TeardownLeaves(p: Request, o: Obj): nat {
    Times(p.headers.list, o) + Times(p.slots, o)
  }

  // ─── Every schedule ───────────────────────────────────────

  /** `parked[f]` is what fiber `f` took with it, if it is parked. */
  datatype State = State(thread: Request, parked: seq<Option<Request>>, current: Option<Fiber>)

  /** References to each object so far: taken, given up, and left with nobody. */
  datatype Ledger = Ledger(taken: Obj -> int, freed: Obj -> int, lost: Obj -> int)

  datatype World = World(s: State, l: Ledger)

  datatype Step =
    | Admit(fiber: Fiber)
    | Act(to: Request)              // PHP: in a slice, or outside every request when none is current
    | Park
    | Resume(fiber: Fiber)
    | FreeRegistry                  // the end of a request has run its shutdown functions
    | Finish
    | Teardown(fiber: Fiber)

  predicate IsParked(s: State, f: Fiber) {
    f < |s.parked| && s.parked[f].Some?
  }

  predicate Enabled(s: State, step: Step) {
    match step
    case Admit(f) => s.current.None? && f < |s.parked| && s.parked[f].None?
    case Act(to) => Shaped(to)
    case Park => s.current.Some?
    case Resume(f) => s.current.None? && IsParked(s, f)
    case FreeRegistry => s.current.Some?
    case Finish => s.current.Some?
    case Teardown(f) => s.current.None? && IsParked(s, f)
  }

  predicate Valid(s: State) {
    && Shaped(s.thread)
    && (forall f :: 0 <= f < |s.parked| && s.parked[f].Some? ==>
          Shaped(s.parked[f].value) && s.parked[f].value.slots[ENV] == Nil)
    && (s.current.Some? ==> s.current.value < |s.parked| && s.parked[s.current.value].None?)
  }

  /** A step that is not enabled is not taken. */
  function Do(s: State, step: Step): (r: State)
    requires Valid(s)
    ensures Valid(r) && |r.parked| == |s.parked|
  {
    if !Enabled(s, step) then s else
    match step
    case Admit(f) => s.(thread := Admitted(s.thread), current := Some(f))
    case Act(to) => s.(thread := to)
    case Park => State(LeftBehind(s.thread), s.parked[s.current.value := Some(Taken(s.thread))], None)
    case Resume(f) => State(PutBack(s.parked[f].value, s.thread), s.parked[f := None], Some(f))
    case FreeRegistry => s.(thread := s.thread.(shutdown := Nil))
    case Finish => s.(thread := Ended(s.thread), current := None)
    case Teardown(f) => s.(parked := s.parked[f := None])
  }

  /** What a step takes, gives up and leaves with nobody, of the references to `o`. */
  function Takes(s: State, step: Step, o: Obj): nat
    requires Valid(s)
  {
    if !Enabled(s, step) then 0 else
    match step
    case Act(to) => HeldTimes(to, o)
    case Park => Times(s.thread.symbols, o)
    case _ => 0
  }

  function GivesUp(s: State, step: Step, o: Obj): nat
    requires Valid(s)
  {
    if !Enabled(s, step) then 0 else
    match step
    case Admit(_) => AdmitGivesUp(s.thread, o)
    case Act(_) => HeldTimes(s.thread, o)
    case Park => 0
    case Resume(_) => GivenUpTimes(s.thread, o)
    case FreeRegistry => In(s.thread.shutdown, o)
    case Finish => EndGivesUp(s.thread, o)
    case Teardown(f) => TeardownGivesUp(s.parked[f].value, o)
  }

  function Drops(s: State, step: Step, o: Obj): nat
    requires Valid(s)
  {
    if !Enabled(s, step) then 0 else
    match step
    case Admit(_) => In(s.thread.body.uploads, o)
    case Resume(_) => OverwrittenTimes(s.thread, o)
    case Teardown(f) => TeardownLeaves(s.parked[f].value, o)
    case _ => 0
  }

  function Recorded(s: State, step: Step, l: Ledger): Ledger
    requires Valid(s)
  {
    Ledger((o: Obj) requires Valid(s) => l.taken(o) + Takes(s, step, o),
           (o: Obj) requires Valid(s) => l.freed(o) + GivesUp(s, step, o),
           (o: Obj) requires Valid(s) => l.lost(o) + Drops(s, step, o))
  }

  function Stepped(w: World, step: Step): World
    requires Valid(w.s)
  {
    World(Do(w.s, step), Recorded(w.s, step, w.l))
  }

  function After(w: World, steps: seq<Step>): (r: World)
    requires Valid(w.s)
    ensures Valid(r.s) && |r.s.parked| == |w.s.parked|
  {
    if steps == [] then w else Stepped(After(w, steps[..|steps| - 1]), steps[|steps| - 1])
  }

  // ─── What a new request starts from ───────────────────────

  /** Nothing of any earlier request is in its status, headers, last error, body or arrays. */
  predicate StartsClean(r: Request) {
    && r.headers.code == 200 && r.headers.list == [] && r.headers.mimetype == Nil
    && !r.headers.sent && r.headers.connection == 0
    && r.error == LastError(0, 0, Nil, Nil, Nil)
    && r.body.stream == Nil && r.body.claim == Nil && r.body.read == 0 && !r.body.complete && r.body.uploads == Nil
    && |r.slots| == 6 && (forall i :: 0 <= i < 6 && i != 4 ==> r.slots[i] == Nil)
  }

  /** Whatever ran before it, a new request starts clean, beside the environment as it stands;
      so in all of that two that start are the same, on whichever worker and after whatever. */
  lemma EveryRequestStartsClean(w: World, steps: seq<Step>, f: Fiber, v: World, other: seq<Step>, g: Fiber)
    requires Valid(w.s) && Valid(v.s)
    requires Enabled(After(w, steps).s, Admit(f)) && Enabled(After(v, other).s, Admit(g))
    ensures var s, a := After(w, steps).s, Stepped(After(w, steps), Admit(f)).s;
            a.current == Some(f) && StartsClean(a.thread) && a.thread.slots[4] == s.thread.slots[4] && a.parked == s.parked
    ensures var a, b := Stepped(After(w, steps), Admit(f)).s.thread, Stepped(After(v, other), Admit(g)).s.thread;
            a.headers == b.headers && a.error == b.error && a.body == b.body && a.slots[4 := Nil] == b.slots[4 := Nil]
  {
    var a, b := Stepped(After(w, steps), Admit(f)).s.thread, Stepped(After(v, other), Admit(g)).s.thread;
    AdmittedClean(After(w, steps).s.thread);
    AdmittedClean(After(v, other).s.thread);
    assert a.slots[4 := Nil] == b.slots[4 := Nil];
  }

  /** A request that ends leaves its body, its arrays and what a script reads of them to nobody,
      and its response as it was sent. */
  lemma EndLeavesNone(s: State)
    requires Valid(s) && s.current.Some?
    ensures var r, t := s.thread, Do(s, Finish).thread;
            && t.body.stream == t.body.claim == t.body.uploads == t.rewriter == t.sid == Nil
            && (forall i :: 0 <= i < 6 ==> t.symbols[i] == Nil)
            && (forall i :: 0 <= i < 6 ==> t.slots[i] == if i == 4 then r.slots[4] else Blank)
            && t.headers == r.headers && t.error == r.error && t.output == r.output && t.bridge == r.bridge && t.shutdown == r.shutdown
  {
  }

  lemma AdmittedClean(r: Request)
    requires Shaped(r)
    ensures StartsClean(Admitted(r)) && Admitted(r).slots[4] == r.slots[4]
  {
  }

  // ─── What it finds is what it left ────────────────────────

  predicate Concerns(step: Step, f: Fiber) {
    (step.Resume? || step.Teardown?) && step.fiber == f
  }

  /** A parked request's share is out of every other request's reach. */
  lemma {:induction false} ParkedStays(w: World, steps: seq<Step>, f: Fiber)
    requires Valid(w.s) && IsParked(w.s, f)
    requires forall i :: 0 <= i < |steps| ==> !Concerns(steps[i], f)
    ensures After(w, steps).s.parked[f] == w.s.parked[f]
  {
    if steps != [] {
      var n := |steps| - 1;
      ParkedStays(w, steps[..n], f);
      assert !Concerns(steps[n], f);
    }
  }

  lemma ResumeFinds(s: State, f: Fiber, r: Request)
    requires Valid(s) && Shaped(r) && s.current.None? && f < |s.parked| && s.parked[f] == Some(Taken(r))
    ensures Do(s, Resume(f)).current == Some(f)
    ensures Do(s, Resume(f)).thread == r.(slots := r.slots[ENV := s.thread.slots[ENV]])
  {
    RoundTrip(r, s.thread);
  }

  /** Whatever requests start, park, resume, end and are torn down while it is
      parked, and whatever they and the code between them do, a request that
      resumes finds what it left: the absent absent, and only the environment as
      it then stands. */
  lemma FindsWhatItLeft(w: World, f: Fiber, steps: seq<Step>)
    requires Valid(w.s) && w.s.current == Some(f)
    requires forall i :: 0 <= i < |steps| ==> !Concerns(steps[i], f)
    ensures var parked := Stepped(w, Park);
            var before := After(parked, steps).s;
            var after := Do(before, Resume(f));
            && IsParked(before, f)
            && (before.current.None? ==>
                  && after.current == Some(f)
                  && after.thread == w.s.thread.(slots := w.s.thread.slots[ENV := before.thread.slots[ENV]]))
  {
    var parked := Stepped(w, Park);
    ParkedStays(parked, steps, f);
    var before := After(parked, steps).s;
    if before.current.None? {
      ResumeFinds(before, f, w.s.thread);
    }
  }

  // ─── Each reference in one place ──────────────────────────

  function HeldBy(p: Option<Request>, o: Obj): nat {
    if p.Some? then HeldTimes(p.value, o) else 0
  }

  function Counts(parked: seq<Option<Request>>, o: Obj): (r: seq<nat>)
    ensures |r| == |parked|
  {
    seq(|parked|, f requires 0 <= f < |parked| => HeldBy(parked[f], o))
  }

  function Total(ns: seq<nat>): nat {
    if ns == [] then 0 else Total(ns[..|ns| - 1]) + ns[|ns| - 1]
  }

  function Sum(parked: seq<Option<Request>>, o: Obj): nat {
    Total(Counts(parked, o))
  }

  lemma {:induction false} TotalUpdate(ns: seq<nat>, i: nat, n: nat)
    requires i < |ns|
    ensures Total(ns[i := n]) + ns[i] == Total(ns) + n
  {
    var m, t := |ns| - 1, ns[i := n];
    if i < m {
      TotalUpdate(ns[..m], i, n);
      assert t[..m] == ns[..m][i := n];
    } else {
      assert t[..m] == ns[..m];
    }
  }

  lemma SumUpdate(parked: seq<Option<Request>>, f: nat, p: Option<Request>, o: Obj)
    requires f < |parked|
    ensures Sum(parked[f := p], o) + HeldBy(parked[f], o) == Sum(parked, o) + HeldBy(p, o)
  {
    TotalUpdate(Counts(parked, o), f, HeldBy(p, o));
    assert Counts(parked[f := p], o) == Counts(parked, o)[f := HeldBy(p, o)];
  }

  /** Every reference taken was given up, or is held on the thread or by a parked
      request, or is with nobody. */
  predicate Accounted(w: World, o: Obj) {
    w.l.taken(o) == w.l.freed(o) + w.l.lost(o) + HeldTimes(w.s.thread, o) + Sum(w.s.parked, o)
  }

  lemma StepConserves(s: State, step: Step, o: Obj)
    requires Valid(s)
    ensures HeldTimes(s.thread, o) + Sum(s.parked, o) + Takes(s, step, o)
         == HeldTimes(Do(s, step).thread, o) + Sum(Do(s, step).parked, o) + GivesUp(s, step, o) + Drops(s, step, o)
  {
    if Enabled(s, step) {
      match step
      case Admit(f) => AdmitConserves(s.thread, o);
      case Act(to) =>
      case Park =>
        ParkConserves(s.thread, o);
        SumUpdate(s.parked, s.current.value, Some(Taken(s.thread)), o);
      case Resume(f) =>
        ResumeConserves(s.parked[f].value, s.thread, o);
        SumUpdate(s.parked, f, None, o);
      case FreeRegistry =>
      case Finish => EndConserves(s.thread, o);
      case Teardown(f) => SumUpdate(s.parked, f, None, o);
    }
  }

  lemma {:induction false} RunAccounts(w: World, steps: seq<Step>, o: Obj)
    requires Valid(w.s) && Accounted(w, o)
    ensures Accounted(After(w, steps), o)
  {
    if steps != [] {
      var n := |steps| - 1;
      RunAccounts(w, steps[..n], o);
      StepConserves(After(w, steps[..n]).s, steps[n], o);
    }
  }

  lemma AtMostTotal(ns: seq<nat>, i: nat)
    requires i < |ns|
    ensures ns[i] <= Total(ns)
  {
    TotalUpdate(ns, i, 0);
  }

  lemma {:induction false} TotalOfOne(ns: seq<nat>) returns (f: nat)
    requires Total(ns) == 1
    ensures f < |ns| && ns[f] == 1 && forall g :: 0 <= g < |ns| && g != f ==> ns[g] == 0
  {
    var n := |ns| - 1;
    if ns[n] == 1 {
      f := n;
      forall g | 0 <= g < n
        ensures ns[g] == 0
      {
        AtMostTotal(ns[..n], g);
      }
    } else {
      f := TotalOfOne(ns[..n]);
    }
  }

  /** Of one thing counted `n` times on the thread and `ns[f]` times with fiber `f`. */
  predicate OnThreadOnly(n: nat, ns: seq<nat>) {
    n == 1 && forall g :: 0 <= g < |ns| ==> ns[g] == 0
  }

  predicate WithFiberOnly(n: nat, ns: seq<nat>, f: Fiber) {
    n == 0 && f < |ns| && ns[f] == 1 && forall g :: 0 <= g < |ns| && g != f ==> ns[g] == 0
  }

  predicate InOnePlace(n: nat, ns: seq<nat>) {
    OnThreadOnly(n, ns) || exists f :: 0 <= f < |ns| && WithFiberOnly(n, ns, f)
  }

  lemma OnePlace(n: nat, ns: seq<nat>)
    requires n + Total(ns) == 1
    ensures InOnePlace(n, ns)
  {
    if Total(ns) == 1 {
      var f := TotalOfOne(ns);
      assert WithFiberOnly(n, ns, f);
    } else {
      forall g | 0 <= g < |ns|
        ensures ns[g] == 0
      {
        AtMostTotal(ns, g);
      }
    }
  }

  /** In every run, an object with one reference outstanding is in exactly one
      place: on the thread, or with one parked request. */
  lemma ExactlyOnePlace(w: World, steps: seq<Step>, o: Obj)
    requires Valid(w.s) && Accounted(w, o)
    requires var l := After(w, steps).l; l.taken(o) == l.freed(o) + l.lost(o) + 1
    ensures var s := After(w, steps).s; InOnePlace(HeldTimes(s.thread, o), Counts(s.parked, o))
  {
    RunAccounts(w, steps, o);
    var s := After(w, steps).s;
    OnePlace(HeldTimes(s.thread, o), Counts(s.parked, o));
  }

  // ─── What is left with nobody ─────────────────────────────

  /** A step overwrites what still holds a reference: a registry of shutdown
      functions or an upload hash standing between slices, or the header list and
      the arrays of a request torn down while parked. */
  predicate Loses(s: State, step: Step)
    requires Valid(s)
  {
    && Enabled(s, step)
    && match step
       case Admit(_) => s.thread.body.uploads.Ref?
       case Resume(_) => s.thread.shutdown.Ref? || s.thread.body.uploads.Ref?
       case Teardown(f) =>
         var p := s.parked[f].value;
         || (exists i :: 0 <= i < |p.headers.list| && p.headers.list[i].Ref?)
         || (exists i :: 0 <= i < TRACKED && p.slots[i].Ref?)
       case _ => false
  }

  lemma TimesSomeIff(s: seq<Cell>)
    ensures (exists o :: Times(s, o) > 0) <==> exists i :: 0 <= i < |s| && s[i].Ref?
  {
    if i :| 0 <= i < |s| && s[i].Ref? {
      assert Times(s, s[i].obj) > 0;
    }
    forall o: Obj | Times(s, o) > 0
      ensures exists i :: 0 <= i < |s| && s[i].Ref?
    {
      assert Ref(o) in s;
    }
  }

  lemma StepLosesIff(s: State, step: Step)
    requires Valid(s)
    ensures Loses(s, step) <==> exists o :: Drops(s, step, o) > 0
  {
    if Enabled(s, step) {
      var uploads, shutdown := s.thread.body.uploads, s.thread.shutdown;
      match step
      case Admit(_) =>
        assert uploads.Ref? ==> Drops(s, step, uploads.obj) > 0;
      case Resume(_) =>
        assert uploads.Ref? ==> Drops(s, step, uploads.obj) > 0;
        assert shutdown.Ref? ==> Drops(s, step, shutdown.obj) > 0;
      case Teardown(f) =>
        var p := s.parked[f].value;
        TimesSomeIff(p.headers.list);
        TimesSomeIff(p.slots);
        assert forall o: Obj :: Drops(s, step, o) > 0 <==> Times(p.headers.list, o) > 0 || Times(p.slots, o) > 0;
      case _ =>
    }
  }

  predicate LosesSomewhere(w: World, steps: seq<Step>)
    requires Valid(w.s)
  {
    && steps != []
    && (|| LosesSomewhere(w, steps[..|steps| - 1])
        || Loses(After(w, steps[..|steps| - 1]).s, steps[|steps| - 1]))
  }

  lemma {:induction false} LostOnlyGrows(w: World, steps: seq<Step>, o: Obj)
    requires Valid(w.s)
    ensures w.l.lost(o) <= After(w, steps).l.lost(o)
  {
    if steps != [] {
      LostOnlyGrows(w, steps[..|steps| - 1], o);
    }
  }

  /** A run leaves no reference with nobody exactly when none of its steps finds
      one standing. The resume's own assertion is the registry's half of that. */
  lemma {:induction false} RunLosesIff(w: World, steps: seq<Step>)
    requires Valid(w.s)
    ensures LosesSomewhere(w, steps) <==> exists o :: After(w, steps).l.lost(o) > w.l.lost(o)
  {
    if steps != [] {
      var v, last := After(w, steps[..|steps| - 1]), steps[|steps| - 1];
      RunLosesIff(w, steps[..|steps| - 1]);
      StepLosesIff(v.s, last);
      forall o: Obj
        ensures After(w, steps).l.lost(o) == v.l.lost(o) + Drops(v.s, last, o) && v.l.lost(o) >= w.l.lost(o)
      {
        LostOnlyGrows(w, steps[..|steps| - 1], o);
      }
    }
  }

  /** User code that keeps to its request: outside every request it leaves no
      registry and no uploads standing, and a request ends with its registry run. */
  predicate Timely(s: State, step: Step) {
    match step
    case Act(to) => s.current.None? ==> !to.shutdown.Ref? && !to.body.uploads.Ref?
    case Finish => !s.thread.shutdown.Ref?
    case Teardown(_) => false
    case _ => true
  }

  predicate TimelyRun(w: World, steps: seq<Step>)
    requires Valid(w.s)
  {
    steps != [] ==>
      TimelyRun(w, steps[..|steps| - 1]) && Timely(After(w, steps[..|steps| - 1]).s, steps[|steps| - 1])
  }

  predicate Quiet(s: State) {
    s.current.None? ==> !s.thread.shutdown.Ref? && !s.thread.body.uploads.Ref?
  }

  lemma TimelyStep(s: State, step: Step)
    requires Valid(s) && Quiet(s) && Timely(s, step)
    ensures Quiet(Do(s, step)) && !Loses(s, step)
  {
  }

  /** So the registry is empty at every resume, and nothing is ever lost. */
  lemma {:induction false} TimelyRunLosesNothing(w: World, steps: seq<Step>)
    requires Valid(w.s) && Quiet(w.s) && TimelyRun(w, steps)
    ensures Quiet(After(w, steps).s) && !LosesSomewhere(w, steps)
  {
    if steps != [] {
      TimelyRunLosesNothing(w, steps[..|steps| - 1]);
      TimelyStep(After(w, steps[..|steps| - 1]).s, steps[|steps| - 1]);
    }
  }

  /** A shutdown function registered outside every request, by a destructor the
      scheduler drops say, stands where a resume asserts that nothing does. */
  lemma RegisteredBetweenSlices(w: World, f: Fiber, to: Request)
    requires Valid(w.s) && w.s.current.None? && IsParked(w.s, f)
    requires Shaped(to) && to.shutdown.Ref?
    ensures Loses(After(w, [Act(to)]).s, Resume(f))
  {
    assert [Act(to)][..0] == [];
    assert After(w, [Act(to)]) == Stepped(w, Act(to));
  }

  // ─── The thread, updated in place ─────────────────────────

  class Thread {
    var output: Output
    var rewriter: Cell
    var sid: Cell
    var error: LastError
    var shutdown: Cell
    var slots: seq<Cell>
    var symbols: seq<Cell>
    var headers: Headers
    var body: Body
    var bridge: Bridge
    var parked: seq<Option<Request>>
    ghost var Acquired: seq<Cell>      // references taken, as they are
    ghost var Freed: seq<Cell>       // references given up, as they are

    ghost function View(): Request
      reads this
    {
      Request(output, rewriter, sid, error, shutdown, slots, symbols, headers, body, bridge)
    }

    /** The engine's arrays leave with the request, the environment's excepted. */
    method TakeSlots() returns (saved: seq<Cell>)
      requires |slots| == TRACKED
      modifies this`slots
      ensures saved == old(slots)[ENV := Nil] && slots == AllBut(Nil, old(slots)[ENV])
    {
      saved := seq(TRACKED, _ => Nil);
      for i := 0 to TRACKED
        invariant |slots| == |saved| == TRACKED
        invariant forall k :: 0 <= k < i && k != ENV ==> saved[k] == old(slots)[k] && slots[k] == Nil
        invariant forall k :: i <= k < TRACKED || k == ENV ==> saved[k] == Nil && slots[k] == old(slots)[k]
      {
        if i != ENV {
          saved := saved[i := slots[i]];
          slots := slots[i := Nil];
        }
      }
    }

    method PutSlots(saved: seq<Cell>) returns (ghost gone: seq<Cell>)
      requires |slots| == |saved| == TRACKED
      modifies this`slots
      ensures slots == saved[ENV := old(slots)[ENV]] && gone == old(slots)[ENV := Nil]
    {
      gone := [];
      ghost var bare := slots[ENV := Nil];
      for i := 0 to TRACKED
        invariant |slots| == TRACKED
        invariant forall k :: 0 <= k < TRACKED ==> slots[k] == if k < i && k != ENV then saved[k] else old(slots)[k]
        invariant gone == bare[..i]
      {
        assert bare[..i + 1][..i] == bare[..i];
        if i != ENV {
          gone := gone + [slots[i]];
          slots := slots[i := saved[i]];
        } else {
          gone := gone + [Nil];
        }
      }
      assert bare[..TRACKED] == bare;
    }

    /** What a script reads is copied: the table keeps its entry. */
    method CopySymbols() returns (saved: seq<Cell>)
      requires |symbols| == TRACKED
      modifies this`Acquired
      ensures saved == symbols && Acquired == old(Acquired) + symbols
    {
      saved := seq(TRACKED, _ => Nil);
      for i := 0 to TRACKED
        invariant |saved| == TRACKED && saved[..i] == symbols[..i]
        invariant forall k :: i <= k < TRACKED ==> saved[k] == Nil
        invariant Acquired == old(Acquired) + symbols[..i]
      {
        assert symbols[..i + 1][..i] == symbols[..i];
        if symbols[i] != Nil {
          saved := saved[i := symbols[i]];
        }
        Acquired := Acquired + [saved[i]];
      }
      assert symbols[..TRACKED] == symbols;
    }

    method PutSymbols(saved: seq<Cell>) returns (ghost gone: seq<Cell>)
      requires |symbols| == |saved| == TRACKED
      modifies this`symbols
      ensures symbols == saved && gone == old(symbols)
    {
      gone := [];
      ghost var was := symbols;
      for i := 0 to TRACKED
        invariant |symbols| == TRACKED
        invariant forall k :: 0 <= k < TRACKED ==> symbols[k] == if k < i then saved[k] else was[k]
        invariant gone == was[..i]
      {
        assert was[..i + 1][..i] == was[..i];
        gone := gone + [symbols[i]];
        if saved[i] == Nil {
          symbols := symbols[i := Nil];
        } else {
          symbols := symbols[i := saved[i]];
        }
      }
      assert was[..TRACKED] == was;
    }

    /** Take all of the request but its arrays off the thread. */
    method TakeRest(slots: seq<Cell>, symbols: seq<Cell>) returns (p: Request)
      modifies this`output, this`rewriter, this`sid, this`error, this`shutdown, this`headers, this`body
      ensures p == old(View()).(slots := slots, symbols := symbols)
      ensures View() == Request(NO_OUTPUT, Nil, Nil, NO_ERROR, Nil, this.slots, this.symbols,
                                old(headers).(list := [], mimetype := Nil), NO_BODY, bridge)
    {
      var savedOutput, savedRewriter, savedSid := output, rewriter, sid;
      output, rewriter, sid := NO_OUTPUT, Nil, Nil;
      var savedError := error;
      error := NO_ERROR;
      var savedShutdown := shutdown;
      shutdown := Nil;
      var savedHeaders := headers;
      headers := headers.(list := [], mimetype := Nil);
      var savedBody := body;
      body := NO_BODY;
      p := Request(savedOutput, savedRewriter, savedSid, savedError, savedShutdown,
                   slots, symbols, savedHeaders, savedBody, bridge);
    }

    method Take() returns (p: Request)
      requires Shaped(View())
      modifies this`output, this`rewriter, this`sid, this`error, this`shutdown, this`slots, this`headers, this`body,
               this`Acquired
      ensures p == Taken(old(View())) && View() == LeftBehind(old(View()))
      ensures Acquired == old(Acquired) + symbols
    {
      var savedSlots := TakeSlots();
      var savedSymbols := CopySymbols();
      p := TakeRest(savedSlots, savedSymbols);
    }

    /** Put all of a request but its arrays over what stands on the thread. */
    method PutRest(p: Request) returns (ghost gone: seq<Cell>)
      modifies this`output, this`rewriter, this`sid, this`error, this`shutdown, this`headers, this`body, this`bridge
      ensures View() == p.(slots := slots, symbols := symbols)
      ensures gone == GivenUpRest(old(View()))
    {
      gone := headers.list + [headers.mimetype, body.claim];
      headers, body := p.headers, p.body;
      gone := gone + output.handlers + [rewriter, sid, error.message, error.file];
      output, rewriter, sid := p.output, p.rewriter, p.sid;
      error := p.error;
      shutdown := p.shutdown;
      bridge := p.bridge;
    }

    method Put(p: Request)
      requires Shaped(View()) && Shaped(p)
      modifies this`output, this`rewriter, this`sid, this`error, this`shutdown, this`slots, this`symbols, this`headers,
               this`body, this`bridge, this`Freed
      ensures View() == PutBack(p, old(View())) && Freed == old(Freed) + GivenUp(old(View()))
    {
      ghost var backtraceGone := [error.backtrace];
      ghost var slotsGone := PutSlots(p.slots);
      ghost var symbolsGone := PutSymbols(p.symbols);
      ghost var restGone := PutRest(p);
      Freed := Freed + (backtraceGone + slotsGone + symbolsGone + restGone);
    }

    /** The request of fiber `f` parks. */
    method Save(f: Fiber)
      requires Shaped(View()) && f < |parked|
      modifies this
      ensures View() == LeftBehind(old(View()))
      ensures parked == old(parked)[f := Some(Taken(old(View())))]
      ensures Acquired == old(Acquired) + old(symbols) && Freed == old(Freed)
    {
      var p := Take();
      parked := parked[f := Some(p)];
    }

    /** The request of fiber `f` is about to resume. */
    method Restore(f: Fiber)
      requires Shaped(View()) && f < |parked| && parked[f].Some? && Shaped(parked[f].value)
      modifies this
      ensures View() == PutBack(old(parked)[f].value, old(View()))
      ensures parked == old(parked)[f := None]
      ensures Freed == old(Freed) + GivenUp(old(View())) && Acquired == old(Acquired)
    {
      Put(parked[f].value);
      parked := parked[f := None];
    }
  }
}
