/**
 What a request is filed as when it ends, and the breaker that counts failures in
 a row. A request's end is a row of windows in which user code runs; each files
 its own bailout, and a cancelled write leaves a claim that a later step answers.
 */
module Verdict {

  datatype Source = NoSource | InHandler | InShutdownFunction | FreeingFunctions | AfterHandler | RefusedToPark

  /** The flags a request carries. `timedOut` is its deadline's bit, once raised never lowered. */
  datatype Marks = Marks(
    failed: bool, threw: bool, cancelled: bool, drainKill: bool,
    claim: bool, fatal: bool, timedOut: bool, source: Source)

  const START := Marks(false, false, false, false, false, false, false, NoSource)

  datatype Event =
    | Fatal          // reported, and ends the code that raised it
    | Report         // an error of a fatal's kind, reported and carried on from
    | Claim          // a write that finds its request cancelled
    | Deadline
    | Interrupt      // any other cancellation, marked before it unwinds
    | DrainKill
    | Refusal        // the fiber ended for suspending itself once too often has stopped, and is filed
    | Throw

  /** What ran in a window, whether it bailed out, and what the recovery then ran. */
  datatype Window = Window(events: seq<Event>, bailed: bool, recovery: seq<Event>)

  /** A window past the flush, and the report of an exception it left. */
  datatype LateWindow = LateWindow(window: Window, reports: seq<Event>)

  datatype Request = Request(
    handler: Window, shutdown: Window, freeing: Window, reports: seq<Event>,
    flush: Window, flushReports: seq<Event>, late: seq<LateWindow>)

  // ─── One request ──────────────────────────────────────────

  /** A fault before it refuses a claim. */
  function Happened(m: Marks, e: Event): Marks {
    Marks(m.failed || e == Refusal, m.threw || e == Throw, m.cancelled || e == Interrupt, m.drainKill || e == DrainKill,
          m.claim || (e == Claim && !m.fatal), m.fatal || e == Fatal || e == Report, m.timedOut || e == Deadline,
          if e == Refusal then RefusedToPark else m.source)
  }

  predicate Has(es: seq<Event>, e: Event) {
    es != [] && (Has(es[..|es| - 1], e) || es[|es| - 1] == e)
  }

  function Ran(m: Marks, es: seq<Event>): Marks {
    if es == [] then m else Happened(Ran(m, es[..|es| - 1]), es[|es| - 1])
  }

  /** An error that a destructor reports while frames are given back is not the
      request's, unless one of them was a fatal. */
  function Recovered(m: Marks, es: seq<Event>): Marks {
    if Has(es, Fatal) then Ran(m, es) else Ran(m, es).(fatal := m.fatal)
  }

  function Bailed(m: Marks, cameApart: bool, source: Source, recovery: seq<Event>): Marks {
    Recovered(m.(cancelled := m.cancelled || (!cameApart && m.timedOut), failed := true,
                 source := if cameApart then m.source else source), recovery)
  }

  /** A window up to the flush: whether the request had come apart is asked before it runs. */
  function EarlyWindow(m: Marks, w: Window, source: Source): Marks {
    var r := Ran(m, w.events);
    if w.bailed then Bailed(r, m.failed, source, w.recovery) else r
  }

  function ClaimFiled(m: Marks): Marks {
    if m.claim then m.(claim := false, cancelled := m.cancelled || !m.fatal) else m
  }

  function Flushed(m: Marks, w: Window): Marks {
    var r := Ran(m, w.events);
    if w.bailed then Recovered(r, w.recovery).(claim := false) else r.(claim := false)
  }

  /** A window past the flush: that is asked as it is filed, and the claim is answered there. */
  function LateFiled(m: Marks, w: Window): Marks {
    var r := Ran(m, w.events);
    if w.bailed then ClaimFiled(Bailed(r, r.failed, AfterHandler, w.recovery)) else r
  }

  function LateAll(m: Marks, late: seq<LateWindow>): Marks {
    if late == [] then m else
      var n := |late| - 1;
      Ran(LateFiled(LateAll(m, late[..n]), late[n].window), late[n].reports)
  }

  /** The request up to its flush, entered with the marks `m`. */
  function BeforeFlush(m: Marks, r: Request): Marks {
    var handled := EarlyWindow(m, r.handler, InHandler);
    var shut := EarlyWindow(handled, r.shutdown, InShutdownFunction);
    var freed := EarlyWindow(shut, r.freeing, FreeingFunctions);
    ClaimFiled(Ran(freed, r.reports))
  }

  function AfterFlush(m: Marks, r: Request): Marks {
    Ran(Flushed(BeforeFlush(m, r), r.flush), r.flushReports)
  }

  function FiledFrom(m: Marks, r: Request): Marks {
    LateAll(AfterFlush(m, r), r.late)
  }

  /** What the request is filed as. */
  function Filed(r: Request): Marks {
    FiledFrom(START, r)
  }

  // ─── What events leave behind ─────────────────────────────

  predicate Faults(es: seq<Event>) {
    Has(es, Fatal) || Has(es, Report)
  }

  /** Whether a claim among the events takes hold: a fault before it refuses it. */
  predicate Takes(es: seq<Event>) {
    es != [] && (Takes(es[..|es| - 1]) || (es[|es| - 1] == Claim && !Faults(es[..|es| - 1])))
  }

  lemma {:induction false} RanLeaves(m: Marks, es: seq<Event>)
    ensures Ran(m, es).fatal <==> m.fatal || Faults(es)
    ensures Ran(m, es).claim <==> m.claim || (!m.fatal && Takes(es))
    ensures Ran(m, es).timedOut <==> m.timedOut || Has(es, Deadline)
    ensures Ran(m, es).cancelled <==> m.cancelled || Has(es, Interrupt)
    ensures Ran(m, es).failed <==> m.failed || Has(es, Refusal)
  {
    if es != [] {
      var p, e := es[..|es| - 1], es[|es| - 1];
      RanLeaves(m, p);
      assert Ran(m, es) == Happened(Ran(m, p), e);
      assert Faults(es) <==> Faults(p) || e == Fatal || e == Report;
      assert Takes(es) <==> Takes(p) || (e == Claim && !Faults(p));
      assert Has(es, Deadline) <==> Has(p, Deadline) || e == Deadline;
      assert Has(es, Interrupt) <==> Has(p, Interrupt) || e == Interrupt;
      assert Has(es, Refusal) <==> Has(p, Refusal) || e == Refusal;
    }
  }

  lemma {:induction false} TakesMeans(es: seq<Event>)
    ensures Takes(es) ==> Has(es, Claim)
    ensures !Faults(es) && Has(es, Claim) ==> Takes(es)
  {
    if es != [] {
      TakesMeans(es[..|es| - 1]);
    }
  }

  /** A window's own fault, and its own claim. */
  predicate FaultsIn(w: Window) {
    Faults(w.events) || (w.bailed && Has(w.recovery, Fatal))
  }

  predicate TakesIn(w: Window) {
    Takes(w.events) || (w.bailed && !Faults(w.events) && Takes(w.recovery))
  }

  predicate HasIn(w: Window, e: Event) {
    Has(w.events, e) || (w.bailed && Has(w.recovery, e))
  }

  lemma RecoveredLeaves(m: Marks, es: seq<Event>)
    ensures var r := Recovered(m, es);
            && (r.failed <==> m.failed || Has(es, Refusal))
            && (r.fatal <==> m.fatal || Has(es, Fatal))
            && (r.claim <==> m.claim || (!m.fatal && Takes(es)))
            && (r.timedOut <==> m.timedOut || Has(es, Deadline))
            && (r.cancelled <==> m.cancelled || Has(es, Interrupt))
  {
    RanLeaves(m, es);
  }

  lemma BailedLeaves(m: Marks, cameApart: bool, source: Source, recovery: seq<Event>)
    ensures var r := Bailed(m, cameApart, source, recovery);
            && r.failed
            && (r.fatal <==> m.fatal || Has(recovery, Fatal))
            && (r.claim <==> m.claim || (!m.fatal && Takes(recovery)))
            && (r.timedOut <==> m.timedOut || Has(recovery, Deadline))
            && (r.cancelled <==> m.cancelled || (!cameApart && m.timedOut) || Has(recovery, Interrupt))
  {
    RecoveredLeaves(m.(cancelled := m.cancelled || (!cameApart && m.timedOut), failed := true,
                       source := if cameApart then m.source else source), recovery);
  }

  lemma EarlyLeaves(m: Marks, w: Window, source: Source)
    ensures var r := EarlyWindow(m, w, source);
            && (r.failed <==> m.failed || Has(w.events, Refusal) || w.bailed)
            && (r.fatal <==> m.fatal || FaultsIn(w))
            && (r.claim <==> m.claim || (!m.fatal && TakesIn(w)))
            && (r.timedOut <==> m.timedOut || HasIn(w, Deadline))
            && (r.cancelled <==>
                  || m.cancelled || HasIn(w, Interrupt)
                  || (w.bailed && !m.failed && (m.timedOut || Has(w.events, Deadline))))
  {
    RanLeaves(m, w.events);
    BailedLeaves(Ran(m, w.events), m.failed, source, w.recovery);
  }

  // ─── When a request is filed as cancelled ─────────────────

  /** A window's own failure. A refusal in the recovery adds nothing: the window has bailed out. */
  predicate FailsIn(w: Window) {
    w.bailed || Has(w.events, Refusal)
  }

  predicate LateMeets(late: seq<LateWindow>, e: Event) {
    late != [] &&
    var n := |late| - 1;
    LateMeets(late[..n], e) || HasIn(late[n].window, e) || Has(late[n].reports, e)
  }

  predicate MeetsBefore(r: Request, e: Event) {
    HasIn(r.handler, e) || HasIn(r.shutdown, e) || HasIn(r.freeing, e) || Has(r.reports, e)
  }

  /** The event occurs somewhere in the request. */
  predicate Meets(r: Request, e: Event) {
    MeetsBefore(r, e) || HasIn(r.flush, e) || Has(r.flushReports, e) || LateMeets(r.late, e)
  }

  /** No fault from the start of the request to the end of its own work. */
  predicate QuietBefore(r: Request) {
    !FaultsIn(r.handler) && !FaultsIn(r.shutdown) && !FaultsIn(r.freeing) && !Faults(r.reports)
  }

  predicate ClaimedBefore(r: Request) {
    TakesIn(r.handler) || TakesIn(r.shutdown) || TakesIn(r.freeing) || Takes(r.reports)
  }

  predicate FailedBefore(r: Request) {
    FailsIn(r.handler) || FailsIn(r.shutdown) || FailsIn(r.freeing) || Has(r.reports, Refusal)
  }

  /** The first window to fail, up to the flush, bails out with the deadline run out. */
  predicate ExcusedBefore(r: Request) {
    || (r.handler.bailed && Has(r.handler.events, Deadline))
    || (&& r.shutdown.bailed && !FailsIn(r.handler)
        && (HasIn(r.handler, Deadline) || Has(r.shutdown.events, Deadline)))
    || (&& r.freeing.bailed && !FailsIn(r.handler) && !FailsIn(r.shutdown)
        && (HasIn(r.handler, Deadline) || HasIn(r.shutdown, Deadline) || Has(r.freeing.events, Deadline)))
  }

  lemma BeforeFlushLeaves(r: Request)
    ensures var b := BeforeFlush(START, r);
            && !b.claim && (b.fatal <==> !QuietBefore(r))
            && (b.failed <==> FailedBefore(r)) && (b.timedOut <==> MeetsBefore(r, Deadline))
            && (b.cancelled <==>
                  (QuietBefore(r) && ClaimedBefore(r)) || ExcusedBefore(r) || MeetsBefore(r, Interrupt))
  {
    var handled := EarlyWindow(START, r.handler, InHandler);
    var shut := EarlyWindow(handled, r.shutdown, InShutdownFunction);
    EarlyLeaves(START, r.handler, InHandler);
    EarlyLeaves(handled, r.shutdown, InShutdownFunction);
    EarlyLeaves(shut, r.freeing, FreeingFunctions);
    RanLeaves(EarlyWindow(shut, r.freeing, FreeingFunctions), r.reports);
  }

  lemma FlushedLeaves(m: Marks, w: Window)
    ensures var r := Flushed(m, w);
            && !r.claim
            && (r.fatal <==> m.fatal || FaultsIn(w))
            && (r.timedOut <==> m.timedOut || HasIn(w, Deadline))
            && (r.cancelled <==> m.cancelled || HasIn(w, Interrupt))
            && (r.failed <==> m.failed || HasIn(w, Refusal))
  {
    RanLeaves(m, w.events);
    if w.bailed {
      RecoveredLeaves(Ran(m, w.events), w.recovery);
    }
  }

  predicate FailedByFlush(r: Request) {
    FailedBefore(r) || HasIn(r.flush, Refusal) || Has(r.flushReports, Refusal)
  }

  predicate TimedByFlush(r: Request) {
    MeetsBefore(r, Deadline) || HasIn(r.flush, Deadline) || Has(r.flushReports, Deadline)
  }

  lemma AfterFlushLeaves(r: Request)
    ensures var b, a := BeforeFlush(START, r), AfterFlush(START, r);
            && (a.cancelled <==> b.cancelled || HasIn(r.flush, Interrupt) || Has(r.flushReports, Interrupt))
            && (a.fatal <==> b.fatal || FaultsIn(r.flush) || Faults(r.flushReports))
            && (a.claim <==> !b.fatal && !FaultsIn(r.flush) && Takes(r.flushReports))
            && (a.failed <==> FailedByFlush(r)) && (a.timedOut <==> TimedByFlush(r))
  {
    BeforeFlushLeaves(r);
    var b := BeforeFlush(START, r);
    FlushedLeaves(b, r.flush);
    RanLeaves(Flushed(b, r.flush), r.flushReports);
  }

  /** Past the flush: no fault so far, and some claim so far. */
  predicate LateQuiet(fatal: bool, late: seq<LateWindow>) {
    if late == [] then !fatal else
      var n := |late| - 1;
      LateQuiet(fatal, late[..n]) && !FaultsIn(late[n].window) && !Faults(late[n].reports)
  }

  predicate LateClaimed(claim: bool, late: seq<LateWindow>) {
    if late == [] then claim else
      var n := |late| - 1;
      LateClaimed(claim, late[..n]) || TakesIn(late[n].window) || Takes(late[n].reports)
  }

  /** Some window past the flush bails out with a claim standing and no fault up to there. */
  predicate LateStands(fatal: bool, claim: bool, late: seq<LateWindow>) {
    late != [] &&
    var n := |late| - 1;
    || LateStands(fatal, claim, late[..n])
    || (&& late[n].window.bailed && LateQuiet(fatal, late[..n]) && !FaultsIn(late[n].window)
        && (LateClaimed(claim, late[..n]) || TakesIn(late[n].window)))
  }

  predicate LateFailed(failed: bool, late: seq<LateWindow>) {
    if late == [] then failed else
      var n := |late| - 1;
      LateFailed(failed, late[..n]) || FailsIn(late[n].window) || Has(late[n].reports, Refusal)
  }

  /** Some window past the flush is the first to fail, and bails out with the deadline run out. */
  predicate LateExcused(failed: bool, timed: bool, late: seq<LateWindow>) {
    late != [] &&
    var n := |late| - 1;
    || LateExcused(failed, timed, late[..n])
    || (&& late[n].window.bailed && !LateFailed(failed, late[..n]) && !Has(late[n].window.events, Refusal)
        && (timed || LateMeets(late[..n], Deadline) || Has(late[n].window.events, Deadline)))
  }

  lemma LateFiledLeaves(m: Marks, w: Window)
    ensures var r := LateFiled(m, w);
            && (r.failed <==> m.failed || FailsIn(w))
            && (r.timedOut <==> m.timedOut || HasIn(w, Deadline))
            && (r.fatal <==> m.fatal || FaultsIn(w))
            && (r.claim <==> !w.bailed && (m.claim || (!m.fatal && TakesIn(w))))
            && (r.cancelled <==>
                  || m.cancelled || HasIn(w, Interrupt)
                  || (w.bailed && !m.fatal && !FaultsIn(w) && (m.claim || TakesIn(w)))
                  || (w.bailed && !m.failed && !Has(w.events, Refusal) && (m.timedOut || Has(w.events, Deadline))))
  {
    RanLeaves(m, w.events);
    if w.bailed {
      var r := Ran(m, w.events);
      BailedLeaves(r, r.failed, AfterHandler, w.recovery);
    }
  }

  lemma {:induction false} LateLeaves(m: Marks, late: seq<LateWindow>)
    ensures var r := LateAll(m, late);
            && (r.failed <==> LateFailed(m.failed, late))
            && (r.timedOut <==> m.timedOut || LateMeets(late, Deadline))
            && (r.fatal <==> !LateQuiet(m.fatal, late))
            && (LateQuiet(m.fatal, late) && !LateStands(m.fatal, m.claim, late) ==> (r.claim <==> LateClaimed(m.claim, late)))
            && (r.cancelled <==>
                  || m.cancelled || LateMeets(late, Interrupt)
                  || LateStands(m.fatal, m.claim, late) || LateExcused(m.failed, m.timedOut, late))
  {
    if late != [] {
      var n := |late| - 1;
      LateLeaves(m, late[..n]);
      LateFiledLeaves(LateAll(m, late[..n]), late[n].window);
      RanLeaves(LateFiled(LateAll(m, late[..n]), late[n].window), late[n].reports);
    }
  }

  /** A claim makes the request neutral: raised in its own work with no fault reported by
      the end of that work; or raised past the flush, in a window that then bailed out or
      before it, with no fault since the request began. A claim raised in the flush does neither. */
  predicate ClaimStands(r: Request) {
    var quiet := QuietBefore(r) && !FaultsIn(r.flush);
    || (QuietBefore(r) && ClaimedBefore(r))
    || LateStands(!quiet || Faults(r.flushReports), quiet && Takes(r.flushReports), r.late)
  }

  /** A deadline makes it neutral: the first window to fail is the one that it ended. */
  predicate DeadlineExcuses(r: Request) {
    ExcusedBefore(r) || LateExcused(FailedByFlush(r), TimedByFlush(r), r.late)
  }

  /** Any request, whatever meets in it, is filed as cancelled exactly when a claim stands,
      or a deadline excuses it, or some other cancellation interrupted it. */
  lemma CancelledIff(r: Request)
    ensures Filed(r).cancelled <==> ClaimStands(r) || DeadlineExcuses(r) || Meets(r, Interrupt)
  {
    BeforeFlushLeaves(r);
    AfterFlushLeaves(r);
    LateLeaves(AfterFlush(START, r), r.late);
  }

  // ─── A deadline excuses no earlier failure ────────────────

  const NOTHING := Window([], false, [])

  /** The same code with its deadlines never running out. */
  function Timeless(es: seq<Event>): seq<Event> {
    if es == [] then [] else
      var rest := Timeless(es[..|es| - 1]);
      if es[|es| - 1] == Deadline then rest else rest + [es[|es| - 1]]
  }

  function TimelessWindow(w: Window): Window {
    Window(Timeless(w.events), w.bailed, Timeless(w.recovery))
  }

  function TimelessLate(late: seq<LateWindow>): (r: seq<LateWindow>)
    ensures |r| == |late|
  {
    if late == [] then [] else
      var n := |late| - 1;
      TimelessLate(late[..n]) + [LateWindow(TimelessWindow(late[n].window), Timeless(late[n].reports))]
  }

  function TimelessRequest(r: Request): Request {
    Request(TimelessWindow(r.handler), TimelessWindow(r.shutdown), TimelessWindow(r.freeing), Timeless(r.reports),
            TimelessWindow(r.flush), Timeless(r.flushReports), TimelessLate(r.late))
  }

  /** The same marks, but for the deadline's bit. */
  predicate Same(m: Marks, n: Marks) {
    n == m.(timedOut := n.timedOut)
  }

  lemma {:induction false} HasTimeless(es: seq<Event>, e: Event)
    requires e != Deadline
    ensures Has(Timeless(es), e) <==> Has(es, e)
  {
    if es != [] {
      var rest, last := Timeless(es[..|es| - 1]), es[|es| - 1];
      HasTimeless(es[..|es| - 1], e);
      assert (rest + [last])[..|rest|] == rest;
    }
  }

  lemma {:induction false} RanTimeless(m: Marks, n: Marks, es: seq<Event>)
    requires Same(m, n)
    ensures Same(Ran(m, es), Ran(n, Timeless(es)))
  {
    if es != [] {
      var rest, last := Timeless(es[..|es| - 1]), es[|es| - 1];
      RanTimeless(m, n, es[..|es| - 1]);
      assert (rest + [last])[..|rest|] == rest;
    }
  }

  lemma RecoveredTimeless(m: Marks, n: Marks, es: seq<Event>)
    requires Same(m, n)
    ensures Same(Recovered(m, es), Recovered(n, Timeless(es)))
  {
    RanTimeless(m, n, es);
    HasTimeless(es, Fatal);
  }

  /** Filing a bailout of what had come apart does not ask about the deadline; nor does it
      matter to what has not run out of one. */
  lemma BailedTimeless(m: Marks, n: Marks, cameApart: bool, source: Source, recovery: seq<Event>)
    requires Same(m, n) && (cameApart || (!m.timedOut && !n.timedOut))
    ensures Same(Bailed(m, cameApart, source, recovery), Bailed(n, cameApart, source, Timeless(recovery)))
  {
    var where := if cameApart then m.source else source;
    RecoveredTimeless(m.(failed := true, source := where), n.(failed := true, source := where), recovery);
  }

  lemma EarlyTimeless(m: Marks, n: Marks, w: Window, source: Source)
    requires Same(m, n) && m.failed
    ensures Same(EarlyWindow(m, w, source), EarlyWindow(n, TimelessWindow(w), source))
    ensures EarlyWindow(m, w, source).failed
  {
    RanTimeless(m, n, w.events);
    EarlyLeaves(m, w, source);
    if w.bailed {
      BailedTimeless(Ran(m, w.events), Ran(n, Timeless(w.events)), true, source, w.recovery);
    }
  }

  lemma FlushedTimeless(m: Marks, n: Marks, w: Window)
    requires Same(m, n)
    ensures Same(Flushed(m, w), Flushed(n, TimelessWindow(w)))
  {
    RanTimeless(m, n, w.events);
    if w.bailed {
      RecoveredTimeless(Ran(m, w.events), Ran(n, Timeless(w.events)), w.recovery);
    }
  }

  lemma LateTimeless(m: Marks, n: Marks, w: Window)
    requires Same(m, n) && m.failed
    ensures Same(LateFiled(m, w), LateFiled(n, TimelessWindow(w))) && LateFiled(m, w).failed
  {
    RanTimeless(m, n, w.events);
    LateFiledLeaves(m, w);
    RanLeaves(m, w.events);
    if w.bailed {
      BailedTimeless(Ran(m, w.events), Ran(n, Timeless(w.events)), true, AfterHandler, w.recovery);
    }
  }

  lemma {:induction false} LateAllTimeless(m: Marks, n: Marks, late: seq<LateWindow>)
    requires Same(m, n) && m.failed
    ensures Same(LateAll(m, late), LateAll(n, TimelessLate(late))) && LateAll(m, late).failed
  {
    if late != [] {
      var k, t := |late| - 1, TimelessLate(late);
      var mk, nk := LateAll(m, late[..k]), LateAll(n, TimelessLate(late[..k]));
      LateAllTimeless(m, n, late[..k]);
      assert t[..k] == TimelessLate(late[..k]);
      LateTimeless(mk, nk, late[k].window);
      RanTimeless(LateFiled(mk, late[k].window), LateFiled(nk, TimelessWindow(late[k].window)), late[k].reports);
      RanLeaves(LateFiled(mk, late[k].window), late[k].reports);
    }
  }

  lemma BeforeFlushTimeless(m: Marks, n: Marks, r: Request)
    requires Same(m, n) && m.failed && r.handler == NOTHING
    ensures Same(BeforeFlush(m, r), BeforeFlush(n, TimelessRequest(r))) && BeforeFlush(m, r).failed
  {
    NothingRan(m, InHandler);
    NothingRan(n, InHandler);
    var s, s' := EarlyWindow(m, r.shutdown, InShutdownFunction), EarlyWindow(n, TimelessWindow(r.shutdown), InShutdownFunction);
    EarlyTimeless(m, n, r.shutdown, InShutdownFunction);
    var f, f' := EarlyWindow(s, r.freeing, FreeingFunctions), EarlyWindow(s', TimelessWindow(r.freeing), FreeingFunctions);
    EarlyTimeless(s, s', r.freeing, FreeingFunctions);
    RanTimeless(f, f', r.reports);
    RanLeaves(f, r.reports);
  }

  /** Whatever follows a failure that is filed, claims and cancellations included, every
      mark but the deadline's own bit comes out as if no deadline had run out since: a
      deadline in a later window excuses nothing. No request enters its handler failed. */
  lemma EarlierFailureStands(m: Marks, n: Marks, r: Request)
    requires Same(m, n) && m.failed && r.handler == NOTHING
    ensures Same(FiledFrom(m, r), FiledFrom(n, TimelessRequest(r))) && FiledFrom(m, r).failed
    ensures OutcomeOf(FiledFrom(m, r)) == OutcomeOf(FiledFrom(n, TimelessRequest(r)))
  {
    var b, c := BeforeFlush(m, r), BeforeFlush(n, TimelessRequest(r));
    BeforeFlushTimeless(m, n, r);
    FlushedTimeless(b, c, r.flush);
    FlushedLeaves(b, r.flush);
    RanTimeless(Flushed(b, r.flush), Flushed(c, TimelessWindow(r.flush)), r.flushReports);
    RanLeaves(Flushed(b, r.flush), r.flushReports);
    LateAllTimeless(AfterFlush(m, r), AfterFlush(n, TimelessRequest(r)), r.late);
  }

  lemma NothingRan(m: Marks, source: Source)
    ensures EarlyWindow(m, NOTHING, source) == m && TimelessWindow(NOTHING) == NOTHING
  {
  }

  /** A window that bails out before any deadline runs out is filed without asking about one. */
  lemma EarlyUntimed(m: Marks, n: Marks, w: Window, source: Source)
    requires Same(m, n) && !m.timedOut && !n.timedOut && !Has(w.events, Deadline)
    ensures Same(EarlyWindow(m, w, source), EarlyWindow(n, TimelessWindow(w), source))
  {
    RanTimeless(m, n, w.events);
    RanLeaves(m, w.events);
    RanLeaves(n, Timeless(w.events));
    TimelessHasNone(w.events);
    if w.bailed {
      BailedTimeless(Ran(m, w.events), Ran(n, Timeless(w.events)), m.failed, source, w.recovery);
    }
  }

  lemma {:induction false} TimelessHasNone(es: seq<Event>)
    ensures !Has(Timeless(es), Deadline)
  {
    if es != [] {
      var rest, last := Timeless(es[..|es| - 1]), es[|es| - 1];
      TimelessHasNone(es[..|es| - 1]);
      assert (rest + [last])[..|rest|] == rest;
    }
  }

  /** So a handler that came apart before its deadline is filed as if it had had none,
      however late the deadline runs out, and whatever else meets the request; and so is
      a shutdown function. */
  lemma HandlerFailureStands(r: Request)
    requires r.handler.bailed && !Has(r.handler.events, Deadline)
    ensures Same(Filed(r), Filed(TimelessRequest(r))) && Filed(r).failed
    ensures OutcomeOf(Filed(r)) == OutcomeOf(Filed(TimelessRequest(r)))
  {
    var m, n := EarlyWindow(START, r.handler, InHandler), EarlyWindow(START, TimelessWindow(r.handler), InHandler);
    var rest := r.(handler := NOTHING);
    EarlyUntimed(START, START, r.handler, InHandler);
    EarlyLeaves(START, r.handler, InHandler);
    NothingRan(m, InHandler);
    NothingRan(n, InHandler);
    EarlierFailureStands(m, n, rest);
    assert FiledFrom(m, rest) == Filed(r);
    assert FiledFrom(n, TimelessRequest(rest)) == Filed(TimelessRequest(r));
  }

  lemma ShutdownFailureStands(r: Request)
    requires r.shutdown.bailed && !HasIn(r.handler, Deadline) && !Has(r.shutdown.events, Deadline)
    ensures Same(Filed(r), Filed(TimelessRequest(r))) && Filed(r).failed
    ensures OutcomeOf(Filed(r)) == OutcomeOf(Filed(TimelessRequest(r)))
  {
    var t := TimelessRequest(r);
    var h, h' := EarlyWindow(START, r.handler, InHandler), EarlyWindow(START, t.handler, InHandler);
    var m, n := EarlyWindow(h, r.shutdown, InShutdownFunction), EarlyWindow(h', t.shutdown, InShutdownFunction);
    var rest := r.(handler := NOTHING, shutdown := NOTHING);
    EarlyUntimed(START, START, r.handler, InHandler);
    EarlyLeaves(START, r.handler, InHandler);
    EarlyLeaves(START, t.handler, InHandler);
    TimelessHasNone(r.handler.events);
    TimelessHasNone(r.handler.recovery);
    EarlyUntimed(h, h', r.shutdown, InShutdownFunction);
    EarlyLeaves(h, r.shutdown, InShutdownFunction);
    NothingRan(m, InHandler);
    NothingRan(n, InHandler);
    NothingRan(m, InShutdownFunction);
    NothingRan(n, InShutdownFunction);
    EarlierFailureStands(m, n, rest);
    assert FiledFrom(m, rest) == Filed(r);
    assert FiledFrom(n, TimelessRequest(rest)) == Filed(t);
  }

  /** A request ended for suspending itself once too often is filed only when its fiber
      stops, and every window it still runs until then is filed as if nothing had failed.
      Where it stops at the end of all of them, what excuses it is what would excuse a
      request that was never ended: a deadline in any later window among it. */
  lemma RefusedRequestIff(r: Request)
    ensures var m := Happened(Filed(r), Refusal);
            && m.failed && m.source == RefusedToPark
            && (m.cancelled <==> ClaimStands(r) || DeadlineExcuses(r) || Meets(r, Interrupt))
            && (OutcomeOf(m) == Counted <==> !Excused(r))
  {
    CancelledIff(r);
    FiledMarks(r);
  }

  /** The handler is ended without parking again, and a shutdown function runs out of time. */
  lemma LaterDeadlineExcusesRefusal()
    ensures var m := Filed(Request(NOTHING, Window([Deadline], true, []), NOTHING, [], NOTHING, [],
                                   [LateWindow(NOTHING, [Refusal])]));
            m.failed && m.source == RefusedToPark && OutcomeOf(m) == Neutral
  {
    var w, last := Window([Deadline], true, []), LateWindow(NOTHING, [Refusal]);
    var r := Request(NOTHING, w, NOTHING, [], NOTHING, [], []);
    assert [last][..0] == [] && [Refusal][..0] == [];
    assert Filed(r.(late := [last])) == Happened(Filed(r), Refusal);
    RefusedRequestIff(r);
    assert Has(w.events, Deadline);
  }

  /** Where it stops within a window, parked again, and that window then bails out: up to
      the flush a deadline excuses it, since the question is asked before the window runs,
      and past the flush none does, since it is asked as the window is filed. */
  lemma RefusalIsExcusedIff(m: Marks, w: Window, source: Source)
    requires !m.failed && Has(w.events, Refusal)
    ensures EarlyWindow(m, w, source).failed && LateFiled(m, w).failed
    ensures EarlyWindow(m, w, source).cancelled <==>
      m.cancelled || HasIn(w, Interrupt) || (w.bailed && (m.timedOut || Has(w.events, Deadline)))
    ensures LateFiled(m, w).cancelled <==>
      m.cancelled || HasIn(w, Interrupt) || (w.bailed && !m.fatal && !FaultsIn(w) && (m.claim || TakesIn(w)))
  {
    EarlyLeaves(m, w, source);
    LateFiledLeaves(m, w);
  }

  lemma RefusalExcused()
    ensures Has([Refusal, Deadline], Refusal)
    ensures var w := Window([Refusal, Deadline], true, []);
            Filed(Request(w, NOTHING, NOTHING, [], NOTHING, [], [])).cancelled
  {
    assert [Refusal, Deadline][..1] == [Refusal];
    assert Has([Refusal], Refusal);
    var w := Window([Refusal, Deadline], true, []);
    EarlyLeaves(START, w, InHandler);
  }

  // ─── What a request counts as ─────────────────────────────

  /** The two marks that only events leave. */
  lemma {:induction false} RanMarks(m: Marks, es: seq<Event>)
    ensures Ran(m, es).drainKill <==> m.drainKill || Has(es, DrainKill)
    ensures Ran(m, es).threw <==> m.threw || Has(es, Throw)
  {
    if es != [] {
      RanMarks(m, es[..|es| - 1]);
      assert Has(es, DrainKill) <==> Has(es[..|es| - 1], DrainKill) || es[|es| - 1] == DrainKill;
      assert Has(es, Throw) <==> Has(es[..|es| - 1], Throw) || es[|es| - 1] == Throw;
    }
  }

  predicate Marked(m: Marks, w: Window, n: Marks) {
    (n.drainKill <==> m.drainKill || HasIn(w, DrainKill)) && (n.threw <==> m.threw || HasIn(w, Throw))
  }

  lemma BailedMarks(m: Marks, cameApart: bool, source: Source, recovery: seq<Event>)
    ensures var r := Bailed(m, cameApart, source, recovery);
            (r.drainKill <==> m.drainKill || Has(recovery, DrainKill)) && (r.threw <==> m.threw || Has(recovery, Throw))
  {
    RanMarks(m.(cancelled := m.cancelled || (!cameApart && m.timedOut), failed := true,
                source := if cameApart then m.source else source), recovery);
  }

  lemma EarlyMarks(m: Marks, w: Window, source: Source)
    ensures Marked(m, w, EarlyWindow(m, w, source))
  {
    RanMarks(m, w.events);
    BailedMarks(Ran(m, w.events), m.failed, source, w.recovery);
  }

  lemma FlushMarks(m: Marks, w: Window)
    ensures Marked(m, w, Flushed(m, w))
  {
    RanMarks(m, w.events);
    RanMarks(Ran(m, w.events), w.recovery);
  }

  lemma LateWindowMarks(m: Marks, w: Window)
    ensures Marked(m, w, LateFiled(m, w))
  {
    var r := Ran(m, w.events);
    RanMarks(m, w.events);
    BailedMarks(r, r.failed, AfterHandler, w.recovery);
  }

  lemma {:induction false} LateMarks(m: Marks, late: seq<LateWindow>)
    ensures var r := LateAll(m, late);
            (r.drainKill <==> m.drainKill || LateMeets(late, DrainKill)) && (r.threw <==> m.threw || LateMeets(late, Throw))
  {
    if late != [] {
      var n := |late| - 1;
      var p := LateAll(m, late[..n]);
      LateMarks(m, late[..n]);
      LateWindowMarks(p, late[n].window);
      RanMarks(LateFiled(p, late[n].window), late[n].reports);
    }
  }

  lemma BeforeFlushMarks(r: Request)
    ensures var b := BeforeFlush(START, r);
            (b.drainKill <==> MeetsBefore(r, DrainKill)) && (b.threw <==> MeetsBefore(r, Throw))
  {
    var handled := EarlyWindow(START, r.handler, InHandler);
    var shut := EarlyWindow(handled, r.shutdown, InShutdownFunction);
    EarlyMarks(START, r.handler, InHandler);
    EarlyMarks(handled, r.shutdown, InShutdownFunction);
    EarlyMarks(shut, r.freeing, FreeingFunctions);
    RanMarks(EarlyWindow(shut, r.freeing, FreeingFunctions), r.reports);
  }

  lemma FiledMarks(r: Request)
    ensures (Filed(r).drainKill <==> Meets(r, DrainKill)) && (Filed(r).threw <==> Meets(r, Throw))
  {
    BeforeFlushMarks(r);
    FlushMarks(BeforeFlush(START, r), r.flush);
    RanMarks(Flushed(BeforeFlush(START, r), r.flush), r.flushReports);
    LateMarks(AfterFlush(START, r), r.late);
  }

  /** Some window bails out, but for the flush, or an ended fiber is filed. */
  predicate Fails(r: Request) {
    LateFailed(FailedByFlush(r), r.late)
  }

  /** Ended or given up by the server or its client, so that it says nothing of the worker. */
  predicate Excused(r: Request) {
    Meets(r, DrainKill) || ClaimStands(r) || DeadlineExcuses(r) || Meets(r, Interrupt)
  }

  /** What every request counts as, read off what happened in it. */
  lemma OutcomeIs(r: Request)
    ensures OutcomeOf(Filed(r)) == Counted <==> Fails(r) && !Excused(r)
    ensures OutcomeOf(Filed(r)) == Clean <==> !Fails(r) && !Excused(r) && !Meets(r, Throw)
    ensures OutcomeOf(Filed(r)) == Neutral <==> Excused(r) || (!Fails(r) && Meets(r, Throw))
  {
    CancelledIff(r);
    FiledMarks(r);
    AfterFlushLeaves(r);
    LateLeaves(AfterFlush(START, r), r.late);
  }

  lemma {:induction false} RanSource(m: Marks, es: seq<Event>)
    requires !Has(es, Refusal)
    ensures Ran(m, es).source == m.source && Ran(m, es).failed == m.failed
  {
    if es != [] {
      RanSource(m, es[..|es| - 1]);
    }
  }

  /** The source after a window: its own if it is the first to fail. */
  predicate Names(m: Marks, w: Window, source: Source, n: Marks) {
    n.failed == (m.failed || w.bailed) && n.source == if m.failed || !w.bailed then m.source else source
  }

  lemma BailedSource(m: Marks, cameApart: bool, source: Source, recovery: seq<Event>)
    requires !Has(recovery, Refusal)
    ensures var r := Bailed(m, cameApart, source, recovery);
            r.failed && r.source == if cameApart then m.source else source
  {
    RanSource(m.(cancelled := m.cancelled || (!cameApart && m.timedOut), failed := true,
                 source := if cameApart then m.source else source), recovery);
  }

  lemma EarlySource(m: Marks, w: Window, source: Source)
    requires !HasIn(w, Refusal)
    ensures Names(m, w, source, EarlyWindow(m, w, source))
  {
    RanSource(m, w.events);
    if w.bailed {
      BailedSource(Ran(m, w.events), m.failed, source, w.recovery);
    }
  }

  lemma FlushSource(m: Marks, w: Window)
    requires !HasIn(w, Refusal)
    ensures Flushed(m, w).source == m.source && Flushed(m, w).failed == m.failed
  {
    RanSource(m, w.events);
    if w.bailed {
      RanSource(Ran(m, w.events), w.recovery);
    }
  }

  lemma LateWindowSource(m: Marks, w: Window)
    requires !HasIn(w, Refusal)
    ensures Names(m, w, AfterHandler, LateFiled(m, w))
  {
    var r := Ran(m, w.events);
    RanSource(m, w.events);
    if w.bailed {
      BailedSource(r, r.failed, AfterHandler, w.recovery);
    }
  }

  predicate LateBails(late: seq<LateWindow>) {
    exists i :: 0 <= i < |late| && late[i].window.bailed
  }

  lemma LateBailsNext(late: seq<LateWindow>)
    requires late != []
    ensures LateBails(late) <==> LateBails(late[..|late| - 1]) || late[|late| - 1].window.bailed
  {
    var n := |late| - 1;
    if i :| 0 <= i < n && late[..n][i].window.bailed {
      assert late[i].window.bailed;
    }
    if i :| 0 <= i < |late| && late[i].window.bailed && i < n {
      assert late[..n][i].window.bailed;
    }
  }

  lemma {:induction false} LateSource(m: Marks, late: seq<LateWindow>)
    requires !LateMeets(late, Refusal)
    ensures var r := LateAll(m, late);
            && r.failed == (m.failed || LateBails(late))
            && r.source == if m.failed || !LateBails(late) then m.source else AfterHandler
  {
    if late != [] {
      var n := |late| - 1;
      LateBailsNext(late);
      LateSource(m, late[..n]);
      LateWindowSource(LateAll(m, late[..n]), late[n].window);
      RanSource(LateFiled(LateAll(m, late[..n]), late[n].window), late[n].reports);
    }
  }

  lemma BeforeFlushSource(r: Request)
    requires !MeetsBefore(r, Refusal)
    ensures var b := BeforeFlush(START, r);
            && b.failed == (r.handler.bailed || r.shutdown.bailed || r.freeing.bailed)
            && b.source == if r.handler.bailed then InHandler else if r.shutdown.bailed then InShutdownFunction
                           else if r.freeing.bailed then FreeingFunctions else NoSource
  {
    var handled := EarlyWindow(START, r.handler, InHandler);
    var shut := EarlyWindow(handled, r.shutdown, InShutdownFunction);
    EarlySource(START, r.handler, InHandler);
    EarlySource(handled, r.shutdown, InShutdownFunction);
    EarlySource(shut, r.freeing, FreeingFunctions);
    RanSource(EarlyWindow(shut, r.freeing, FreeingFunctions), r.reports);
  }

  /** The failure that the log names is the first: of a request that no refusal ended, the
      first of its windows to bail out, the flush left out. */
  lemma FirstFailureIsNamed(r: Request)
    requires !Meets(r, Refusal)
    ensures Filed(r).source == if r.handler.bailed then InHandler else if r.shutdown.bailed then InShutdownFunction
                               else if r.freeing.bailed then FreeingFunctions
                               else if LateBails(r.late) then AfterHandler else NoSource
  {
    var b := BeforeFlush(START, r);
    BeforeFlushSource(r);
    FlushSource(b, r.flush);
    RanSource(Flushed(b, r.flush), r.flushReports);
    LateSource(AfterFlush(START, r), r.late);
  }

  // ─── The breaker ──────────────────────────────────────────

  const MAX_CONSECUTIVE_ERRORS: nat := 3

  datatype Outcome = Clean | Counted | Neutral

  function OutcomeOf(m: Marks): Outcome {
    if m.drainKill || m.cancelled then Neutral
    else if m.failed then Counted
    else if m.threw then Neutral
    else Clean
  }

  function Counter(outs: seq<Outcome>): nat {
    if outs == [] then 0 else
      match outs[|outs| - 1]
      case Clean => 0
      case Counted => Counter(outs[..|outs| - 1]) + 1
      case Neutral => Counter(outs[..|outs| - 1])
  }

  function CountOf(outs: seq<Outcome>): nat {
    if outs == [] then 0 else CountOf(outs[..|outs| - 1]) + (if outs[|outs| - 1].Counted? then 1 else 0)
  }

  /** The counter is the number of counted failures since the last clean request. */
  lemma {:induction false} CounterIs(outs: seq<Outcome>, k: nat)
    requires k <= |outs| && (k == 0 || outs[k - 1].Clean?)
    requires forall i :: k <= i < |outs| ==> !outs[i].Clean?
    ensures Counter(outs) == CountOf(outs[k..])
  {
    var n := |outs| - 1;
    if k <= n {
      CounterIs(outs[..n], k);
      assert outs[k..][..n - k] == outs[..n][k..];
    }
  }

  /** The outcomes that say anything, in order. */
  function Decisive(outs: seq<Outcome>): seq<Outcome> {
    if outs == [] then [] else
      var rest, last := Decisive(outs[..|outs| - 1]), outs[|outs| - 1];
      if last.Neutral? then rest else rest + [last]
  }

  lemma {:induction false} NeutralIsIgnored(outs: seq<Outcome>)
    ensures Counter(outs) == Counter(Decisive(outs))
    ensures forall i :: 0 <= i < |Decisive(outs)| ==> !Decisive(outs)[i].Neutral?
  {
    if outs != [] {
      var rest, last := Decisive(outs[..|outs| - 1]), outs[|outs| - 1];
      NeutralIsIgnored(outs[..|outs| - 1]);
      assert (rest + [last])[..|rest|] == rest;
    }
  }

  lemma {:induction false} TrailingFailures(outs: seq<Outcome>, n: nat)
    requires forall i :: 0 <= i < |outs| ==> !outs[i].Neutral?
    ensures Counter(outs) >= n <==> |outs| >= n && forall i :: |outs| - n <= i < |outs| ==> outs[i].Counted?
  {
    if outs != [] && n > 0 {
      TrailingFailures(outs[..|outs| - 1], n - 1);
      if outs[|outs| - 1].Counted? && |outs| >= n {
        assert forall i :: |outs| - n <= i < |outs| - 1 ==> outs[..|outs| - 1][i] == outs[i];
      }
    }
  }

  /** A worker retires exactly when its last three requests that say anything all failed. */
  lemma RetiresIff(outs: seq<Outcome>)
    ensures var d := Decisive(outs);
            Counter(outs) >= MAX_CONSECUTIVE_ERRORS <==>
              |d| >= 3 && forall i :: |d| - 3 <= i < |d| ==> d[i].Counted?
  {
    NeutralIsIgnored(outs);
    TrailingFailures(Decisive(outs), MAX_CONSECUTIVE_ERRORS);
  }

  // ─── The loop, flag by flag ───────────────────────────────

  class Fiber {
    var failed: bool
    var threw: bool
    var cancelled: bool
    var drainKill: bool
    var claim: bool
    var fatal: bool
    var timedOut: bool
    var source: Source

    ghost function View(): Marks
      reads this
    {
      Marks(failed, threw, cancelled, drainKill, claim, fatal, timedOut, source)
    }

    constructor ()
      ensures View() == START
    {
      failed, threw, cancelled, drainKill := false, false, false, false;
      claim, fatal, timedOut, source := false, false, false, NoSource;
    }

    method Mark(e: Event)
      modifies this
      ensures View() == Happened(old(View()), e)
    {
      if e == Fatal || e == Report {
        fatal := true;
      } else if e == Claim {
        claim := claim || !fatal;
      } else if e == Throw {
        threw := true;
      } else {
        MarkEnding(e);
      }
    }

    method MarkEnding(e: Event)
      requires e in {Deadline, Interrupt, DrainKill, Refusal}
      modifies this
      ensures View() == Happened(old(View()), e)
    {
      if e == Deadline {
        timedOut := true;
      } else if e == Interrupt {
        cancelled := true;
      } else if e == DrainKill {
        drainKill := true;
      } else {
        failed, source := true, RefusedToPark;
      }
    }

    /** User code runs; whether it raised a fatal comes back. */
    method RunCode(es: seq<Event>) returns (sawFatal: bool)
      modifies this
      ensures View() == Ran(old(View()), es) && sawFatal == Has(es, Fatal)
    {
      ghost var was := View();
      sawFatal := false;
      for i := 0 to |es|
        invariant View() == Ran(was, es[..i]) && sawFatal == Has(es[..i], Fatal)
      {
        assert es[..i + 1][..i] == es[..i];
        Mark(es[i]);
        sawFatal := sawFatal || es[i] == Fatal;
      }
      assert es[..|es|] == es;
    }

    method Recover(es: seq<Event>)
      modifies this
      ensures View() == Recovered(old(View()), es)
    {
      var reported := fatal;
      var sawFatal := RunCode(es);
      if !sawFatal {
        fatal := reported;
      }
    }

    method FileBailout(cameApart: bool, where: Source, recovery: seq<Event>)
      modifies this
      ensures View() == Bailed(old(View()), cameApart, where, recovery)
    {
      if !cameApart && timedOut {
        cancelled := true;
      }
      failed := true;
      if !cameApart {
        source := where;
      }
      Recover(recovery);
    }

    method RunEarly(w: Window, where: Source)
      modifies this
      ensures View() == EarlyWindow(old(View()), w, where)
    {
      var cameApart := failed;
      var sawFatal := RunCode(w.events);
      if w.bailed {
        FileBailout(cameApart, where, w.recovery);
      }
    }

    method AnswerClaim()
      modifies this
      ensures View() == ClaimFiled(old(View()))
    {
      if claim {
        claim := false;
        if !fatal {
          cancelled := true;
        }
      }
    }

    method Flush(w: Window)
      modifies this
      ensures View() == Flushed(old(View()), w)
    {
      var sawFatal := RunCode(w.events);
      if w.bailed {
        Recover(w.recovery);
      }
      claim := false;
    }

    method RunLate(w: Window)
      modifies this
      ensures View() == LateFiled(old(View()), w)
    {
      var sawFatal := RunCode(w.events);
      if w.bailed {
        FileBailout(failed, AfterHandler, w.recovery);
        AnswerClaim();
      }
    }

    /** A request from its handler to its last window. */
    method Serve(r: Request)
      requires View() == START
      modifies this
      ensures View() == Filed(r)
    {
      RunEarly(r.handler, InHandler);
      RunEarly(r.shutdown, InShutdownFunction);
      RunEarly(r.freeing, FreeingFunctions);
      var sawFatal := RunCode(r.reports);
      AnswerClaim();
      Flush(r.flush);
      sawFatal := RunCode(r.flushReports);
      assert View() == AfterFlush(START, r);
      for i := 0 to |r.late|
        invariant View() == LateAll(AfterFlush(START, r), r.late[..i])
      {
        assert r.late[..i + 1][..i] == r.late[..i];
        RunLate(r.late[i].window);
        sawFatal := RunCode(r.late[i].reports);
      }
      assert r.late[..|r.late|] == r.late;
    }
  }

  class Breaker {
    var consecutiveErrors: nat
    ghost var Outcomes: seq<Outcome>

    ghost predicate Valid()
      reads this
    {
      consecutiveErrors == Counter(Outcomes)
    }

    constructor ()
      ensures Valid() && Outcomes == []
    {
      consecutiveErrors, Outcomes := 0, [];
    }

    /** A finished request is counted, ignored, or clears the run. */
    method Finalize(m: Marks)
      requires Valid()
      modifies this
      ensures Valid() && Outcomes == old(Outcomes) + [OutcomeOf(m)]
    {
      if m.drainKill || m.cancelled {
      } else if m.failed {
        consecutiveErrors := consecutiveErrors + 1;
      } else if m.threw {
      } else {
        consecutiveErrors := 0;
      }
      Outcomes := Outcomes + [OutcomeOf(m)];
      assert Outcomes[..|Outcomes| - 1] == old(Outcomes);
    }
  }
}
