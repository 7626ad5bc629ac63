/**
 The accept loop: one permit per connection, and the log of the stalls it goes
 through when there is none left. A stall that is reported has a WARN while the
 loop is parked and an INFO when it resumes; reports are held back for an interval
 after the last one.
 */
module AcceptLoop {
  import opened Basics

  /** In nanoseconds. */
  type Time = nat
  const STALL_LOG_INTERVAL: nat := 5_000_000_000

  datatype Line = Warn(at: Time) | Info(at: Time, stalled: nat)

  /** Between accepts; with a connection in hand and no permit, still holding the report
      back until `due`, or having made it; or out of the loop. */
  datatype Phase = Accepting | HoldingBack(since: Time, due: Time) | Reported(since: Time) | Stopped

  datatype State = State(
    permits: nat, live: nat, now: Time, phase: Phase,
    warned: bool, lastWarn: Option<Time>, log: seq<Line>)

  /** How long a stall that starts now is held back. */
  function SuppressedFor(s: State): nat {
    if s.lastWarn.None? then 0 else
      var since := if s.now >= s.lastWarn.value then s.now - s.lastWarn.value else 0;
      if since >= STALL_LOG_INTERVAL then 0 else STALL_LOG_INTERVAL - since
  }

  function WarnLogged(s: State, since: Time): State {
    s.(phase := Reported(since), warned := true, lastWarn := Some(s.now), log := s.log + [Warn(s.now)])
  }

  function Accepted(s: State): State {
    if s.live < s.permits then s.(live := s.live + 1)
    else if SuppressedFor(s) > 0 then s.(phase := HoldingBack(s.now, s.now + SuppressedFor(s)))
    else WarnLogged(s, s.now)
  }

  /** The permit a closing connection gives up goes to the one that waits for it. */
  function Resumed(s: State, since: Time): State {
    var stalled := if s.now >= since then s.now - since else 0;
    s.(phase := Accepting, warned := false, log := if s.warned then s.log + [Info(s.now, stalled)] else s.log)
  }

  datatype Step =
    | Pass(time: nat)
    | Accept
    | Timer             // what was left of the interval is over
    | Release           // a connection closes
    | Close             // the semaphore is closed, or shutdown is notified

  /** Time does not pass a timer that is due. */
  predicate Enabled(s: State, step: Step) {
    match step
    case Pass(t) => s.phase.HoldingBack? ==> s.now + t <= s.phase.due
    case Accept => s.phase.Accepting?
    case Timer => s.phase.HoldingBack? && s.now >= s.phase.due
    case Release => s.live > 0
    case Close => !s.phase.Stopped?
  }

  /** A step that is not enabled is not taken. */
  function Do(s: State, step: Step): State {
    if !Enabled(s, step) then s else
    match step
    case Pass(t) => s.(now := s.now + t)
    case Accept => Accepted(s)
    case Timer => WarnLogged(s, s.phase.since)
    case Release =>
      (match s.phase
       case HoldingBack(since, _) => Resumed(s, since)
       case Reported(since) => Resumed(s, since)
       case _ => s.(live := s.live - 1))
    case Close => s.(phase := Stopped)
  }

  function After(s: State, steps: seq<Step>): State {
    if steps == [] then s else Do(After(s, steps[..|steps| - 1]), steps[|steps| - 1])
  }

  // ─── What every run keeps ─────────────────────────────────

  /** WARN and INFO alternate, the first a WARN. */
  predicate Paired(log: seq<Line>) {
    forall i :: 0 <= i < |log| ==> (log[i].Warn? <==> i % 2 == 0)
  }

  /** Any two WARNs are at least the interval apart. */
  predicate Spaced(log: seq<Line>) {
    forall i, j :: 0 <= i < j < |log| && log[i].Warn? && log[j].Warn? ==> log[i].at + 5_000_000_000 <= log[j].at
  }

  predicate Inv(s: State) {
    && s.live <= s.permits
    && Paired(s.log) && Spaced(s.log)
    && (s.lastWarn.None? <==> s.log == [])
    && (s.lastWarn.Some? ==> s.lastWarn.value <= s.now)
    && (forall i :: 0 <= i < |s.log| && s.log[i].Warn? ==> s.log[i].at <= s.lastWarn.value)
    && (s.warned <==> |s.log| % 2 == 1)
    && match s.phase
       case Accepting => !s.warned
       case HoldingBack(since, due) =>
         && !s.warned && s.live == s.permits && s.lastWarn.Some?
         && since <= s.now <= due <= since + STALL_LOG_INTERVAL && due == s.lastWarn.value + STALL_LOG_INTERVAL
       case Reported(since) =>
         && s.warned && s.live == s.permits && since <= s.now
         && s.lastWarn.value <= since + STALL_LOG_INTERVAL
         && s.log[|s.log| - 1] == Warn(s.lastWarn.value)
       case Stopped => true
  }

  lemma WarnKeepsInv(s: State, since: Time)
    requires Inv(s) && !s.warned && s.live == s.permits && since <= s.now <= since + STALL_LOG_INTERVAL
    requires s.lastWarn.Some? ==> s.now >= s.lastWarn.value + STALL_LOG_INTERVAL
    ensures Inv(WarnLogged(s, since))
  {
  }

  lemma ResumeKeepsInv(s: State, since: Time)
    requires Inv(s)
    ensures Inv(Resumed(s, since))
  {
  }

  lemma StepKeepsInv(s: State, step: Step)
    requires Inv(s)
    ensures Inv(Do(s, step))
  {
    if Enabled(s, step) {
      match step
      case Accept =>
        if s.live == s.permits && SuppressedFor(s) == 0 {
          WarnKeepsInv(s, s.now);
        }
      case Timer => WarnKeepsInv(s, s.phase.since);
      case Release =>
        if s.phase.HoldingBack? || s.phase.Reported? {
          ResumeKeepsInv(s, s.phase.since);
        }
      case _ =>
    }
  }

  lemma {:induction false} RunKeepsInv(s: State, steps: seq<Step>)
    requires Inv(s)
    ensures Inv(After(s, steps))
  {
    if steps != [] {
      RunKeepsInv(s, steps[..|steps| - 1]);
      StepKeepsInv(After(s, steps[..|steps| - 1]), steps[|steps| - 1]);
    }
  }

  predicate Start(s: State) {
    s.live == 0 && s.phase.Accepting? && !s.warned && s.lastWarn.None? && s.log == []
  }

  /** Over every timing of arrivals and closes: no more connections than permits, any
      two WARNs the interval apart, and each WARN closed by exactly one INFO before the
      next one. */
  lemma LogIsBracketed(s: State, steps: seq<Step>)
    requires Start(s)
    ensures var t := After(s, steps);
            t.live <= t.permits && Paired(t.log) && Spaced(t.log)
  {
    RunKeepsInv(s, steps);
  }

  /** A WARN stands open only while the loop is parked in the stall it reports, or if the loop was stopped there. */
  lemma OpenOnlyWhileParked(s: State, steps: seq<Step>)
    requires Start(s)
    ensures var t := After(s, steps);
            t.log != [] && t.log[|t.log| - 1].Warn? ==> t.phase.Reported? || t.phase.Stopped?
  {
    RunKeepsInv(s, steps);
  }

  /** Stopping leaves a WARN without its INFO exactly if the stall it reported was still on. */
  lemma StopLeavesOpenIff(s: State, steps: seq<Step>)
    requires Start(s)
    ensures var t := After(s, steps);
            !t.phase.Stopped? ==>
              (Do(t, Close).log != [] && Do(t, Close).log[|t.log| - 1].Warn? <==> t.phase.Reported?)
  {
    RunKeepsInv(s, steps);
  }

  /** A stall that has outlasted the interval has its WARN, made while it was on and
      no later than an interval after it began. */
  lemma LongStallIsReported(s: State, steps: seq<Step>)
    requires Start(s)
    ensures var t := After(s, steps);
            && (t.phase.HoldingBack? ==> t.now <= t.phase.since + 5_000_000_000)
            && (t.phase.Reported? ==>
                  && t.log != [] && t.log[|t.log| - 1].Warn?
                  && t.log[|t.log| - 1].at <= t.phase.since + 5_000_000_000)
  {
    RunKeepsInv(s, steps);
  }

  /** The first stall, and any that begins an interval or more after the last WARN, is reported at once. */
  lemma ReportedAtOnceIff(s: State)
    requires Inv(s) && s.phase.Accepting? && s.live == s.permits
    ensures Accepted(s).phase.Reported? <==> s.lastWarn.None? || s.now >= s.lastWarn.value + 5_000_000_000
  {
  }

  /** A connection is in hand, waiting for its permit. */
  predicate IsParked(s: State) {
    s.phase.HoldingBack? || s.phase.Reported?
  }

  /** How many of the steps were taken: connections accepted, connections closed, and
      connections still in hand as the loop was stopped. */
  function AcceptsIn(s: State, steps: seq<Step>): nat {
    if steps == [] then 0 else
      var n := |steps| - 1;
      AcceptsIn(s, steps[..n]) + if steps[n].Accept? && Enabled(After(s, steps[..n]), steps[n]) then 1 else 0
  }

  function ReleasesIn(s: State, steps: seq<Step>): nat {
    if steps == [] then 0 else
      var n := |steps| - 1;
      ReleasesIn(s, steps[..n]) + if steps[n].Release? && Enabled(After(s, steps[..n]), steps[n]) then 1 else 0
  }

  function AbandonedIn(s: State, steps: seq<Step>): nat {
    if steps == [] then 0 else
      var n := |steps| - 1;
      AbandonedIn(s, steps[..n]) + if steps[n].Close? && IsParked(After(s, steps[..n])) then 1 else 0
  }

  /** In every run each connection accepted has a permit, is in hand, was closed, or was
      in hand as the loop stopped. */
  lemma {:induction false} ConnectionsAre(s: State, steps: seq<Step>)
    requires Start(s)
    ensures var t := After(s, steps);
            t.live + (if IsParked(t) then 1 else 0)
            == AcceptsIn(s, steps) - ReleasesIn(s, steps) - AbandonedIn(s, steps)
  {
    if steps != [] {
      ConnectionsAre(s, steps[..|steps| - 1]);
    }
  }

  /** An accept takes a permit if there is one, and parks the loop if not. A stall is
      timed from its accept: whatever happens until a connection closes, the loop stays
      parked, and the close hands its permit over and reports how long that was, exactly
      if the stall was reported. */
  lemma {:induction false} StallIsMeasured(s: State, steps: seq<Step>)
    requires s.phase.Accepting? && !s.warned     // as in every run: see Inv
    requires forall i :: 0 <= i < |steps| ==> !steps[i].Release? && !steps[i].Close?
    ensures s.live < s.permits ==> Do(s, Accept) == s.(live := s.live + 1)
    ensures s.live == s.permits > 0 ==>
      var u := After(Do(s, Accept), steps);
      var v := Do(u, Release);
      && IsParked(u) && u.live == s.live && u.phase.since == s.now <= u.now
      && v.live == s.live && v.phase.Accepting?
      && v.log == if u.phase.Reported? then u.log + [Info(u.now, u.now - s.now)] else u.log
  {
    if s.live == s.permits > 0 {
      AcceptParks(s);
      StaysParked(Do(s, Accept), steps);
      ReleaseResumes(After(Do(s, Accept), steps));
    }
  }

  predicate ParkedOk(s: State) {
    IsParked(s) && s.phase.since <= s.now && (s.warned <==> s.phase.Reported?)
  }

  lemma AcceptParks(s: State)
    requires s.phase.Accepting? && !s.warned && s.live >= s.permits
    ensures var u := Do(s, Accept);
            ParkedOk(u) && u.phase.since == s.now && u.live == s.live && u.permits == s.permits
  {
  }

  lemma ReleaseResumes(u: State)
    requires ParkedOk(u) && u.live > 0
    ensures var v := Do(u, Release);
            && v.live == u.live && v.phase.Accepting?
            && v.log == if u.phase.Reported? then u.log + [Info(u.now, u.now - u.phase.since)] else u.log
  {
  }

  lemma {:induction false} StaysParked(s: State, steps: seq<Step>)
    requires ParkedOk(s) && forall i :: 0 <= i < |steps| ==> !steps[i].Release? && !steps[i].Close?
    ensures var u := After(s, steps);
            ParkedOk(u) && u.live == s.live && u.phase.since == s.phase.since && u.permits == s.permits
  {
    if steps != [] {
      StaysParked(s, steps[..|steps| - 1]);
    }
  }

  // ─── The loop ─────────────────────────────────────────────

  class Loop {
    const permits: nat
    var live: nat
    var now: Time
    var phase: Phase
    var stallWarned: bool
    var lastStallWarn: Option<Time>
    var log: seq<Line>

    ghost function View(): State
      reads this
    {
      State(permits, live, now, phase, stallWarned, lastStallWarn, log)
    }

    constructor (permits: nat, now: Time)
      ensures Start(View()) && this.permits == permits && this.now == now
    {
      this.permits, this.now := permits, now;
      live, phase, stallWarned, lastStallWarn, log := 0, Accepting, false, None, [];
    }

    method LogWarn(since: Time)
      modifies this`phase, this`stallWarned, this`lastStallWarn, this`log
      ensures View() == WarnLogged(old(View()), since)
    {
      log := log + [Warn(now)];
      lastStallWarn := Some(now);
      stallWarned := true;
      phase := Reported(since);
    }

    /** A connection has been accepted. */
    method OnAccept()
      requires phase.Accepting?
      modifies this`live, this`phase, this`stallWarned, this`lastStallWarn, this`log
      ensures View() == Do(old(View()), Accept)
    {
      if live < permits {
        live := live + 1;
        return;
      }
      var remaining := 0;
      if lastStallWarn.Some? {
        var since := if now >= lastStallWarn.value then now - lastStallWarn.value else 0;
        remaining := if since >= STALL_LOG_INTERVAL then 0 else STALL_LOG_INTERVAL - since;
      }
      if remaining > 0 {
        phase := HoldingBack(now, now + remaining);
      } else {
        LogWarn(now);
      }
    }

    method OnTimer()
      requires phase.HoldingBack? && now >= phase.due
      modifies this`phase, this`stallWarned, this`lastStallWarn, this`log
      ensures View() == Do(old(View()), Timer)
    {
      LogWarn(phase.since);
    }

    /** A connection has closed: its permit goes to the connection in hand, if there is one. */
    method OnRelease()
      requires live > 0
      modifies this`live, this`phase, this`stallWarned, this`log
      ensures View() == Do(old(View()), Release)
    {
      if phase.HoldingBack? || phase.Reported? {
        if stallWarned {
          log := log + [Info(now, if now >= phase.since then now - phase.since else 0)];
          stallWarned := false;
        }
        phase := Accepting;
      } else {
        live := live - 1;
      }
    }
  }
}
