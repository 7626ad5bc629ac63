/**
 max_execution_time, per request, on the one timer of a worker thread. Each
 request keeps its own deadline; the timer is armed with what is left of it only
 while that request runs. The timer's signal is a step of its own, which the
 kernel may drop when the timer is set again after the signal was queued.
 */
module ExecTimer {
  import opened Basics

  type Fiber = nat

  const NS: nat := 1_000_000_000

  /** What a request keeps: the limit it was given, when it runs out (0 for no
      deadline, or one already delivered), and whether one that ran out still
      has to be delivered. */
  datatype Clock = Clock(limit: int, deadline: nat, due: bool, killed: bool)

  /** The thread's timer and the engine's flags beside it. */
  datatype Thread = Thread(
    now: nat,
    timer: Option<nat>,          // when the armed timer expires
    queued: bool,                // it expired and its signal has not been delivered
    timedOut: bool,              // raised for the engine to answer
    fired: bool,                 // the timeout handler ran since a deadline was last armed
    shown: int,                  // the limit the engine names
    owner: Option<Fiber>         // whose slice is running
  )

  datatype State = State(baseline: int, hasTimer: bool, thread: Thread, clocks: map<Fiber, Clock>)

  // ─── The source's functions ─────────────────────────────

  function DeadlineAfter(now: nat, seconds: int): (r: nat)
    ensures r != 0 <==> 0 < seconds <= 999999999
    ensures r != 0 ==> r > now && r - now == seconds * 1_000_000_000
  {
    if seconds <= 0 || seconds > 999999999 then 0 else now + seconds * NS
  }

  /** Arm the timer to expire in `ns`, or disarm it for 0. Setting it settles a
      queued signal: `deliver` says whether it still arrives or is dropped. */
  function TimerSet(t: Thread, hasTimer: bool, ns: nat, deliver: bool): (r: Thread) {
    if !hasTimer then t
    else
      var settled := if Expired(t) && deliver then Delivered(t) else t;
      settled.(timer := if ns == 0 then None else Some(t.now + ns), queued := false)
  }

  predicate Expired(t: Thread) {
    t.queued || (t.timer.Some? && t.timer.value <= t.now)
  }

  /** What the timer has left before it expires; 0 when it is not armed or has expired. */
  function TimeLeft(t: Thread, hasTimer: bool): (r: nat) {
    if hasTimer && t.timer.Some? && t.timer.value > t.now then t.timer.value - t.now else 0
  }

  /** The engine's timeout handler. */
  function Delivered(t: Thread): (r: Thread) {
    t.(fired := true, timedOut := true)
  }

  function Begun(s: State, f: Fiber): (r: State) {
    s.(clocks := s.clocks[f := Clock(s.baseline, DeadlineAfter(s.thread.now, s.baseline), false, false)])
  }

  /** The limit of `f` has run out before it is switched to. */
  predicate OutOfTime(c: Clock, now: nat) {
    c.due || (c.deadline != 0 && now >= c.deadline)
  }

  /** About to switch into `f`; `delay` passes between reading the clock and arming the timer. */
  function Entered(s: State, f: Fiber, delay: nat): (r: State)
    requires f in s.clocks
  {
    var c := s.clocks[f];
    var t := s.thread.(shown := c.limit, fired := false, timedOut := false, owner := Some(f));
    if OutOfTime(c, t.now) then
      s.(clocks := s.clocks[f := c.(due := false, deadline := 0)],
         thread := if c.killed then t else Delivered(t))
    else if c.deadline != 0 then
      s.(thread := TimerSet(t.(now := t.now + delay), s.hasTimer, c.deadline - t.now, false))
    else
      s.(thread := t)
  }

  /** Back from `f`, before anything else runs. */
  function LeftSlice(s: State, f: Fiber, deliver: bool): (r: State)
    requires f in s.clocks
  {
    var c := s.clocks[f];
    var armed := c.deadline != 0;
    var left := if armed then TimeLeft(s.thread, s.hasTimer) else 0;
    var t := (if armed then TimerSet(s.thread, s.hasTimer, 0, deliver) else s.thread).(owner := None);
    if t.timedOut then
      s.(thread := t.(timedOut := false), clocks := s.clocks[f := c.(deadline := 0, due := true)])
    else if !armed || left != 0 then
      s.(thread := t)
    else
      s.(thread := t, clocks := s.clocks[f := c.(deadline := 0, due := if t.fired then c.due else true)])
  }

  /** The limit has been changed: the engine has armed its timer for it already. */
  function LimitChanged(s: State, seconds: int, deliver: bool): (r: State)
    requires s.thread.owner.Some? ==> s.thread.owner.value in s.clocks
  {
    var ns := if 0 < seconds <= 999999999 then seconds * NS else 0;
    var t := TimerSet(s.thread, s.hasTimer, ns, deliver).(shown := seconds);
    if t.owner.None? then
      s.(thread := TimerSet(t, s.hasTimer, 0, false))
    else
      var f := t.owner.value;
      s.(thread := t.(fired := false),
         clocks := s.clocks[f := s.clocks[f].(limit := seconds, deadline := DeadlineAfter(t.now, seconds))])
  }

  // ─── What is owed to a request ──────────────────────────
  //
  // The same story told without timer, flags or signals: a deadline is set, runs
  // out, is raised, and is answered. Nothing in the source keeps this.

  datatype Owed = Owed(counting: nat, pending: nat, made: nat, answered: nat, dropped: nat, replaced: nat)

  function OwedNothing(): Owed {
    Owed(0, 0, 0, 0, 0, 0)
  }

  function One(n: nat): (r: nat) {
    if n != 0 then 1 else 0
  }

  /** A new deadline in place of the one that counted. */
  function OwedNew(o: Owed, deadline: nat): (r: Owed) {
    o.(counting := deadline, made := o.made + One(deadline), replaced := o.replaced + One(o.counting))
  }

  /** The deadline that counted has run out and is raised; one already raised swallows it. */
  function OwedRaised(o: Owed): (r: Owed) {
    if o.pending != 0 then o.(counting := 0, replaced := o.replaced + One(o.counting))
    else o.(counting := 0, pending := o.counting)
  }

  function OwedAnswered(o: Owed): (r: Owed) {
    o.(pending := 0, answered := o.answered + One(o.pending))
  }

  function OwedDropped(o: Owed): (r: Owed) {
    o.(counting := 0, pending := 0, dropped := o.dropped + One(o.counting) + One(o.pending))
  }

  /** Every deadline ever set has ended in exactly one way, or still counts, or waits to be answered. */
  predicate Accounted(o: Owed) {
    o.made == o.answered + o.dropped + o.replaced + One(o.counting) + One(o.pending)
  }

  datatype World = World(state: State, owed: map<Fiber, Owed>)

  datatype Step =
    | Tick(ns: nat)
    | Begin(fiber: Fiber)                  // a new request on this fiber
    | Kill(fiber: Fiber)                   // the server is about to cancel it
    | Enter(fiber: Fiber, delay: nat)
    | Expire                               // the timer runs out: its signal is queued
    | Deliver                              // the signal arrives
    | Answer                               // the engine ends the running request for it
    | Limit(seconds: int, deliver: bool)
    | Leave(deliver: bool)

  predicate Enabled(w: World, step: Step) {
    var t := w.state.thread;
    match step
    case Tick(_) => true
    case Begin(f) => t.owner.None?
    case Kill(f) => t.owner.None? && f in w.state.clocks
    case Enter(f, _) => t.owner.None? && f in w.state.clocks && f in w.owed
    case Expire => t.timer.Some? && t.timer.value <= t.now
    case Deliver => t.queued
    case Answer => t.owner.Some? && t.timedOut && t.owner.value in w.owed
    case Limit(_, _) => t.owner.Some? ==> t.owner.value in w.state.clocks && t.owner.value in w.owed
    case Leave(_) => t.owner.Some? && t.owner.value in w.state.clocks && t.owner.value in w.owed
  }

  function OwedOf(w: World, f: Fiber): (r: Owed) {
    if f in w.owed then w.owed[f] else OwedNothing()
  }

  /** The deadline `o` counts has run out. */
  predicate Elapsed(o: Owed, now: nat) {
    o.pending != 0 || (o.counting != 0 && now >= o.counting)
  }

  /** A step that is not enabled is not taken. */
  function Do(w: World, step: Step): (r: World) {
    if !Enabled(w, step) then w else
    var s, t := w.state, w.state.thread;
    match step
    case Tick(ns) => w.(state := s.(thread := t.(now := t.now + ns)))
    case Begin(f) =>
      World(Begun(s, f), w.owed[f := OwedNew(OwedDropped(OwedOf(w, f)), DeadlineAfter(t.now, s.baseline))])
    case Kill(f) => w.(state := s.(clocks := s.clocks[f := s.clocks[f].(killed := true)]))
    case Enter(f, delay) =>
      var o := w.owed[f];
      World(Entered(s, f, delay),
            w.owed[f := if !Elapsed(o, t.now) then o
                        else if s.clocks[f].killed then OwedDropped(o)
                        else OwedRaised(o)])
    case Expire => w.(state := s.(thread := t.(timer := None, queued := true)))
    case Deliver =>
      World(s.(thread := Delivered(t).(queued := false)),
            if t.owner.Some? && t.owner.value in w.owed then w.owed[t.owner.value := OwedRaised(w.owed[t.owner.value])] else w.owed)
    case Answer =>
      World(s.(thread := t.(timedOut := false)), w.owed[t.owner.value := OwedAnswered(w.owed[t.owner.value])])
    case Limit(seconds, deliver) =>
      if t.owner.None? then w.(state := LimitChanged(s, seconds, deliver))
      else
        var o := w.owed[t.owner.value];
        World(LimitChanged(s, seconds, deliver),
              w.owed[t.owner.value := OwedNew(if Expired(t) && deliver then OwedRaised(o) else o, DeadlineAfter(t.now, seconds))])
    case Leave(deliver) =>
      var o := w.owed[t.owner.value];
      World(LeftSlice(s, t.owner.value, deliver),
            w.owed[t.owner.value := if o.pending != 0 || (o.counting != 0 && Expired(t)) then OwedRaised(o) else o])
  }

  function After(w: World, steps: seq<Step>): (r: World) {
    if steps == [] then w else Do(After(w, steps[..|steps| - 1]), steps[|steps| - 1])
  }

  // ─── What every run keeps ───────────────────────────────

  /** A request that is not running: what it keeps is exactly what it is owed. */
  predicate Parked(c: Clock, o: Owed) {
    c.deadline == o.counting && (c.due <==> o.pending != 0)
  }

  /** The running request: the timer carries its deadline and nobody else's, and
      the flags say what it is owed. */
  predicate Running(t: Thread, c: Clock, o: Owed) {
    && !c.due
    && (t.timedOut <==> o.pending != 0)
    && (if c.deadline == 0 then o.counting == 0 && t.timer.None? && !t.queued
        else if o.counting != 0 then
          && o.counting == c.deadline && !t.fired
          && (t.timer.Some? <==> !t.queued)
          && (t.timer.Some? ==> t.timer.value >= c.deadline)
          && (t.queued ==> t.now >= c.deadline)
        else t.fired && t.timer.None? && !t.queued)
  }

  predicate Idle(t: Thread) {
    t.timer.None? && !t.queued && !t.timedOut
  }

  /** Accounted for, and nothing is raised before its time. */
  predicate Sound(o: Owed, now: nat) {
    Accounted(o) && o.pending <= now
  }

  ghost predicate Inv(w: World) {
    var s := w.state;
    && s.hasTimer
    && s.clocks.Keys == w.owed.Keys
    && (forall f :: f in w.owed ==> Sound(w.owed[f], s.thread.now))
    && (forall f :: f in s.clocks && s.thread.owner != Some(f) ==> Parked(s.clocks[f], w.owed[f]))
    && (match s.thread.owner
        case None => Idle(s.thread)
        case Some(f) => f in s.clocks && Running(s.thread, s.clocks[f], w.owed[f]))
  }

  lemma EnterOne(s: State, f: Fiber, delay: nat, o: Owed)
    requires s.hasTimer && f in s.clocks && Idle(s.thread) && Parked(s.clocks[f], o) && Sound(o, s.thread.now)
    ensures var e := Entered(s, f, delay);
      var o' := if !Elapsed(o, s.thread.now) then o else if s.clocks[f].killed then OwedDropped(o) else OwedRaised(o);
      && e == s.(thread := e.thread, clocks := s.clocks[f := e.clocks[f]])
      && e.thread.owner == Some(f) && e.thread.now >= s.thread.now
      && Running(e.thread, e.clocks[f], o') && Sound(o', e.thread.now)
  {
    assert s.clocks[f := s.clocks[f]] == s.clocks;
  }

  lemma EnterKeepsInv(w: World, f: Fiber, delay: nat)
    requires Inv(w) && Enabled(w, Enter(f, delay))
    ensures Inv(Do(w, Enter(f, delay)))
  {
    EnterOne(w.state, f, delay, w.owed[f]);
  }

  lemma LeaveOne(s: State, f: Fiber, deliver: bool, o: Owed)
    requires s.hasTimer && f in s.clocks && Running(s.thread, s.clocks[f], o) && Sound(o, s.thread.now)
    ensures var e := LeftSlice(s, f, deliver);
      var o' := if o.pending != 0 || (o.counting != 0 && Expired(s.thread)) then OwedRaised(o) else o;
      && e == s.(thread := e.thread, clocks := s.clocks[f := e.clocks[f]])
      && e.thread.owner.None? && e.thread.now == s.thread.now
      && Idle(e.thread) && Parked(e.clocks[f], o') && Sound(o', e.thread.now)
  {
    assert s.clocks[f := s.clocks[f]] == s.clocks;
  }

  lemma LeaveKeepsInv(w: World, deliver: bool)
    requires Inv(w) && Enabled(w, Leave(deliver))
    ensures Inv(Do(w, Leave(deliver)))
  {
    var f := w.state.thread.owner.value;
    LeaveOne(w.state, f, deliver, w.owed[f]);
  }

  lemma LimitOne(s: State, f: Fiber, seconds: int, deliver: bool, o: Owed)
    requires s.hasTimer && s.thread.owner == Some(f) && f in s.clocks
    requires Running(s.thread, s.clocks[f], o) && Sound(o, s.thread.now)
    ensures var e := LimitChanged(s, seconds, deliver);
      var o' := OwedNew(if Expired(s.thread) && deliver then OwedRaised(o) else o, DeadlineAfter(s.thread.now, seconds));
      && e == s.(thread := e.thread, clocks := s.clocks[f := e.clocks[f]])
      && e.thread.owner == Some(f) && e.thread.now == s.thread.now
      && Running(e.thread, e.clocks[f], o') && Sound(o', e.thread.now)
  {
  }

  lemma LimitKeepsInv(w: World, seconds: int, deliver: bool)
    requires Inv(w) && Enabled(w, Limit(seconds, deliver))
    ensures Inv(Do(w, Limit(seconds, deliver)))
  {
    if w.state.thread.owner.Some? {
      var f := w.state.thread.owner.value;
      LimitOne(w.state, f, seconds, deliver, w.owed[f]);
    }
  }

  lemma SignalKeepsInv(w: World, step: Step)
    requires Inv(w) && Enabled(w, step) && (step.Tick? || step.Expire? || step.Deliver? || step.Answer?)
    ensures Inv(Do(w, step))
  {
  }

  lemma BeginOne(s: State, f: Fiber, o: Owed)
    requires Sound(o, s.thread.now)
    ensures var o' := OwedNew(OwedDropped(o), DeadlineAfter(s.thread.now, s.baseline));
      && Begun(s, f) == s.(clocks := s.clocks[f := Begun(s, f).clocks[f]])
      && Parked(Begun(s, f).clocks[f], o') && Sound(o', s.thread.now)
  {
  }

  lemma BeginKeepsInv(w: World, f: Fiber)
    requires Inv(w) && Enabled(w, Begin(f))
    ensures Inv(Do(w, Begin(f)))
  {
    BeginOne(w.state, f, OwedOf(w, f));
    var c, o' := Begun(w.state, f).clocks[f], OwedNew(OwedDropped(OwedOf(w, f)), DeadlineAfter(w.state.thread.now, w.state.baseline));
    assert Do(w, Begin(f)) == World(w.state.(clocks := w.state.clocks[f := c]), w.owed[f := o']);
  }

  lemma KillKeepsInv(w: World, f: Fiber)
    requires Inv(w) && Enabled(w, Kill(f))
    ensures Inv(Do(w, Kill(f)))
  {
    var e := Do(w, Kill(f));
    assert Parked(e.state.clocks[f], w.owed[f]);
  }

  lemma StepKeepsInv(w: World, step: Step)
    requires Inv(w)
    ensures Inv(Do(w, step))
  {
    if !Enabled(w, step) { return; }
    match step
    case Enter(f, delay) => EnterKeepsInv(w, f, delay);
    case Leave(deliver) => LeaveKeepsInv(w, deliver);
    case Limit(seconds, deliver) => LimitKeepsInv(w, seconds, deliver);
    case Begin(f) => BeginKeepsInv(w, f);
    case Kill(f) => KillKeepsInv(w, f);
    case _ => SignalKeepsInv(w, step);
  }

  lemma {:induction false} RunKeepsInv(w: World, steps: seq<Step>)
    requires Inv(w)
    ensures Inv(After(w, steps))
  {
    if steps != [] {
      RunKeepsInv(w, steps[..|steps| - 1]);
      StepKeepsInv(After(w, steps[..|steps| - 1]), steps[|steps| - 1]);
    }
  }

  /** Taking the timer over for the requests: whatever the boot left armed or
      raised is stopped, and the limit it ran under is what every request starts with. */
  function TakenOver(t: Thread, deliver: bool): (r: World) {
    World(State(t.shown, true, TimerSet(t, true, 0, deliver).(timedOut := false, owner := None), map[]), map[])
  }

  /** In every run of a worker, from whatever its boot left: the timer is armed
      only inside the slice of the request whose deadline it carries, a timeout is
      raised only for the running request and only once its own deadline has
      passed, and every deadline set has ended one way or is still owed. */
  lemma TimeoutsAreTheRequestsOwn(boot: Thread, deliver: bool, steps: seq<Step>)
    ensures var w := After(TakenOver(boot, deliver), steps);
      var t := w.state.thread;
      && (t.timer.Some? || t.queued ==>
            && t.owner.Some? && t.owner.value in w.owed && t.owner.value in w.state.clocks
            && var c, o := w.state.clocks[t.owner.value], w.owed[t.owner.value];
               c.deadline != 0 && c.deadline == o.counting && (t.timer.Some? ==> t.timer.value >= c.deadline))
      && (t.timedOut ==>
            && t.owner.Some? && t.owner.value in w.owed
            && 0 < w.owed[t.owner.value].pending <= t.now)
      && (forall f :: f in w.owed ==> Accounted(w.owed[f]))
      && w.state.clocks.Keys == w.owed.Keys
      && (forall f :: f in w.owed && f in w.state.clocks && t.owner != Some(f) ==> Parked(w.state.clocks[f], w.owed[f]))
  {
    RunKeepsInv(TakenOver(boot, deliver), steps);
  }

  /** A deadline that has run out is raised the moment its request runs again,
      unless that resume is the server's own cancellation, which drops it. */
  lemma ElapsedIsRaisedOnEntry(w: World, f: Fiber, delay: nat)
    requires Inv(w) && Enabled(w, Enter(f, delay))
    ensures var e := Do(w, Enter(f, delay));
      var late := Elapsed(w.owed[f], w.state.thread.now);
      && (e.state.thread.timedOut <==> late && !w.state.clocks[f].killed)
      && (late && w.state.clocks[f].killed ==> e.owed[f].dropped == w.owed[f].dropped + One(w.owed[f].counting) + One(w.owed[f].pending))
      && (late ==> e.state.clocks[f].deadline == 0 && e.owed[f].counting == 0)
      && (!late ==> e.owed[f] == w.owed[f])
  {
  }

  /** A deadline that ran out in the slice and was not answered is due when the
      request leaves it, whether the signal came or was dropped as the timer was
      disarmed; one that was answered, or still counts, is not. */
  lemma UnansweredIsDue(w: World, deliver: bool)
    requires Inv(w) && Enabled(w, Leave(deliver))
    ensures var t := w.state.thread;
      var f := t.owner.value;
      var o, c := w.owed[f], Do(w, Leave(deliver)).state.clocks[f];
      && (c.due <==> o.pending != 0 || (o.counting != 0 && Expired(t)))
      && c.deadline == (if c.due then 0 else o.counting)
  {
    LeaveKeepsInv(w, deliver);
  }

  predicate Concerns(step: Step, f: Fiber) {
    (step.Enter? || step.Begin?) && step.fiber == f
  }

  /** What a request that is not running keeps, nobody else's step changes; only the
      server's own cancellation marks it. */
  lemma StepLeavesParked(w: World, step: Step, f: Fiber)
    requires Inv(w) && f in w.owed && w.state.thread.owner != Some(f) && !Concerns(step, f)
    ensures LeavesParked(w, Do(w, step), f, step == Kill(f))
  {
    if Enabled(w, step) {
      match step
      case Enter(g, delay) => EnterOne(w.state, g, delay, w.owed[g]);
      case Leave(deliver) => LeaveOne(w.state, w.state.thread.owner.value, deliver, w.owed[w.state.thread.owner.value]);
      case Limit(seconds, deliver) => LimitLeavesParked(w, seconds, deliver, f);
      case _ =>
    }
  }

  predicate LeavesParked(w: World, v: World, f: Fiber, marked: bool)
    requires f in w.owed && f in w.state.clocks
  {
    && f in v.owed && f in v.state.clocks && v.owed[f] == w.owed[f] && v.state.thread.owner != Some(f)
    && v.state.thread.now >= w.state.thread.now && (!marked ==> v.state.clocks[f] == w.state.clocks[f])
  }

  lemma LimitLeavesParked(w: World, seconds: int, deliver: bool, f: Fiber)
    requires Inv(w) && f in w.owed && w.state.thread.owner != Some(f) && Enabled(w, Limit(seconds, deliver))
    ensures LeavesParked(w, Do(w, Limit(seconds, deliver)), f, false)
  {
    if w.state.thread.owner.Some? {
      var g := w.state.thread.owner.value;
      LimitOne(w.state, g, seconds, deliver, w.owed[g]);
    }
  }

  lemma {:induction false} RunLeavesParked(w: World, steps: seq<Step>, f: Fiber)
    requires Inv(w) && f in w.owed && w.state.thread.owner != Some(f)
    requires forall i :: 0 <= i < |steps| ==> !Concerns(steps[i], f)
    ensures var v := After(w, steps);
            Inv(v) && LeavesParked(w, v, f, Kill(f) in steps)
  {
    RunKeepsInv(w, steps);
    if steps != [] {
      var n := |steps| - 1;
      RunLeavesParked(w, steps[..n], f);
      assert !Concerns(steps[n], f);
      StepLeavesParked(After(w, steps[..n]), steps[n], f);
      assert steps == steps[..n] + [steps[n]];
    }
  }

  /** An elapsed deadline is not lost: whatever runs between a request's slices, it is
      raised as the next one begins exactly if it ran out in the slice unanswered, or has
      run out since; and the server's own cancellation alone keeps it from being raised. */
  lemma ElapsedIsNotLost(w: World, deliver: bool, steps: seq<Step>, delay: nat)
    requires Inv(w) && Enabled(w, Leave(deliver))
    requires forall i :: 0 <= i < |steps| ==> !Concerns(steps[i], w.state.thread.owner.value)
    ensures var f := w.state.thread.owner.value;
            var left := Do(w, Leave(deliver));
            var before := After(left, steps);
            f in left.owed && f in before.state.clocks &&
            (Enabled(before, Enter(f, delay)) ==>
              && (Do(before, Enter(f, delay)).state.thread.timedOut <==>
                    Elapsed(left.owed[f], before.state.thread.now) && !before.state.clocks[f].killed)
              && (left.state.clocks[f].due ==> Elapsed(left.owed[f], before.state.thread.now))
              && (Kill(f) !in steps ==> before.state.clocks[f].killed == left.state.clocks[f].killed))
  {
    var f := w.state.thread.owner.value;
    var left := Do(w, Leave(deliver));
    LeaveKeepsInv(w, deliver);
    RunLeavesParked(left, steps, f);
    if Enabled(After(left, steps), Enter(f, delay)) {
      ElapsedIsRaisedOnEntry(After(left, steps), f, delay);
    }
  }

  // ─── How long a limit is ────────────────────────────────

  /** The step puts `f` under a limit: a request is begun, or sets a limit in its slice. */
  predicate Relimits(w: World, step: Step, f: Fiber) {
    Enabled(w, step) && (step == Begin(f) || (step.Limit? && w.state.thread.owner == Some(f)))
  }

  function LimitSet(w: World, step: Step): int {
    if step.Limit? then step.seconds else w.state.baseline
  }

  predicate RelimitedIn(w: World, steps: seq<Step>, f: Fiber) {
    && steps != []
    && (|| RelimitedIn(w, steps[..|steps| - 1], f)
        || Relimits(After(w, steps[..|steps| - 1]), steps[|steps| - 1], f))
  }

  predicate Answers(w: World, step: Step, f: Fiber) {
    step == Answer && Enabled(w, step) && w.state.thread.owner == Some(f)
  }

  predicate AnsweredIn(w: World, steps: seq<Step>, f: Fiber) {
    && steps != []
    && (|| AnsweredIn(w, steps[..|steps| - 1], f)
        || Answers(After(w, steps[..|steps| - 1]), steps[|steps| - 1], f))
  }

  /** A limit is one the engine arms for. */
  predicate InRange(seconds: int) {
    0 < seconds <= 999999999
  }

  /** `f` is under a limit of `seconds` that runs out at `end`. */
  predicate UnderLimit(w: World, f: Fiber, seconds: int, end: nat, answered: bool) {
    && f in w.owed && f in w.state.clocks
    && w.state.clocks[f].limit == seconds && (w.state.thread.owner == Some(f) ==> w.state.thread.shown == seconds)
    && OneDeadline(w.owed[f], if InRange(seconds) then end else 0, answered, w.state.clocks[f].killed)
  }

  /** It counts, or it is raised, or it is over: answered, or dropped for a cancellation. */
  predicate OneDeadline(o: Owed, end: nat, answered: bool, killed: bool) {
    && (|| (o.counting == end && o.pending == 0 && !answered)
        || (o.counting == 0 && o.pending == end && !answered)
        || (o.counting == 0 && o.pending == 0 && (answered || killed)))
  }

  lemma LimitStarts(w: World, step: Step, f: Fiber)
    requires Inv(w) && Relimits(w, step, f) && !Do(w, step).state.thread.timedOut
    ensures UnderLimit(Do(w, step), f, LimitSet(w, step), EndOf(w, LimitSet(w, step)), false)
  {
    if step.Limit? {
      LimitSetStarts(w, step.seconds, step.deliver, f);
    } else {
      BeginStarts(w, f);
    }
  }

  lemma BeginStarts(w: World, f: Fiber)
    requires Inv(w) && Enabled(w, Begin(f))
    ensures UnderLimit(Do(w, Begin(f)), f, w.state.baseline, EndOf(w, w.state.baseline), false)
  {
    var v := Do(w, Begin(f));
    assert v.state.clocks[f] == Clock(w.state.baseline, DeadlineAfter(w.state.thread.now, w.state.baseline), false, false);
    assert v.owed[f].counting == DeadlineAfter(w.state.thread.now, w.state.baseline) && v.owed[f].pending == 0;
  }

  lemma LimitSetStarts(w: World, seconds: int, deliver: bool, f: Fiber)
    requires Inv(w) && Enabled(w, Limit(seconds, deliver)) && w.state.thread.owner == Some(f)
    requires !Do(w, Limit(seconds, deliver)).state.thread.timedOut
    ensures UnderLimit(Do(w, Limit(seconds, deliver)), f, seconds, EndOf(w, seconds), false)
  {
    var v := Do(w, Limit(seconds, deliver));
    LimitOne(w.state, f, seconds, deliver, w.owed[f]);
    assert v.state.clocks[f].limit == seconds && v.state.thread.shown == seconds;
    assert v.owed[f].counting == DeadlineAfter(w.state.thread.now, seconds);
  }

  /** When a limit set now runs out. */
  function EndOf(w: World, seconds: int): nat {
    w.state.thread.now + NonNegative(seconds) * 1_000_000_000
  }

  function NonNegative(n: int): nat {
    if n < 0 then 0 else n
  }

  lemma EnterKeepsLimit(w: World, g: Fiber, delay: nat, f: Fiber, seconds: int, end: nat, answered: bool)
    requires Inv(w) && UnderLimit(w, f, seconds, end, answered) && Enabled(w, Enter(g, delay)) && (InRange(seconds) ==> end > 0)
    ensures UnderLimit(Do(w, Enter(g, delay)), f, seconds, end, answered)
  {
    EnterOne(w.state, g, delay, w.owed[g]);
  }

  lemma LeaveKeepsLimit(w: World, deliver: bool, f: Fiber, seconds: int, end: nat, answered: bool)
    requires Inv(w) && UnderLimit(w, f, seconds, end, answered) && Enabled(w, Leave(deliver))
    ensures UnderLimit(Do(w, Leave(deliver)), f, seconds, end, answered)
  {
    var g := w.state.thread.owner.value;
    LeaveOne(w.state, g, deliver, w.owed[g]);
  }

  lemma LimitKeepsLimit(w: World, s: int, deliver: bool, f: Fiber, seconds: int, end: nat, answered: bool)
    requires Inv(w) && UnderLimit(w, f, seconds, end, answered) && Enabled(w, Limit(s, deliver))
    requires w.state.thread.owner != Some(f)
    ensures UnderLimit(Do(w, Limit(s, deliver)), f, seconds, end, answered)
  {
    LimitLeavesParked(w, s, deliver, f);
  }

  lemma StepKeepsLimit(w: World, step: Step, f: Fiber, seconds: int, end: nat, answered: bool)
    requires Inv(w) && UnderLimit(w, f, seconds, end, answered) && !Relimits(w, step, f) && (InRange(seconds) ==> end > 0)
    ensures UnderLimit(Do(w, step), f, seconds, end, answered || Answers(w, step, f))
  {
    if Enabled(w, step) {
      match step
      case Enter(g, delay) => EnterKeepsLimit(w, g, delay, f, seconds, end, answered);
      case Leave(deliver) => LeaveKeepsLimit(w, deliver, f, seconds, end, answered);
      case Limit(s, deliver) => LimitKeepsLimit(w, s, deliver, f, seconds, end, answered);
      case _ =>
    }
  }

  lemma {:induction false} RunKeepsLimit(w: World, steps: seq<Step>, f: Fiber, seconds: int, end: nat)
    requires Inv(w) && UnderLimit(w, f, seconds, end, false) && !RelimitedIn(w, steps, f) && (InRange(seconds) ==> end > 0)
    ensures UnderLimit(After(w, steps), f, seconds, end, AnsweredIn(w, steps, f))
  {
    if steps != [] {
      var n := |steps| - 1;
      RunKeepsLimit(w, steps[..n], f, seconds, end);
      RunKeepsInv(w, steps[..n]);
      StepKeepsLimit(After(w, steps[..n]), steps[n], f, seconds, end, AnsweredIn(w, steps[..n], f));
    }
  }

  lemma UnderLimitMeans(u: World, f: Fiber, seconds: int, end: nat, answered: bool, delay: nat)
    requires Inv(u) && UnderLimit(u, f, seconds, end, answered) && (InRange(seconds) ==> end > 0)
    ensures var over := InRange(seconds) && u.state.thread.now >= end;
      && (u.state.thread.owner == Some(f) && u.state.thread.timedOut ==> over)
      && (Enabled(u, Enter(f, delay)) ==>
            (Do(u, Enter(f, delay)).state.thread.timedOut <==> over && !u.state.clocks[f].killed && !answered))
  {
    if Enabled(u, Enter(f, delay)) {
      ElapsedIsRaisedOnEntry(u, f, delay);
    }
  }

  /** A limit of `s` seconds is `s` times a thousand million nanoseconds. In every run from
      where a request is begun under it or sets it, with nothing raised before still to be
      answered, and until it is under another: no timeout is raised for it before that time
      has passed; it is raised on every entry after that, until it is answered, and not where
      a drain kill came first; and the engine names this limit all along. */
  lemma LimitIsKept(w: World, step: Step, f: Fiber, steps: seq<Step>, delay: nat)
    requires Inv(w) && Relimits(w, step, f) && !Do(w, step).state.thread.timedOut
    requires !RelimitedIn(Do(w, step), steps, f)
    ensures var limit := LimitSet(w, step);
      var begun, u := w.state.thread.now, After(Do(w, step), steps);
      var over := 0 < limit <= 999999999 && u.state.thread.now >= begun + limit * 1_000_000_000;
      && f in u.state.clocks && u.state.clocks[f].limit == limit
      && (u.state.thread.owner == Some(f) ==> u.state.thread.shown == limit)
      && (u.state.thread.owner == Some(f) && u.state.thread.timedOut ==> over)
      && (Enabled(u, Enter(f, delay)) ==>
            (Do(u, Enter(f, delay)).state.thread.timedOut <==>
               over && !u.state.clocks[f].killed && !AnsweredIn(Do(w, step), steps, f)))
  {
    var limit, v := LimitSet(w, step), Do(w, step);
    var end := EndOf(w, limit);
    LimitStarts(w, step, f);
    StepKeepsInv(w, step);
    RunKeepsInv(v, steps);
    RunKeepsLimit(v, steps, f, limit, end);
    UnderLimitMeans(After(v, steps), f, limit, end, AnsweredIn(v, steps, f), delay);
  }

  /** Every request of a worker begins under the limit that its boot ran under. */
  lemma {:induction false} BaselineIs(boot: Thread, deliver: bool, steps: seq<Step>)
    ensures After(TakenOver(boot, deliver), steps).state.baseline == boot.shown
  {
    if steps != [] {
      BaselineIs(boot, deliver, steps[..|steps| - 1]);
      StepKeepsBaseline(After(TakenOver(boot, deliver), steps[..|steps| - 1]), steps[|steps| - 1]);
    }
  }

  lemma StepKeepsBaseline(w: World, step: Step)
    ensures Do(w, step).state.baseline == w.state.baseline
  {
  }

  predicate KilledIn(w: World, steps: seq<Step>, f: Fiber) {
    && steps != []
    && (|| KilledIn(w, steps[..|steps| - 1], f)
        || (steps[|steps| - 1] == Kill(f) && Enabled(After(w, steps[..|steps| - 1]), Kill(f))))
  }

  /** A drain's mark stays with its request and is nobody else's. */
  lemma {:induction false} KilledIs(w: World, steps: seq<Step>, f: Fiber)
    requires f in w.state.clocks && Begin(f) !in steps
    ensures f in After(w, steps).state.clocks
    ensures After(w, steps).state.clocks[f].killed <==> w.state.clocks[f].killed || KilledIn(w, steps, f)
  {
    if steps != [] {
      KilledIs(w, steps[..|steps| - 1], f);
      assert steps[|steps| - 1] in steps;
      StepKeepsKilled(After(w, steps[..|steps| - 1]), steps[|steps| - 1], f);
    }
  }

  lemma StepKeepsKilled(w: World, step: Step, f: Fiber)
    requires f in w.state.clocks && step != Begin(f)
    ensures f in Do(w, step).state.clocks
    ensures Do(w, step).state.clocks[f].killed <==> w.state.clocks[f].killed || (step == Kill(f) && Enabled(w, step))
  {
  }

  /** The timer runs out at `at`: it still counts, or has run out and its signal is on its way or has come. */
  predicate ArmedFor(t: Thread, at: nat) {
    || (t.timer == Some(at) && !t.queued && !t.fired)
    || (t.timer.None? && t.now >= at && (t.queued || t.fired))
  }

  lemma StepKeepsArmed(w: World, step: Step, at: nat)
    requires w.state.thread.owner.Some? && ArmedFor(w.state.thread, at) && !step.Leave? && !step.Limit?
    ensures Do(w, step).state.thread.owner == w.state.thread.owner && ArmedFor(Do(w, step).state.thread, at)
  {
  }

  lemma {:induction false} ArmedInSlice(w: World, steps: seq<Step>, at: nat)
    requires w.state.thread.owner.Some? && ArmedFor(w.state.thread, at)
    requires forall i :: 0 <= i < |steps| ==> !steps[i].Leave? && !steps[i].Limit?
    ensures After(w, steps).state.thread.owner == w.state.thread.owner && ArmedFor(After(w, steps).state.thread, at)
  {
    if steps != [] {
      ArmedInSlice(w, steps[..|steps| - 1], at);
      StepKeepsArmed(After(w, steps[..|steps| - 1]), steps[|steps| - 1], at);
    }
  }

  /** Within a slice the timer runs out at the deadline, late by no more than what passed
      between reading the clock and arming it; and at a limit set there, to the nanosecond. */
  lemma SliceIsTimed(w: World, step: Step, steps: seq<Step>)
    requires Inv(w) && Enabled(w, step)
    requires step.Enter? || (step.Limit? && w.state.thread.owner.Some? && 0 < step.seconds <= 999999999)
    requires forall i :: 0 <= i < |steps| ==> !steps[i].Leave? && !steps[i].Limit?
    ensures var v, u := Do(w, step), After(Do(w, step), steps);
      && (step.Enter? && w.owed[step.fiber].counting > w.state.thread.now && w.owed[step.fiber].pending == 0 ==>
            ArmedFor(u.state.thread, w.owed[step.fiber].counting + step.delay))
      && (step.Limit? ==> ArmedFor(u.state.thread, w.state.thread.now + step.seconds * 1_000_000_000))
  {
    var v := Do(w, step);
    if step.Limit? {
      ArmedInSlice(v, steps, w.state.thread.now + step.seconds * 1_000_000_000);
    } else if w.owed[step.fiber].counting > w.state.thread.now && w.owed[step.fiber].pending == 0 {
      ArmedInSlice(v, steps, w.owed[step.fiber].counting + step.delay);
    }
  }

  /** Answering takes exactly one deadline, and only one that was raised. */
  lemma AnswerTakesOne(w: World)
    requires Inv(w) && Enabled(w, Answer)
    ensures var f := w.state.thread.owner.value;
      && w.owed[f].pending != 0
      && Do(w, Answer).owed[f] == w.owed[f].(pending := 0, answered := w.owed[f].answered + 1)
      && !Enabled(Do(w, Answer), Answer)
  {
  }

  /** In the slice of `f`, with its deadline still ahead and the timer armed for it if there is one. */
  predicate Counting(s: State, f: Fiber) {
    && s.thread.owner == Some(f) && f in s.clocks && s.clocks[f].deadline > s.thread.now && !s.clocks[f].due
    && !s.thread.timedOut && !s.thread.fired && !s.thread.queued
    && (if s.hasTimer then s.thread.timer.Some? && s.thread.timer.value >= s.clocks[f].deadline else s.thread.timer.None?)
  }

  /** A deadline that has not run out is taken for one that has exactly where the
      thread has no timer: what is left then reads as nothing. */
  lemma TakenForElapsedIff(s: State, f: Fiber, deliver: bool)
    requires Counting(s, f)
    ensures LeftSlice(s, f, deliver).clocks[f].due <==> !s.hasTimer
  {
  }

  /** So there a request that parks long before its deadline is ended on its next slice.
      No run from `TakenOver` comes to such a state: a thread the engine gave a timer keeps it. */
  lemma TimerIsNeeded()
    ensures exists s: State, f :: Counting(s, f) && LeftSlice(s, f, false).clocks[f].due
  {
    var t := Thread(5, None, false, false, false, 30, Some(1));
    var s := State(30, false, t, map[1 := Clock(30, 100, false, false)]);
    assert Counting(s, 1);
    TakenForElapsedIff(s, 1, false);
  }

  /** The arithmetic stays in 64 bits for a clock that has been up for less than 500 years. */
  lemma DeadlineFits(now: nat, seconds: int)
    requires now < 500 * 366 * 86400 * NS
    ensures DeadlineAfter(now, seconds) < 0x1_0000_0000_0000_0000
  {
  }

  // ─── The worker thread, in place ────────────────────────

  class ThreadTimer {
    var baseline: int
    var hasTimer: bool
    var thread: Thread
    var clocks: map<Fiber, Clock>

    ghost function View(): (r: State)
      reads this
    {
      State(baseline, hasTimer, thread, clocks)
    }

    /** Take the timer over, from whatever the boot left on the thread. */
    constructor (boot: Thread, deliver: bool)
      ensures View() == TakenOver(boot, deliver).state
    {
      baseline, hasTimer, clocks := boot.shown, true, map[];
      thread := TimerSet(boot, true, 0, deliver).(timedOut := false, owner := None);
    }

    method Begin(f: Fiber)
      modifies this`clocks
      ensures View() == Begun(old(View()), f)
    {
      clocks := clocks[f := Clock(baseline, DeadlineAfter(thread.now, baseline), false, false)];
    }

    method Set(ns: nat, deliver: bool) returns (left: nat)
      modifies this`thread
      ensures left == TimeLeft(old(thread), hasTimer)
      ensures thread == TimerSet(old(thread), hasTimer, ns, deliver)
    {
      left := 0;
      if !hasTimer { return; }
      if thread.timer.Some? && thread.timer.value > thread.now {
        left := thread.timer.value - thread.now;
      }
      if deliver && (thread.queued || (thread.timer.Some? && thread.timer.value <= thread.now)) {
        thread := thread.(fired := true, timedOut := true);
      }
      thread := thread.(timer := if ns == 0 then None else Some(thread.now + ns), queued := false);
    }

    method Enter(f: Fiber, delay: nat)
      requires f in clocks
      modifies this`thread, this`clocks
      ensures View() == Entered(old(View()), f, delay)
    {
      var c := clocks[f];
      thread := thread.(shown := c.limit, fired := false, timedOut := false);
      if c.due || c.deadline != 0 {
        var now := thread.now;
        if c.due || now >= c.deadline {
          clocks := clocks[f := c.(due := false, deadline := 0)];
          if !c.killed {
            thread := thread.(fired := true, timedOut := true);
          }
        } else {
          thread := thread.(now := now + delay);
          var _ := Set(c.deadline - now, false);
        }
      }
      thread := thread.(owner := Some(f));
    }

    method Leave(f: Fiber, deliver: bool)
      requires f in clocks
      modifies this`thread, this`clocks
      ensures View() == LeftSlice(old(View()), f, deliver)
    {
      thread := thread.(owner := None);
      var c := clocks[f];
      var armed, left := c.deadline != 0, 0;
      if armed {
        left := Set(0, deliver);
      }
      if thread.timedOut {
        thread := thread.(timedOut := false);
        clocks := clocks[f := c.(deadline := 0, due := true)];
      } else if !armed || left != 0 {
        // the deadline stands
      } else if thread.fired {
        clocks := clocks[f := c.(deadline := 0)];
      } else {
        clocks := clocks[f := c.(deadline := 0, due := true)];
      }
    }

    /** The engine has taken a new limit and armed its timer for it. */
    method ChangeLimit(seconds: int, deliver: bool)
      requires thread.owner.Some? ==> thread.owner.value in clocks
      modifies this`thread, this`clocks
      ensures View() == LimitChanged(old(View()), seconds, deliver)
    {
      var _ := Set(if 0 < seconds <= 999999999 then seconds * NS else 0, deliver);
      thread := thread.(shown := seconds);
      if thread.owner.None? {
        var _ := Set(0, false);
        return;
      }
      var f := thread.owner.value;
      clocks := clocks[f := clocks[f].(limit := seconds, deadline := DeadlineAfter(thread.now, seconds))];
      thread := thread.(fired := false);
    }
  }
}
