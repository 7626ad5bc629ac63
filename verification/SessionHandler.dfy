/**
 The save handler an open session is parked with. The session module keeps one
 handler per thread; a request that parks with its session open pins the handler
 it is open with, and the thread's own configuration (`ambient`) is set aside
 while that request runs again. Handlers hold counted references, and whether the
 thread still has the pin installed is decided by comparing addresses.
 */
module SessionHandler {
  import opened Basics

  type Fiber = nat
  type Addr = nat                  // 0 where a slot is empty
  type Id = nat                    // which object, as opposed to where it lives

  datatype Handler = Handler(mod: nat, defaultMod: nat, serializer: nat,
                             names: seq<Addr>, className: Addr)

  /** What an open session takes off the thread. `objs` is which objects the pin
      named when the session was parked; nothing in the source computes it. */
  datatype Lifted = Lifted(session: nat, onThread: bool, pin: Handler, ambient: Handler, objs: map<Addr, Id>)

  /** How often each object is referenced, and which object lives at each referenced address. */
  datatype Heap = Heap(refs: multiset<Addr>, ids: map<Addr, Id>)

  datatype State = State(
    thread: Handler,
    session: Option<nat>,          // the session open on the thread
    records: seq<Option<Lifted>>,  // one per fiber
    heap: Heap,
    nextId: Id,
    others: multiset<Addr>,        // references held outside the session module
    running: Option<Fiber>
  )

  // ─── References ─────────────────────────────────────────

  /** The references a handler holds, one per slot that is not empty. */
  function Refs(h: Handler): (r: multiset<Addr>) {
    (multiset(h.names) + multiset{h.className})[0 := 0]
  }

  /** What a record owns: the pin always, the ambient handler only while the pin is on the thread. */
  function RecordRefs(rec: Option<Lifted>): (r: multiset<Addr>) {
    if rec.None? then multiset{}
    else Refs(rec.value.pin) + if rec.value.onThread then Refs(rec.value.ambient) else multiset{}
  }

  /** How many references to `a` the records own between them. */
  function Owned(records: seq<Option<Lifted>>, a: Addr): (n: nat) {
    if records == [] then 0
    else Owned(records[..|records| - 1], a) + RecordRefs(records[|records| - 1])[a]
  }

  lemma {:induction false} OwnedUpdate(records: seq<Option<Lifted>>, f: nat, rec: Option<Lifted>, a: Addr)
    requires f < |records|
    ensures Owned(records[f := rec], a) + RecordRefs(records[f])[a] == Owned(records, a) + RecordRefs(rec)[a]
    ensures RecordRefs(records[f])[a] <= Owned(records, a)
  {
    var n := |records| - 1;
    if f == n {
      assert records[f := rec][..n] == records[..n];
    } else {
      assert records[f := rec][..n] == records[..n][f := rec];
      OwnedUpdate(records[..n], f, rec, a);
    }
  }

  /** References given up; an object whose last one goes is freed. */
  function Freed(h: Heap, gone: multiset<Addr>): (r: Heap) {
    Heap(h.refs - gone, map a | a in h.ids && (a in gone ==> a in h.refs - gone) :: h.ids[a])
  }

  function Shared(h: Heap, more: multiset<Addr>): (r: Heap) {
    h.(refs := h.refs + more)
  }

  // ─── The moves of the source ────────────────────────────

  /** By identity; the class name is left out of it. */
  predicate Unchanged(h: Handler, thread: Handler) {
    && thread.mod == h.mod && thread.defaultMod == h.defaultMod && thread.serializer == h.serializer
    && thread.names == h.names
  }

  function ObjsOf(h: Handler, ids: map<Addr, Id>): (r: map<Addr, Id>) {
    map a | a in ids && a in Refs(h) :: ids[a]
  }

  /** The handler the session is open with copied, the pin and the ambient handler it replaces dropped. */
  function Repinned(h: Heap, thread: Handler, rec: Lifted): (r: Heap) {
    Freed(Freed(Shared(h, Refs(thread)), Refs(rec.pin)), Refs(rec.ambient))
  }

  function Parking(s: State, ambient: Handler): (r: Lifted)
    requires s.session.Some?
  {
    Lifted(s.session.value, false, s.thread, ambient, ObjsOf(s.thread, s.heap.ids))
  }

  /** Take `f`'s open session and its handler off the thread. */
  function LiftedOff(s: State, f: Fiber): (r: State)
    requires f < |s.records| && s.session.Some?
    requires s.records[f].Some? ==> s.records[f].value.onThread
  {
    if s.records[f].None? then
      s.(records := s.records[f := Some(Parking(s, s.thread))], heap := Shared(s.heap, Refs(s.thread)), session := None)
    else
      var rec := s.records[f].value;
      var records := s.records[f := Some(Parking(s, rec.ambient))];
      if Unchanged(rec.pin, s.thread)
      then s.(records := records, session := None, thread := rec.ambient, heap := Freed(s.heap, Refs(rec.pin)))
      else s.(records := records, session := None, heap := Repinned(s.heap, s.thread, rec))
  }

  /** Put `f`'s session and the handler it is open with back on a thread that holds none. */
  function Restored(s: State, f: Fiber): (r: State)
    requires f < |s.records|
  {
    if s.records[f].None? || s.records[f].value.onThread then s
    else
      var rec := s.records[f].value;
      s.(records := s.records[f := Some(rec.(onThread := true, ambient := s.thread))],
         thread := rec.pin, heap := Shared(s.heap, Refs(rec.pin)), session := Some(rec.session))
  }

  /** The session closed, or the request ended: the thread back to its configuration. */
  function Settled(s: State, f: Fiber): (r: State)
    requires f < |s.records|
    requires s.records[f].Some? ==> s.records[f].value.onThread
  {
    if s.records[f].None? then s
    else
      var rec := s.records[f].value;
      var t := s.(records := s.records[f := None]);
      if Unchanged(rec.pin, s.thread)
      then t.(thread := rec.ambient, heap := Freed(Freed(s.heap, Refs(s.thread)), Refs(rec.pin)))
      else t.(heap := Freed(Freed(s.heap, Refs(rec.ambient)), Refs(rec.pin)))
  }

  function ClassNameDropped(s: State): (r: State) {
    s.(thread := s.thread.(className := 0), heap := Freed(s.heap, multiset{s.thread.className}[0 := 0]))
  }

  /** Give back a session that stands on the thread and is no running request's. */
  function OrphanReleased(s: State): (r: State) {
    if s.session.None? then s
    else ClassNameDropped(s.(session := None))
  }

  function SliceEnded(s: State, f: Fiber, completed: bool): (r: State)
    requires f < |s.records|
    requires s.records[f].Some? ==> s.records[f].value.onThread
  {
    var t := (if completed then OrphanReleased(s) else s).(running := None);
    if !completed && s.session.Some? then LiftedOff(t, f) else Settled(t, f)
  }

  // ─── Runs ───────────────────────────────────────────────

  datatype Step =
    | Enter(fiber: Fiber)
    | Configure(handler: Handler, made: map<Addr, Id>, next: Id)   // by whatever user code runs
    | OpenSession(session: nat)
    | CloseSession
    | DropClassName
    | Reference(addr: Addr)        // user code takes or drops a reference of its own
    | Unreference(addr: Addr)
    | Leave(completed: bool)

  /** Configuring frees what it replaces before it builds the new callbacks,
      which may then land at any address nothing refers to any more. */
  ghost predicate Configurable(s: State, h: Handler, made: map<Addr, Id>, next: Id) {
    var left := s.heap.refs - Refs(s.thread);
    && (forall a :: a in Refs(h) ==> a in left || a in made)
    && (forall a :: a in made ==> a in Refs(h) && a !in left && s.nextId <= made[a] < next)
    && s.nextId <= next
  }

  function Configured(s: State, h: Handler, made: map<Addr, Id>, next: Id): (r: State) {
    var left := Freed(s.heap, Refs(s.thread));
    s.(thread := h, heap := Heap(left.refs + Refs(h), left.ids + made), nextId := next)
  }

  ghost predicate Enabled(s: State, step: Step) {
    match step
    case Enter(f) => s.running.None? && f < |s.records|
    case Configure(h, made, next) => Configurable(s, h, made, next)
    case Reference(a) => a in s.heap.refs
    case Unreference(a) => a in s.others
    case Leave(_) => s.running.Some? && s.running.value < |s.records|
                     && (s.records[s.running.value].Some? ==> s.records[s.running.value].value.onThread)
    case _ => true
  }

  /** A step that is not enabled is not taken. */
  ghost function Do(s: State, step: Step): (r: State) {
    if !Enabled(s, step) then s else
    match step
    case Enter(f) => Restored(OrphanReleased(s), f).(running := Some(f))
    case Configure(h, made, next) => Configured(s, h, made, next)
    case OpenSession(n) => s.(session := Some(n))
    case CloseSession => s.(session := None)
    case DropClassName => ClassNameDropped(s)
    case Reference(a) => s.(heap := Shared(s.heap, multiset{a}), others := s.others + multiset{a})
    case Unreference(a) => s.(heap := Freed(s.heap, multiset{a}), others := s.others - multiset{a})
    case Leave(completed) => SliceEnded(s, s.running.value, completed)
  }

  ghost function After(s: State, steps: seq<Step>): (r: State) {
    if steps == [] then s else Do(After(s, steps[..|steps| - 1]), steps[|steps| - 1])
  }

  // ─── References balance ─────────────────────────────────
  //
  // Everything below is said of one address at a time, and so of all of them.

  /** Every reference to `a` that is counted is held somewhere, and every one held is counted. */
  ghost predicate Balanced(s: State, a: Addr) {
    s.heap.refs[a] == s.others[a] + Refs(s.thread)[a] + Owned(s.records, a)
  }

  ghost predicate Placed(s: State, a: Addr) {
    && (a in s.heap.refs <==> a in s.heap.ids)
    && (a in s.heap.ids ==> s.heap.ids[a] < s.nextId)
  }

  /** The object a record was parked with at `a` is the one still there. */
  ghost predicate PinsMatch(s: State, a: Addr) {
    forall f :: 0 <= f < |s.records| ==> PinMatches(s.records[f], s.heap.ids, a)
  }

  ghost predicate PinMatches(rec: Option<Lifted>, ids: map<Addr, Id>, a: Addr) {
    rec.Some? && a in Refs(rec.value.pin) ==> a in ids && a in rec.value.objs && ids[a] == rec.value.objs[a]
  }

  ghost predicate InvAt(s: State, a: Addr) {
    Balanced(s, a) && Placed(s, a) && PinsMatch(s, a)
  }

  /** Only the fiber whose slice runs has its pin on the thread. */
  ghost predicate Bracketed(s: State) {
    forall f :: 0 <= f < |s.records| && s.records[f].Some? ==>
      (s.records[f].value.onThread <==> s.running == Some(f))
  }

  /** While `a` is pinned it is referenced, so the object there stays the one pinned. */
  lemma PinsSurvive(s: State, t: State, f: Fiber, a: Addr)
    requires PinsMatch(s, a) && Balanced(t, a) && f < |s.records| == |t.records|
    requires t.records == s.records[f := t.records[f]] && PinMatches(t.records[f], s.heap.ids, a)
    requires a in t.heap.refs && a in s.heap.ids ==> a in t.heap.ids && t.heap.ids[a] == s.heap.ids[a]
    ensures PinsMatch(t, a)
  {
    forall g | 0 <= g < |t.records| ensures PinMatches(t.records[g], t.heap.ids, a) {
      OwnedUpdate(t.records, g, t.records[g], a);
      assert PinMatches(t.records[g], s.heap.ids, a);
    }
  }

  lemma LiftBalances(s: State, f: Fiber, a: Addr)
    requires Balanced(s, a) && Placed(s, a) && f < |s.records| && s.session.Some?
    requires s.records[f].Some? ==> s.records[f].value.onThread
    ensures Balanced(LiftedOff(s, f), a) && Placed(LiftedOff(s, f), a)
  {
    OwnedUpdate(s.records, f, LiftedOff(s, f).records[f], a);
    // One branch of the move at a time: each gives up other references.
    if s.records[f].Some? {
      var pin, ambient := Refs(s.records[f].value.pin), Refs(s.records[f].value.ambient);
      if Unchanged(s.records[f].value.pin, s.thread) {
        FreedAt(s.heap, pin, a);
      } else {
        var shared := Shared(s.heap, Refs(s.thread));
        FreedAt(shared, pin, a);
        FreedAt(Freed(shared, pin), ambient, a);
      }
    }
  }

  lemma FreedAt(h: Heap, gone: multiset<Addr>, a: Addr)
    requires gone[a] <= h.refs[a] && (a in h.refs <==> a in h.ids)
    ensures var t := Freed(h, gone);
            && t.refs[a] == h.refs[a] - gone[a] && (a in t.refs <==> a in t.ids)
            && (a in t.ids ==> a in h.ids && t.ids[a] == h.ids[a])
  {
  }

  lemma LiftPins(s: State, f: Fiber, a: Addr)
    requires Balanced(s, a) && Placed(s, a) && f < |s.records| && s.session.Some?
    requires s.records[f].Some? ==> s.records[f].value.onThread
    ensures PinMatches(LiftedOff(s, f).records[f], s.heap.ids, a)
  {
  }

  lemma LiftKeepsIds(s: State, f: Fiber, a: Addr)
    requires f < |s.records| && s.session.Some?
    requires s.records[f].Some? ==> s.records[f].value.onThread
    ensures KeepsId(s.heap, LiftedOff(s, f).heap, a)
  {
    if s.records[f].Some? {
      var pin, ambient := Refs(s.records[f].value.pin), Refs(s.records[f].value.ambient);
      var shared := Shared(s.heap, Refs(s.thread));
      FreedKeepsId(s.heap, pin, a);
      FreedKeepsId(shared, pin, a);
      FreedKeepsId(Freed(shared, pin), ambient, a);
    }
  }

  /** What is still referenced is still the same object. */
  predicate KeepsId(h: Heap, h': Heap, a: Addr) {
    a in h'.refs && a in h.ids ==> a in h'.ids && h'.ids[a] == h.ids[a]
  }

  lemma FreedKeepsId(h: Heap, gone: multiset<Addr>, a: Addr)
    ensures KeepsId(h, Freed(h, gone), a) && (a in Freed(h, gone).refs ==> a in h.refs)
  {
  }

  lemma LiftKeeps(s: State, f: Fiber, a: Addr)
    requires InvAt(s, a) && f < |s.records| && s.session.Some?
    requires s.records[f].Some? ==> s.records[f].value.onThread
    ensures InvAt(LiftedOff(s, f), a)
  {
    LiftBalances(s, f, a);
    LiftPins(s, f, a);
    LiftKeepsIds(s, f, a);
    PinsSurvive(s, LiftedOff(s, f), f, a);
  }

  lemma RestoreBalances(s: State, f: Fiber, a: Addr)
    requires Balanced(s, a) && Placed(s, a) && f < |s.records|
    ensures Balanced(Restored(s, f), a) && Placed(Restored(s, f), a)
  {
    OwnedUpdate(s.records, f, Restored(s, f).records[f], a);
  }

  lemma RestoreKeeps(s: State, f: Fiber, a: Addr)
    requires InvAt(s, a) && f < |s.records|
    ensures InvAt(Restored(s, f), a)
  {
    RestoreBalances(s, f, a);
    assert PinMatches(s.records[f], s.heap.ids, a);
    PinsSurvive(s, Restored(s, f), f, a);
  }

  lemma SettleBalances(s: State, f: Fiber, a: Addr)
    requires Balanced(s, a) && Placed(s, a) && f < |s.records|
    requires s.records[f].Some? ==> s.records[f].value.onThread
    ensures Balanced(Settled(s, f), a) && Placed(Settled(s, f), a)
  {
    OwnedUpdate(s.records, f, None, a);
    if s.records[f].Some? {
      var pin, ambient := Refs(s.records[f].value.pin), Refs(s.records[f].value.ambient);
      var first := if Unchanged(s.records[f].value.pin, s.thread) then Refs(s.thread) else ambient;
      FreedAt(s.heap, first, a);
      FreedAt(Freed(s.heap, first), pin, a);
    }
  }

  lemma SettlePins(s: State, f: Fiber, a: Addr)
    requires f < |s.records| && (s.records[f].Some? ==> s.records[f].value.onThread)
    ensures var t := Settled(s, f);
      && |t.records| == |s.records| && t.records == s.records[f := None]
      && (a in t.heap.refs && a in s.heap.ids ==> a in t.heap.ids && t.heap.ids[a] == s.heap.ids[a])
  {
  }

  lemma SettleKeeps(s: State, f: Fiber, a: Addr)
    requires InvAt(s, a) && f < |s.records|
    requires s.records[f].Some? ==> s.records[f].value.onThread
    ensures InvAt(Settled(s, f), a)
  {
    SettleBalances(s, f, a);
    SettlePins(s, f, a);
    PinsSurvive(s, Settled(s, f), f, a);
  }

  lemma DropKeepsPins(s: State, t: State, a: Addr)
    requires PinsMatch(s, a) && Balanced(t, a) && t.records == s.records
    requires a in t.heap.refs && a in s.heap.ids ==> a in t.heap.ids && t.heap.ids[a] == s.heap.ids[a]
    ensures PinsMatch(t, a)
  {
    if |s.records| > 0 {
      assert PinMatches(s.records[0], s.heap.ids, a);
      PinsSurvive(s, t, 0, a);
    }
  }

  lemma ConfigureBalances(s: State, h: Handler, made: map<Addr, Id>, next: Id, a: Addr)
    requires Balanced(s, a) && Placed(s, a) && Configurable(s, h, made, next)
    ensures Balanced(Configured(s, h, made, next), a) && Placed(Configured(s, h, made, next), a)
  {
    var left, t := s.heap.refs - Refs(s.thread), Configured(s, h, made, next);
    assert t.heap.refs[a] == left[a] + Refs(h)[a];
  }

  /** What configuring builds never lands where a pin still refers to. */
  lemma ConfigurePins(s: State, h: Handler, made: map<Addr, Id>, next: Id, a: Addr)
    requires InvAt(s, a) && Configurable(s, h, made, next)
    ensures PinsMatch(Configured(s, h, made, next), a)
  {
    var left, t := s.heap.refs - Refs(s.thread), Configured(s, h, made, next);
    forall f | 0 <= f < |s.records| ensures PinMatches(s.records[f], t.heap.ids, a) {
      OwnedUpdate(s.records, f, s.records[f], a);
      assert PinMatches(s.records[f], s.heap.ids, a);
    }
  }

  lemma OrphanKeeps(s: State, a: Addr)
    requires InvAt(s, a)
    ensures InvAt(OrphanReleased(s), a)
  {
    DropKeepsPins(s, OrphanReleased(s), a);
  }

  lemma LeaveKeeps(s: State, f: Fiber, completed: bool, a: Addr)
    requires InvAt(s, a) && f < |s.records|
    requires s.records[f].Some? ==> s.records[f].value.onThread
    ensures InvAt(SliceEnded(s, f, completed), a)
  {
    OrphanKeeps(s, a);
    var t := (if completed then OrphanReleased(s) else s).(running := None);
    assert InvAt(t, a) by { assert PinsMatch(if completed then OrphanReleased(s) else s, a); }
    if !completed && s.session.Some? {
      LiftKeeps(t, f, a);
    } else {
      SettleKeeps(t, f, a);
    }
  }

  /** What user code does within a slice, or outside every request. */
  predicate UserStep(step: Step) {
    !step.Enter? && !step.Leave?
  }

  lemma UserStepKeeps(s: State, step: Step, a: Addr)
    requires InvAt(s, a) && Enabled(s, step) && UserStep(step)
    ensures InvAt(Do(s, step), a)
  {
    match step
    case Configure(h, made, next) => ConfigureBalances(s, h, made, next, a); ConfigurePins(s, h, made, next, a);
    case _ => DropKeepsPins(s, Do(s, step), a);
  }

  lemma StepKeepsInv(s: State, step: Step, a: Addr)
    requires InvAt(s, a)
    ensures InvAt(Do(s, step), a)
  {
    if !Enabled(s, step) { return; }
    match step
    case Enter(f) =>
      OrphanKeeps(s, a);
      RestoreKeeps(OrphanReleased(s), f, a);
      assert PinsMatch(Restored(OrphanReleased(s), f), a);
    case Leave(completed) => LeaveKeeps(s, s.running.value, completed, a);
    case _ => UserStepKeeps(s, step, a);
  }

  lemma LeaveKeepsBracket(s: State, f: Fiber, completed: bool)
    requires Bracketed(s) && s.running == Some(f) && f < |s.records|
    ensures s.records[f].Some? ==> s.records[f].value.onThread
    ensures Bracketed(SliceEnded(s, f, completed))
  {
    var t := SliceEnded(s, f, completed);
    assert |t.records| == |s.records| && forall g :: 0 <= g < |s.records| && g != f ==> t.records[g] == s.records[g];
  }

  lemma EnterKeepsBracket(s: State, f: Fiber)
    requires Bracketed(s) && s.running.None? && f < |s.records|
    ensures Bracketed(Restored(OrphanReleased(s), f).(running := Some(f)))
  {
    var t := Restored(OrphanReleased(s), f);
    assert forall g :: 0 <= g < |s.records| && g != f ==> t.records[g] == s.records[g];
  }

  lemma StepKeepsBracket(s: State, step: Step)
    requires Bracketed(s)
    ensures Bracketed(Do(s, step))
  {
    if !Enabled(s, step) { return; }
    match step
    case Enter(f) => EnterKeepsBracket(s, f);
    case Leave(completed) => LeaveKeepsBracket(s, s.running.value, completed);
    case _ => assert Do(s, step).records == s.records && Do(s, step).running == s.running;
  }

  lemma {:induction false} RunKeepsInv(s: State, steps: seq<Step>, a: Addr)
    requires InvAt(s, a)
    ensures InvAt(After(s, steps), a)
  {
    if steps != [] {
      RunKeepsInv(s, steps[..|steps| - 1], a);
      StepKeepsInv(After(s, steps[..|steps| - 1]), steps[|steps| - 1], a);
    }
  }

  lemma {:induction false} RunKeepsBracket(s: State, steps: seq<Step>)
    requires Bracketed(s)
    ensures Bracketed(After(s, steps))
  {
    if steps != [] {
      RunKeepsBracket(s, steps[..|steps| - 1]);
      StepKeepsBracket(After(s, steps[..|steps| - 1]), steps[|steps| - 1]);
    }
  }

  // ─── What the runs promise ──────────────────────────────

  /** No fiber has a session parked and the counts are right. */
  ghost predicate Fresh(s: State) {
    && (forall f :: 0 <= f < |s.records| ==> s.records[f].None?)
    && s.running.None?
    && (forall a :: InvAt(s, a))
  }

  /** References balance in every run: each is counted where it is held, none is
      dropped twice, and with no session left parked none is left behind. */
  lemma ReferencesBalance(s: State, steps: seq<Step>, a: Addr)
    requires Fresh(s)
    ensures var e := After(s, steps);
      && e.heap.refs[a] == e.others[a] + Refs(e.thread)[a] + Owned(e.records, a)
      && ((forall f :: 0 <= f < |e.records| ==> e.records[f].None?) ==> e.heap.refs[a] == e.others[a] + Refs(e.thread)[a])
  {
    RunKeepsInv(s, steps, a);
    if forall f :: 0 <= f < |After(s, steps).records| ==> After(s, steps).records[f].None? {
      NothingOwned(After(s, steps).records, a);
    }
  }

  lemma {:induction false} NothingOwned(records: seq<Option<Lifted>>, a: Addr)
    requires forall f :: 0 <= f < |records| ==> records[f].None?
    ensures Owned(records, a) == 0
  {
    if records != [] { NothingOwned(records[..|records| - 1], a); }
  }

  /** A record is left alone until its own fiber is entered again. */
  lemma {:induction false} RecordUntouched(s: State, steps: seq<Step>, f: Fiber)
    requires f < |s.records| && s.running != Some(f) && Enter(f) !in steps
    ensures var e := After(s, steps); f < |e.records| && e.records[f] == s.records[f] && e.running != Some(f)
  {
    if steps != [] {
      RecordUntouched(s, steps[..|steps| - 1], f);
      UntouchedByStep(After(s, steps[..|steps| - 1]), steps[|steps| - 1], f);
    }
  }

  lemma UntouchedByStep(s: State, step: Step, f: Fiber)
    requires f < |s.records| && s.running != Some(f) && step != Enter(f)
    ensures var e := Do(s, step); f < |e.records| && e.records[f] == s.records[f] && e.running != Some(f)
  {
    if Enabled(s, step) && step.Leave? {
      var g := s.running.value;
      var t := (if step.completed then OrphanReleased(s) else s).(running := None);
      if !step.completed && s.session.Some? {
        assert LiftedOff(t, g).records == t.records[g := LiftedOff(t, g).records[g]];
      } else {
        assert Settled(t, g).records == t.records[g := None] || Settled(t, g) == t;
      }
    }
  }

  /** However a request parks with its session open and whatever runs before it
      is resumed, the same session is back on the thread, with the handler it
      was parked with and the very objects that handler named. */
  lemma ParkedSessionReturns(s: State, f: Fiber, between: seq<Step>, a: Addr)
    requires Bracketed(s) && InvAt(s, a) && s.running == Some(f) && f < |s.records| && s.session.Some?
    requires Enter(f) !in between
    requires After(Do(s, Leave(false)), between).running.None?
    ensures var e := Do(After(Do(s, Leave(false)), between), Enter(f));
      && e.session == s.session && e.thread == s.thread
      && (a in Refs(s.thread) ==> a in s.heap.ids && a in e.heap.ids && e.heap.ids[a] == s.heap.ids[a])
  {
    var p := Do(s, Leave(false));
    LeaveRecords(s, f);
    StepKeepsInv(s, Leave(false), a);
    RecordUntouched(p, between, f);
    RunKeepsInv(p, between, a);
    var q := After(p, between);
    assert PinMatches(q.records[f], q.heap.ids, a);
    OrphanKeeps(q, a);
    RestoreKeeps(OrphanReleased(q), f, a);
    assert PinMatches(OrphanReleased(q).records[f], OrphanReleased(q).heap.ids, a);
    assert PinMatches(Restored(OrphanReleased(q), f).records[f], Restored(OrphanReleased(q), f).heap.ids, a);
  }

  lemma LeaveRecords(s: State, f: Fiber)
    requires Bracketed(s) && s.running == Some(f) && f < |s.records| && s.session.Some?
    ensures Enabled(s, Leave(false))
    ensures var p := Do(s, Leave(false));
      && f < |p.records| && p.running.None? && p.records[f].Some?
      && var rec := p.records[f].value;
         !rec.onThread && rec.pin == s.thread && rec.session == s.session.value && rec.objs == ObjsOf(s.thread, s.heap.ids)
  {
  }

  /** The same configuration but for the class name, which the comparison leaves out. */
  predicate SameButClassName(h: Handler, k: Handler) {
    h == k.(className := h.className)
  }

  /** The comparison asks exactly that. */
  lemma UnchangedIs(h: Handler, thread: Handler)
    ensures Unchanged(h, thread) <==> SameButClassName(thread, h)
  {
  }

  /** A session that is parked again leaves the thread with the configuration set aside for it
      if the handler it is open with is still the one pinned, and with that handler if not;
      pinned is from then on the handler that it is open with. */
  lemma LiftChooses(s: State, f: Fiber)
    requires f < |s.records| && s.session.Some? && s.records[f].Some? && s.records[f].value.onThread
    ensures var rec, t := s.records[f].value, LiftedOff(s, f);
      && t.thread == (if SameButClassName(s.thread, rec.pin) then rec.ambient else s.thread)
      && t.session.None? && t.records[f].Some? && t.records[f].value.pin == s.thread
      && t.heap.refs == if SameButClassName(s.thread, rec.pin) then s.heap.refs - Refs(rec.pin)
                        else s.heap.refs + Refs(s.thread) - Refs(rec.pin) - Refs(rec.ambient)
  {
    UnchangedIs(s.records[f].value.pin, s.thread);
  }

  /** And so does one that is closed, or ends; what it gives up is what is then on the thread no more. */
  lemma SettleChooses(s: State, f: Fiber)
    requires f < |s.records| && s.records[f].Some? && s.records[f].value.onThread
    ensures var rec, t := s.records[f].value, Settled(s, f);
      && t.thread == (if SameButClassName(s.thread, rec.pin) then rec.ambient else s.thread)
      && t.session == s.session && t.records == s.records[f := None]
      && t.heap.refs == s.heap.refs - Refs(if SameButClassName(s.thread, rec.pin) then s.thread else rec.ambient) - Refs(rec.pin)
  {
    UnchangedIs(s.records[f].value.pin, s.thread);
  }

  /** A request is entered with its own session or with none, whatever stood on the thread,
      and its slice leaves none there. */
  lemma SessionIsItsOwn(s: State, f: Fiber, slice: seq<Step>, completed: bool)
    requires Bracketed(s) && s.running.None? && f < |s.records|
    requires forall i :: 0 <= i < |slice| ==> UserStep(slice[i])
    ensures Do(s, Enter(f)).session == if s.records[f].Some? then Some(s.records[f].value.session) else None
    ensures Do(After(Do(s, Enter(f)), slice), Leave(completed)).session == None
  {
    EnterHasItsOwn(s, f);
    SliceLeavesRecord(Do(s, Enter(f)), slice);
    LeaveLeavesNone(After(Do(s, Enter(f)), slice), f, completed);
  }

  /** Giving a session up that is nobody's takes the class name off the handler and nothing else. */
  lemma OrphanGivesUp(s: State)
    ensures var t := OrphanReleased(s);
      if s.session.None? then t == s
      else && t == s.(session := None, thread := s.thread.(className := 0), heap := t.heap)
           && forall a :: t.heap.refs[a] == s.heap.refs[a] - if a != 0 && a == s.thread.className && a in s.heap.refs then 1 else 0
  {
  }

  lemma EnterHasItsOwn(s: State, f: Fiber)
    requires Bracketed(s) && s.running.None? && f < |s.records|
    ensures var e := Do(s, Enter(f));
      && e.session == (if s.records[f].Some? then Some(s.records[f].value.session) else None)
      && e.running == Some(f) && |e.records| == |s.records|
      && (e.records[f].Some? ==> e.records[f].value.onThread)
  {
  }

  lemma LeaveLeavesNone(s: State, f: Fiber, completed: bool)
    requires s.running == Some(f) && f < |s.records| && (s.records[f].Some? ==> s.records[f].value.onThread)
    ensures Do(s, Leave(completed)).session == None
  {
  }

  /** User steps leave the record of the running request alone, and without
      `Configure` they leave the handler alone too. */
  lemma {:induction false} SliceLeavesRecord(s: State, steps: seq<Step>)
    requires forall i :: 0 <= i < |steps| ==> UserStep(steps[i])
    ensures var e := After(s, steps); e.records == s.records && e.running == s.running
    ensures (forall i :: 0 <= i < |steps| ==> !steps[i].Configure?) ==> SameButClassName(After(s, steps).thread, s.thread)
  {
    if steps != [] {
      SliceLeavesRecord(s, steps[..|steps| - 1]);
    }
  }

  lemma EnterSetsAside(s: State, f: Fiber)
    requires Bracketed(s) && s.running.None? && f < |s.records| && s.records[f].Some?
    ensures var e := Do(s, Enter(f));
      && e.running == Some(f) && f < |e.records| && e.thread == s.records[f].value.pin
      && e.records[f] == Some(s.records[f].value.(onThread := true, ambient := OrphanReleased(s).thread))
  {
  }

  lemma LeaveGivesBack(s: State, f: Fiber, completed: bool)
    requires s.running == Some(f) && f < |s.records| && s.records[f].Some? && s.records[f].value.onThread
    ensures var rec, own := s.records[f].value, if completed then OrphanReleased(s).thread else s.thread;
      Do(s, Leave(completed)).thread == if SameButClassName(own, rec.pin) then rec.ambient else own
  {
    UnchangedIs(s.records[f].value.pin, if completed then OrphanReleased(s).thread else s.thread);
  }

  /** After a slice of a request that came back with its session, the thread has
      its earlier configuration again, unless the request configured a handler
      of its own: then that one stays. */
  lemma ThreadConfigurationReturns(s: State, f: Fiber, slice: seq<Step>, completed: bool)
    requires Bracketed(s) && s.running.None? && f < |s.records| && s.records[f].Some?
    requires forall i :: 0 <= i < |slice| ==> UserStep(slice[i])
    ensures var last := After(Do(s, Enter(f)), slice);
      var own := if completed then OrphanReleased(last).thread else last.thread;
      Do(last, Leave(completed)).thread
      == if SameButClassName(own, s.records[f].value.pin) then OrphanReleased(s).thread else own
    ensures (forall i :: 0 <= i < |slice| ==> !slice[i].Configure?) ==>
      Do(After(Do(s, Enter(f)), slice), Leave(completed)).thread == OrphanReleased(s).thread
  {
    EnterSetsAside(s, f);
    SliceLeavesRecord(Do(s, Enter(f)), slice);
    LeaveGivesBack(After(Do(s, Enter(f)), slice), f, completed);
  }

  /** Comparing addresses is comparing objects: a handler with a callback made
      in the slice is never taken for the pin, because the pin's own references
      keep its addresses from being handed out again. */
  lemma NewCallbackIsNoticed(s: State, f: Fiber, h: Handler, made: map<Addr, Id>, next: Id, a: Addr)
    requires InvAt(s, a) && f < |s.records| && s.records[f].Some?
    requires Configurable(s, h, made, next) && a in made && a in h.names
    ensures !Unchanged(s.records[f].value.pin, Configured(s, h, made, next).thread)
  {
    OwnedUpdate(s.records, f, s.records[f], a);
  }

  /** Had the pin no references of its own, another object at its address would
      pass for it. */
  lemma WithoutOwnReferences()
    ensures exists s: State, f: nat, h, made, next ::
      && f < |s.records| && s.records[f].Some? && s.records[f].value.onThread
      && Configurable(s, h, made, next) && 7 in made && 7 in s.heap.ids && made[7] != s.heap.ids[7]
      && Unchanged(s.records[f].value.pin, Configured(s, h, made, next).thread)
  {
    var h := Handler(1, 1, 1, [7], 0);
    var s := State(h, Some(3), [Some(Lifted(3, true, h, h, map[7 := 0]))], Heap(multiset{7}, map[7 := 0]), 1, multiset{}, Some(0));
    var made := map[7 := 1];
    assert h.names == [7];
    assert Refs(h)[7] == 1;
    assert (s.heap.refs - Refs(h))[7] == 0;
    assert forall a :: a in Refs(h) ==> a == 7;
    assert Configurable(s, h, made, 2);
    assert Unchanged(s.records[0].value.pin, Configured(s, h, made, 2).thread);
  }

  // ─── The session module, in place ───────────────────────

  lemma FreedNextSlot(h: Heap, names: seq<Addr>, i: nat)
    requires i < |names|
    ensures var freed := Freed(h, SlotRefs(names[..i]));
            Freed(h, SlotRefs(names[..i + 1])) == if names[i] != 0 then Freed(freed, multiset{names[i]}) else freed
  {
    SlotRefsNext(names, i);
    if names[i] != 0 {
      FreedTwice(h, SlotRefs(names[..i]), multiset{names[i]});
    } else {
      assert SlotRefs(names[..i]) + multiset{} == SlotRefs(names[..i]);
    }
  }

  /** The references of a row of slots. */
  function SlotRefs(names: seq<Addr>): multiset<Addr> {
    multiset(names)[0 := 0]
  }

  lemma SlotRefsNext(names: seq<Addr>, i: nat)
    requires i < |names|
    ensures SlotRefs(names[..i + 1]) == SlotRefs(names[..i]) + (if names[i] != 0 then multiset{names[i]} else multiset{})
  {
    assert names[..i + 1] == names[..i] + [names[i]];
  }

  lemma RefsAre(h: Handler)
    ensures Refs(h) == SlotRefs(h.names) + (if h.className != 0 then multiset{h.className} else multiset{})
  {
  }

  lemma FreedNone(h: Heap)
    ensures Freed(h, multiset{}) == h && Freed(h, SlotRefs([])) == h
  {
    assert SlotRefs([]) == multiset{};
    assert h.refs - multiset{} == h.refs;
    assert Freed(h, multiset{}).ids == h.ids;
  }

  lemma FreedTwice(h: Heap, a: multiset<Addr>, b: multiset<Addr>)
    ensures Freed(Freed(h, a), b) == Freed(h, a + b)
  {
    assert h.refs - a - b == h.refs - (a + b);
    assert Freed(Freed(h, a), b).ids == Freed(h, a + b).ids;
  }

  class Module {
    var thread: Handler
    var session: Option<nat>
    var records: seq<Option<Lifted>>
    var heap: Heap
    var nextId: Id
    var others: multiset<Addr>
    var running: Option<Fiber>

    function View(): (r: State)
      reads this
    {
      State(thread, session, records, heap, nextId, others, running)
    }

    constructor (thread: Handler, fibers: nat, heap: Heap, nextId: Id, others: multiset<Addr>)
      ensures View() == State(thread, None, seq(fibers, _ => None), heap, nextId, others, None)
    {
      this.thread, this.session, this.records, this.heap := thread, None, seq(fibers, _ => None), heap;
      this.nextId, this.others, this.running := nextId, others, None;
    }

    method IsUnchanged(h: Handler) returns (same: bool)
      ensures same <==> Unchanged(h, thread)
      ensures same <==> SameButClassName(thread, h)
    {
      UnchangedIs(h, thread);
      if thread.mod != h.mod || thread.defaultMod != h.defaultMod || thread.serializer != h.serializer {
        return false;
      }
      if |thread.names| != |h.names| { return false; }
      for i := 0 to |h.names|
        invariant thread.names[..i] == h.names[..i]
      {
        if thread.names[i] != h.names[i] { return false; }
      }
      assert thread.names[..|h.names|] == thread.names && h.names[..|h.names|] == h.names;
      return true;
    }

    /** One reference given up. */
    method DropRef(a: Addr)
      modifies this`heap
      ensures heap == Freed(old(heap), multiset{a})
    {
      var refs := heap.refs - multiset{a};
      heap := Heap(refs, if a in refs then heap.ids else heap.ids - {a});
    }

    /** Slot by slot, then the class name: what goes is every reference the handler holds. */
    method Release(h: Handler)
      modifies this`heap
      ensures heap == Freed(old(heap), Refs(h))
    {
      ghost var was := heap;
      ReleaseSlots(h.names);
      RefsAre(h);
      if h.className != 0 {
        FreedTwice(was, SlotRefs(h.names), multiset{h.className});
        DropRef(h.className);
      }
    }

    method ReleaseSlots(names: seq<Addr>)
      modifies this`heap
      ensures heap == Freed(old(heap), SlotRefs(names))
    {
      ghost var was := heap;
      FreedNone(was);
      for i := 0 to |names|
        invariant heap == Freed(was, SlotRefs(names[..i]))
      {
        FreedNextSlot(was, names, i);
        if names[i] != 0 {
          DropRef(names[i]);
        }
      }
      assert names[..|names|] == names;
    }

    /** And what comes with a copy. */
    method Share(h: Handler)
      modifies this`heap
      ensures heap == Shared(old(heap), Refs(h))
    {
      ghost var was := heap;
      for i := 0 to |h.names|
        invariant heap == Shared(was, SlotRefs(h.names[..i]))
      {
        SlotRefsNext(h.names, i);
        if h.names[i] != 0 {
          heap := heap.(refs := heap.refs + multiset{h.names[i]});
        }
      }
      assert h.names[..|h.names|] == h.names;
      RefsAre(h);
      if h.className != 0 {
        heap := heap.(refs := heap.refs + multiset{h.className});
      }
    }

    method Lift(f: Fiber)
      requires f < |records| && session.Some?
      requires records[f].Some? ==> records[f].value.onThread
      modifies this`thread, this`session, this`records, this`heap
      ensures View() == LiftedOff(old(View()), f)
    {
      if records[f].Some? {
        LiftAgain(f);
        return;
      }
      records := records[f := Some(Parking(View(), thread))];
      Share(thread);
      session := None;
    }

    /** A request that came back with its session parks with it once more. */
    method LiftAgain(f: Fiber)
      requires f < |records| && session.Some? && records[f].Some? && records[f].value.onThread
      modifies this`thread, this`session, this`records, this`heap
      ensures View() == LiftedOff(old(View()), f)
    {
      var same := IsUnchanged(records[f].value.pin);
      if same { LiftPinned(f); } else { LiftOwn(f); }
    }

    /** The pin is still installed: it comes off the thread, and the thread's own handler goes back on. */
    method LiftPinned(f: Fiber)
      requires f < |records| && session.Some? && records[f].Some? && records[f].value.onThread
      requires Unchanged(records[f].value.pin, thread)
      modifies this`thread, this`session, this`records, this`heap
      ensures View() == LiftedOff(old(View()), f)
    {
      ghost var t := LiftedOff(View(), f);
      var rec := records[f].value;
      records := records[f := Some(Parking(View(), rec.ambient))];
      assert records == t.records;
      session := None;
      thread := rec.ambient;
      Release(rec.pin);
      assert heap == t.heap;
    }

    /** The request configured a handler of its own: it stays, and is pinned from here on. */
    method LiftOwn(f: Fiber)
      requires f < |records| && session.Some? && records[f].Some? && records[f].value.onThread
      requires !Unchanged(records[f].value.pin, thread)
      modifies this`session, this`records, this`heap
      ensures View() == LiftedOff(old(View()), f)
    {
      var rec := records[f].value;
      records := records[f := Some(Parking(View(), rec.ambient))];
      session := None;
      Repin(rec);
    }

    method Repin(rec: Lifted)
      modifies this`heap
      ensures heap == Repinned(old(heap), thread, rec)
    {
      Share(thread);
      Release(rec.pin);
      Release(rec.ambient);
    }

    method Restore(f: Fiber)
      requires f < |records|
      modifies this`thread, this`session, this`records, this`heap
      ensures View() == Restored(old(View()), f)
    {
      if records[f].None? || records[f].value.onThread { return; }
      var rec := records[f].value;
      records := records[f := Some(rec.(onThread := true, ambient := thread))];
      thread := rec.pin;
      Share(rec.pin);
      session := Some(rec.session);
    }

    method Settle(f: Fiber)
      requires f < |records|
      requires records[f].Some? ==> records[f].value.onThread
      modifies this`thread, this`records, this`heap
      ensures View() == Settled(old(View()), f)
    {
      if records[f].None? { return; }
      var same := IsUnchanged(records[f].value.pin);
      if same { SettlePinned(f); } else { SettleOwn(f); }
    }

    /** The pin is still installed: the thread's own handler goes back on in its place. */
    method SettlePinned(f: Fiber)
      requires f < |records| && records[f].Some? && records[f].value.onThread && Unchanged(records[f].value.pin, thread)
      modifies this`thread, this`records, this`heap
      ensures View() == Settled(old(View()), f)
    {
      var drop, pin := TakeRecord(f);
      ReleaseBoth(drop, pin);
    }

    /** The record goes, and the thread's own handler is back on; what it was and the pin are to be released. */
    method TakeRecord(f: Fiber) returns (drop: Handler, pin: Handler)
      requires f < |records| && records[f].Some?
      modifies this`thread, this`records
      ensures drop == old(thread) && pin == old(records[f]).value.pin
      ensures thread == old(records[f]).value.ambient && records == old(records)[f := None]
    {
      drop, pin := thread, records[f].value.pin;
      thread := records[f].value.ambient;
      records := records[f := None];
    }

    /** The request configured a handler of its own, which stays. */
    method SettleOwn(f: Fiber)
      requires f < |records| && records[f].Some? && records[f].value.onThread && !Unchanged(records[f].value.pin, thread)
      modifies this`records, this`heap
      ensures View() == Settled(old(View()), f)
    {
      var rec := records[f].value;
      records := records[f := None];
      ReleaseBoth(rec.ambient, rec.pin);
    }

    method ReleaseBoth(h: Handler, pin: Handler)
      modifies this`heap
      ensures heap == Freed(Freed(old(heap), Refs(h)), Refs(pin))
    {
      Release(h);
      Release(pin);
    }

    method ReleaseOrphan()
      modifies this`thread, this`session, this`heap
      ensures View() == OrphanReleased(old(View()))
    {
      if session.None? { return; }
      session := None;
      heap := Freed(heap, multiset{thread.className}[0 := 0]);
      thread := thread.(className := 0);
    }

    /** The switch into `f`. */
    method EnterSlice(f: Fiber)
      requires f < |records| && running.None?
      modifies this
      ensures View() == Do(old(View()), Enter(f))
    {
      ReleaseOrphan();
      Restore(f);
      running := Some(f);
    }

    /** The end of one of `f`'s slices. */
    method EndSlice(f: Fiber, completed: bool)
      requires f < |records| && (records[f].Some? ==> records[f].value.onThread)
      modifies this
      ensures View() == SliceEnded(old(View()), f, completed)
    {
      var open := !completed && session.Some?;
      if completed { ReleaseOrphan(); }
      running := None;
      if open { Lift(f); } else { Settle(f); }
    }
  }
}
