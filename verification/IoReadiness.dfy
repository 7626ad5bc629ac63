/**
 The readiness registrations of parked fibers: an epoll instance that holds one
 registration per descriptor and loses it without a word when the descriptor is
 closed, beside a table that records which registration each descriptor belongs
 to, so that a removal is made only by the waiter that registered.
 */
module IoReadiness {
  import opened Probing
  import opened ProbeTables

  type Fiber = nat
  type Fd = int

  /** The identity a registration carries: one record per (parked fiber, descriptor). */
  datatype Owner = Owner(fiber: Fiber, idx: nat)

  /** What the table records and what the kernel watches. */
  datatype Interest = Interest(table: map<Fd, Owner>, kernel: map<Fd, Owner>)

  // A descriptor set holds a muted descriptor as -1 - fd.

  function Recovered(fd: int): (r: int)
    ensures r >= 0
    ensures fd >= 0 ==> r == fd
    ensures fd < 0 ==> fd == -1 - r
  {
    if fd < 0 then -1 - fd else fd
  }

  function Muted(fd: int): (r: int)
    requires fd >= 0
    ensures r < 0 && Recovered(r) == fd
  {
    -1 - fd
  }

  // ─── Registration steps, on values ──────────────────────

  function Dropped(r: Interest, fd: Fd, owner: Owner): (r': Interest) {
    if fd in r.table && r.table[fd] == owner then Interest(r.table - {fd}, r.kernel - {fd}) else r
  }

  /** One registration for each entry of `fds[..n]` that is not muted. */
  function Owners(fiber: Fiber, fds: seq<int>, n: nat): (m: map<Fd, Owner>)
    requires n <= |fds|
  {
    if n == 0 then map[]
    else if fds[n - 1] < 0 then Owners(fiber, fds, n - 1)
    else Owners(fiber, fds, n - 1)[fds[n - 1] := Owner(fiber, n - 1)]
  }

  function Registered(r: Interest, fiber: Fiber, fds: seq<int>, n: nat): (r': Interest)
    requires n <= |fds|
  {
    Interest(r.table + Owners(fiber, fds, n), r.kernel + Owners(fiber, fds, n))
  }

  function RolledBack(r: Interest, fiber: Fiber, fds: seq<int>, n: nat): (r': Interest)
    requires n <= |fds|
  {
    if n == 0 then r
    else
      var p := RolledBack(r, fiber, fds, n - 1);
      if fds[n - 1] < 0 then p else Dropped(p, fds[n - 1], Owner(fiber, n - 1))
  }

  function Unparked(r: Interest, fiber: Fiber, fds: seq<int>, n: nat): (r': Interest)
    requires n <= |fds|
  {
    if n == 0 then r
    else Dropped(Unparked(r, fiber, fds, n - 1), Recovered(fds[n - 1]), Owner(fiber, n - 1))
  }

  /** The kernel has no objection of its own to `fds[..n]`: none is watched
      already and none comes twice. */
  ghost predicate Addable(kernel: map<Fd, Owner>, fds: seq<int>, n: nat)
    requires n <= |fds|
  {
    && (forall i :: 0 <= i < n && fds[i] >= 0 ==> fds[i] !in kernel)
    && (forall i, j :: 0 <= i < j < n && fds[j] >= 0 ==> fds[i] != fds[j])
  }

  /** A park that registered `stop` entries before it was refused, or all of them. */
  function Parked(r: Interest, fiber: Fiber, fds: seq<int>, stop: nat): (r': Interest)
    requires stop <= |fds|
  {
    if stop == |fds| then Registered(r, fiber, fds, stop)
    else RolledBack(Registered(r, fiber, fds, stop), fiber, fds, stop)
  }

  lemma {:induction false} OwnersAre(fiber: Fiber, fds: seq<int>, n: nat, k: map<Fd, Owner>)
    requires n <= |fds| && Addable(k, fds, n)
    ensures forall i :: 0 <= i < n && fds[i] >= 0 ==>
              fds[i] in Owners(fiber, fds, n) && Owners(fiber, fds, n)[fds[i]] == Owner(fiber, i)
    ensures forall fd :: fd in Owners(fiber, fds, n) ==> fd >= 0 && fd in fds[..n] && fd !in k
  {
    if n > 0 {
      OwnersAre(fiber, fds, n - 1, k);
      assert fds[..n] == fds[..n - 1] + [fds[n - 1]];
    }
  }

  /** Dropping one at a time what a park registered takes out those registrations and no other. */
  lemma {:induction false} RollbackTakesOut(r: Interest, fiber: Fiber, fds: seq<int>, n: nat, m: nat)
    requires n <= m <= |fds| && Addable(r.kernel, fds, m)
    ensures var p, gone := Registered(r, fiber, fds, m), Owners(fiber, fds, n).Keys;
      RolledBack(p, fiber, fds, n) == Interest(p.table - gone, p.kernel - gone)
  {
    var p := Registered(r, fiber, fds, m);
    if n == 0 {
      assert p.table - {} == p.table && p.kernel - {} == p.kernel;
    } else {
      var gone := Owners(fiber, fds, n - 1).Keys;
      RollbackTakesOut(r, fiber, fds, n - 1, m);
      if fds[n - 1] >= 0 {
        RegisteredEntry(r, fiber, fds, n - 1, m);
        DropOneMore(p, gone, fds[n - 1], Owner(fiber, n - 1));
      }
    }
  }

  lemma RegisteredEntry(r: Interest, fiber: Fiber, fds: seq<int>, i: nat, m: nat)
    requires i < m <= |fds| && fds[i] >= 0 && Addable(r.kernel, fds, m)
    ensures fds[i] in Registered(r, fiber, fds, m).table
    ensures Registered(r, fiber, fds, m).table[fds[i]] == Owner(fiber, i)
    ensures fds[i] !in Owners(fiber, fds, i)
  {
    OwnersAre(fiber, fds, m, r.kernel);
    OwnersAre(fiber, fds, i, r.kernel);
  }

  lemma DropOneMore(p: Interest, gone: set<Fd>, fd: Fd, owner: Owner)
    requires fd !in gone && fd in p.table && p.table[fd] == owner
    ensures Dropped(Interest(p.table - gone, p.kernel - gone), fd, owner)
         == Interest(p.table - (gone + {fd}), p.kernel - (gone + {fd}))
  {
    assert p.table - gone - {fd} == p.table - (gone + {fd});
    assert p.kernel - gone - {fd} == p.kernel - (gone + {fd});
  }

  /** A refused park leaves the kernel's interest set exactly as it was found,
      and the table short of no more than entries it had taken over. */
  lemma RefusedParkLeavesKernel(r: Interest, fiber: Fiber, fds: seq<int>, stop: nat)
    requires stop < |fds| && Addable(r.kernel, fds, stop)
    ensures Parked(r, fiber, fds, stop).kernel == r.kernel
    ensures Parked(r, fiber, fds, stop).table == r.table - Owners(fiber, fds, stop).Keys
  {
    RollbackTakesOut(r, fiber, fds, stop, stop);
    OwnersAre(fiber, fds, stop, r.kernel);
    var gone := Owners(fiber, fds, stop);
    assert forall fd :: fd in gone ==> fd !in r.kernel;
    assert (r.kernel + gone) - gone.Keys == r.kernel;
  }

  /** An accepted park watches every unmuted entry for its own fiber, and nothing else changes hands. */
  lemma AcceptedParkWatches(r: Interest, fiber: Fiber, fds: seq<int>)
    requires Addable(r.kernel, fds, |fds|)
    ensures var p := Parked(r, fiber, fds, |fds|);
      && (forall i :: 0 <= i < |fds| && fds[i] >= 0 ==> fds[i] in p.kernel && p.kernel[fds[i]] == Owner(fiber, i))
      && (forall fd :: fd in r.kernel ==> fd in p.kernel && p.kernel[fd] == r.kernel[fd])
      && (forall fd :: fd in p.kernel ==> fd in r.kernel || (fd >= 0 && fd in fds))
  {
    OwnersAre(fiber, fds, |fds|, r.kernel);
    assert fds[..|fds|] == fds;
  }

  lemma {:induction false} UnparkedIs(r: Interest, fiber: Fiber, fds: seq<int>, n: nat)
    requires n <= |fds|
    ensures var q := Unparked(r, fiber, fds, n);
      && (forall fd :: fd in q.table ==> fd in r.table && q.table[fd] == r.table[fd])
      && (forall fd :: fd in q.kernel ==> fd in r.kernel && q.kernel[fd] == r.kernel[fd])
      && (forall i :: 0 <= i < n && Recovered(fds[i]) in q.table ==> q.table[Recovered(fds[i])] != Owner(fiber, i))
      && (forall fd :: fd in r.table && r.table[fd].fiber != fiber ==>
            fd in q.table && (fd in r.kernel ==> fd in q.kernel))
  {
    if n > 0 {
      UnparkedIs(r, fiber, fds, n - 1);
    }
  }

  // ─── Every interleaving ─────────────────────────────────

  /** The registrations beside the descriptor sets of the fibers parked on them. */
  datatype State = State(reg: Interest, waits: map<Fiber, seq<int>>)

  datatype Step =
    | Park(fiber: Fiber, fds: seq<int>, stop: nat)   // refused after `stop` entries, or accepted
    | Unpark(fiber: Fiber)
    | Mute(fiber: Fiber, idx: nat)
    | Close(fd: Fd)                                  // the kernel drops the registration; the number may be reused

  ghost predicate Enabled(s: State, step: Step) {
    match step
    case Park(f, fds, stop) => f !in s.waits && stop <= |fds| && Addable(s.reg.kernel, fds, stop)
    case Unpark(f) => f in s.waits
    case Mute(f, i) => f in s.waits && i < |s.waits[f]| && s.waits[f][i] >= 0
    case Close(fd) => true
  }

  function Do(s: State, step: Step): (s': State)
    requires Enabled(s, step)
  {
    match step
    case Park(f, fds, stop) =>
      State(Parked(s.reg, f, fds, stop), if stop == |fds| then s.waits[f := fds] else s.waits)
    case Unpark(f) =>
      State(Unparked(s.reg, f, s.waits[f], |s.waits[f]|), s.waits - {f})
    case Mute(f, i) =>
      var fd := s.waits[f][i];
      State(Dropped(s.reg, fd, Owner(f, i)), s.waits[f := s.waits[f][i := Muted(fd)]])
    case Close(fd) =>
      s.(reg := s.reg.(kernel := s.reg.kernel - {fd}))
  }

  /** What the kernel watches the table records under the same owner, and every
      owner recorded is that of a fiber still parked on that descriptor. */
  ghost predicate Inv(s: State) {
    && Mirrors(s.reg)
    && (forall fd :: fd in s.reg.table ==> Waiting(s.waits, s.reg.table[fd], fd))
  }

  ghost predicate Mirrors(r: Interest) {
    forall fd :: fd in r.kernel ==> fd in r.table && r.table[fd] == r.kernel[fd]
  }

  ghost predicate Waiting(waits: map<Fiber, seq<int>>, o: Owner, fd: Fd) {
    fd >= 0 && o.fiber in waits && o.idx < |waits[o.fiber]| && waits[o.fiber][o.idx] == fd
  }

  ghost predicate Names(m: map<Fd, Owner>, fiber: Fiber) {
    exists fd :: fd in m && m[fd].fiber == fiber
  }

  lemma ParkKeepsInv(s: State, f: Fiber, fds: seq<int>, stop: nat)
    requires Inv(s) && Enabled(s, Park(f, fds, stop))
    ensures Inv(Do(s, Park(f, fds, stop)))
  {
    if stop < |fds| {
      RefusedParkLeavesKernel(s.reg, f, fds, stop);
      OwnersAre(f, fds, stop, s.reg.kernel);
    } else {
      OwnersAre(f, fds, stop, s.reg.kernel);
      assert fds[..stop] == fds;
    }
  }

  lemma UnparkKeepsInv(s: State, f: Fiber)
    requires Inv(s) && Enabled(s, Unpark(f))
    ensures Inv(Do(s, Unpark(f)))
    ensures !Names(Do(s, Unpark(f)).reg.table, f) && !Names(Do(s, Unpark(f)).reg.kernel, f)
  {
    var fds := s.waits[f];
    UnparkedIs(s.reg, f, fds, |fds|);
    UnparkedMirrors(s.reg, f, fds, |fds|);
    var q := Unparked(s.reg, f, fds, |fds|);
    forall fd | fd in q.table ensures q.table[fd].fiber != f {
      assert Waiting(s.waits, q.table[fd], fd);
      var i := q.table[fd].idx;
      assert fds == s.waits[f] && q.table[fd].fiber == f ==> Recovered(fds[i]) == fd;
    }
  }

  lemma {:induction false} UnparkedMirrors(r: Interest, fiber: Fiber, fds: seq<int>, n: nat)
    requires n <= |fds| && Mirrors(r)
    ensures Mirrors(Unparked(r, fiber, fds, n))
  {
    if n > 0 {
      UnparkedMirrors(r, fiber, fds, n - 1);
    }
  }

  lemma StepKeepsInv(s: State, step: Step)
    requires Inv(s) && Enabled(s, step)
    ensures Inv(Do(s, step))
  {
    match step
    case Park(f, fds, stop) => ParkKeepsInv(s, f, fds, stop);
    case Unpark(f) => UnparkKeepsInv(s, f);
    case Mute(f, i) =>
      forall fd | fd in Do(s, step).reg.table
        ensures Waiting(Do(s, step).waits, Do(s, step).reg.table[fd], fd)
      {
        assert Waiting(s.waits, s.reg.table[fd], fd);
      }
    case Close(fd) =>
  }

  /** A run: each step enabled where it is taken. */
  ghost predicate IsRun(s: State, steps: seq<Step>)
    decreases |steps|
  {
    steps == [] || (Enabled(s, steps[0]) && IsRun(Do(s, steps[0]), steps[1..]))
  }

  function After(s: State, steps: seq<Step>): (s': State)
    requires IsRun(s, steps)
    decreases |steps|
  {
    if steps == [] then s else After(Do(s, steps[0]), steps[1..])
  }

  lemma {:induction false} RunKeepsInv(s: State, steps: seq<Step>)
    requires Inv(s) && IsRun(s, steps)
    ensures Inv(After(s, steps))
    decreases |steps|
  {
    if steps != [] {
      StepKeepsInv(s, steps[0]);
      RunKeepsInv(Do(s, steps[0]), steps[1..]);
    }
  }

  /** In every run, once a fiber is unparked neither the table nor the kernel
      names any of its owner records, muted entries included. */
  lemma UnparkedIsForgotten(s: State, steps: seq<Step>, f: Fiber)
    requires Inv(s) && IsRun(s, steps) && f !in After(s, steps).waits
    ensures !Names(After(s, steps).reg.table, f) && !Names(After(s, steps).reg.kernel, f)
  {
    RunKeepsInv(s, steps);
    var e := After(s, steps);
    forall fd | fd in e.reg.table ensures e.reg.table[fd].fiber != f {
      assert Waiting(e.waits, e.reg.table[fd], fd);
    }
  }

  /** What may end the kernel's watch on `fd` for `o`: the descriptor closing,
      or the waiter itself muting the entry or being unparked. */
  predicate Ends(step: Step, fd: Fd, o: Owner) {
    step == Close(fd) || step == Unpark(o.fiber) || step == Mute(o.fiber, o.idx)
  }

  lemma StepKeepsWatch(s: State, step: Step, fd: Fd, o: Owner)
    requires Inv(s) && Enabled(s, step) && !Ends(step, fd, o)
    requires fd in s.reg.kernel && s.reg.kernel[fd] == o
    ensures fd in Do(s, step).reg.kernel && Do(s, step).reg.kernel[fd] == o
  {
    assert Waiting(s.waits, s.reg.table[fd], fd);
    match step
    case Park(f, fds, stop) =>
      OwnersAre(f, fds, stop, s.reg.kernel);
      if stop < |fds| { RefusedParkLeavesKernel(s.reg, f, fds, stop); }
    case Unpark(f) => UnparkedIs(s.reg, f, s.waits[f], |s.waits[f]|);
    case Mute(f, i) =>
    case Close(_) =>
  }

  /** A removal never takes out another waiter's registration: through any run
      a watch lasts until the descriptor closes or its own waiter gives it up. */
  lemma {:induction false} WatchLasts(s: State, steps: seq<Step>, fd: Fd, o: Owner)
    requires Inv(s) && IsRun(s, steps)
    requires fd in s.reg.kernel && s.reg.kernel[fd] == o
    requires forall i :: 0 <= i < |steps| ==> !Ends(steps[i], fd, o)
    ensures fd in After(s, steps).reg.kernel && After(s, steps).reg.kernel[fd] == o
    decreases |steps|
  {
    if steps != [] {
      StepKeepsInv(s, steps[0]);
      StepKeepsWatch(s, steps[0], fd, o);
      WatchLasts(Do(s, steps[0]), steps[1..], fd, o);
    }
  }

  // ─── What a wait reports ────────────────────────────────

  datatype Cond = In | Out | Pri | Err | Hup | Nval

  /** One descriptor of a wait: what was asked and what has been reported. */
  datatype Entry = Entry(fd: int, events: set<Cond>, revents: set<Cond>)

  datatype Wait = Wait(entries: seq<Entry>, deadline: nat, expired: bool)

  /** An event of the instance: the marker of its own timer, or an owner record. */
  datatype Event = Timer | Ready(owner: Owner, conds: set<Cond>)

  /** An entry ends its wait on something it asked for, or on an invalid descriptor. */
  predicate EntryReady(e: Entry) {
    e.revents * (e.events + {Nval}) != {}
  }

  predicate AnyReady(entries: seq<Entry>) {
    exists i :: 0 <= i < |entries| && EntryReady(entries[i])
  }

  predicate Due(w: Wait, now: nat) {
    AnyReady(w.entries) || (w.deadline != 0 && now >= w.deadline)
  }

  function Fds(entries: seq<Entry>): (r: seq<int>)
    ensures |r| == |entries|
    ensures forall i :: 0 <= i < |r| ==> r[i] == entries[i].fd
  {
    seq(|entries|, i requires 0 <= i < |entries| => entries[i].fd)
  }

  function Sets(waits: map<Fiber, Wait>): (r: map<Fiber, seq<int>>) {
    map f | f in waits :: Fds(waits[f].entries)
  }

  /** One event scattered into the entry it belongs to, muting an entry that
      reported only what nobody asked for. */
  function Scattered(reg: Interest, waits: map<Fiber, Wait>, ev: Event): (r: (Interest, map<Fiber, Wait>)) {
    if ev.Timer? || ev.owner.fiber !in waits then (reg, waits)
    else
      var w, i := waits[ev.owner.fiber], ev.owner.idx;
      if i >= |w.entries| || w.entries[i].fd < 0 then (reg, waits)
      else
        var e := w.entries[i].(revents := ev.conds);
        if ev.conds != {} && !EntryReady(e)
        then (Dropped(reg, e.fd, ev.owner),
              waits[ev.owner.fiber := w.(entries := w.entries[i := e.(fd := Muted(e.fd))])])
        else (reg, waits[ev.owner.fiber := w.(entries := w.entries[i := e])])
  }

  function ScatteredAll(reg: Interest, waits: map<Fiber, Wait>, evs: seq<Event>): (r: (Interest, map<Fiber, Wait>)) {
    if evs == [] then (reg, waits)
    else
      var p := ScatteredAll(reg, waits, evs[..|evs| - 1]);
      Scattered(p.0, p.1, evs[|evs| - 1])
  }

  /** Every entry of every active waiter reported unusable, after the wait itself failed. */
  function FailedAll(waits: map<Fiber, Wait>, active: seq<Fiber>): (r: map<Fiber, Wait>) {
    map f | f in waits :: if f in active then waits[f].(entries := AllUnusable(waits[f].entries)) else waits[f]
  }

  function AllUnusable(entries: seq<Entry>): (r: seq<Entry>)
    ensures |r| == |entries|
    ensures forall i :: 0 <= i < |r| ==> r[i] == entries[i].(revents := {Err, Nval})
  {
    seq(|entries|, i requires 0 <= i < |entries| => entries[i].(revents := {Err, Nval}))
  }

  /** The waiters a tick may resume, in list order and no more than `max`. */
  function DueFirst(waits: map<Fiber, Wait>, active: seq<Fiber>, now: nat, max: nat): (r: seq<Fiber>)
    ensures |r| <= max
  {
    if active == [] then []
    else
      var p := DueFirst(waits, active[..|active| - 1], now, max);
      var f := active[|active| - 1];
      if |p| < max && f in waits && Due(waits[f], now) then p + [f] else p
  }

  // ─── What an event does ─────────────────────────────────

  /** It is for an entry of a parked waiter, and one that is not muted. */
  predicate Reaches(waits: map<Fiber, Wait>, ev: Event) {
    && ev.Ready? && ev.owner.fiber in waits && ev.owner.idx < |waits[ev.owner.fiber].entries|
    && waits[ev.owner.fiber].entries[ev.owner.idx].fd >= 0
  }

  /** Something was reported, and nothing that was asked for. */
  predicate Unwanted(conds: set<Cond>, asked: set<Cond>) {
    conds != {} && conds !! asked + {Nval}
  }

  /** What an event leaves: its conditions in its entry, which is muted and its
      descriptor watched no more exactly if nobody asked for them; all else as it was. */
  predicate EventTaken(reg: Interest, waits: map<Fiber, Wait>, ev: Event, reg': Interest, waits': map<Fiber, Wait>) {
    if !Reaches(waits, ev) then reg' == reg && waits' == waits
    else
      var f, i := ev.owner.fiber, ev.owner.idx;
      var e := waits[f].entries[i];
      var unwanted := Unwanted(ev.conds, e.events);
      && waits'.Keys == waits.Keys && (forall g :: g in waits && g != f ==> waits'[g] == waits[g])
      && waits'[f] == waits[f].(entries := waits'[f].entries) && |waits'[f].entries| == |waits[f].entries|
      && (forall j :: 0 <= j < |waits[f].entries| && j != i ==> waits'[f].entries[j] == waits[f].entries[j])
      && waits'[f].entries[i] == Entry(if unwanted then -1 - e.fd else e.fd, e.events, ev.conds)
      && (unwanted && e.fd in reg.table && reg.table[e.fd] == ev.owner ==>
            reg'.table == reg.table - {e.fd} && reg'.kernel == reg.kernel - {e.fd})
      && (!(unwanted && e.fd in reg.table && reg.table[e.fd] == ev.owner) ==> reg' == reg)
  }

  lemma EventIsTaken(reg: Interest, waits: map<Fiber, Wait>, ev: Event)
    ensures var (reg', waits') := Scattered(reg, waits, ev); EventTaken(reg, waits, ev, reg', waits')
  {
    if Reaches(waits, ev) {
      var e := waits[ev.owner.fiber].entries[ev.owner.idx];
      DisjointIs(ev.conds, e.events + {Nval});
    }
  }

  lemma DisjointIs(a: set<Cond>, b: set<Cond>)
    ensures a !! b <==> a * b == {}
  {
    if c :| c in a * b {
      assert c in a && c in b;
    }
    if a * b == {} {
      forall c | c in a ensures c !in b {
        assert c !in a * b;
      }
    }
  }

  predicate IsFor(ev: Event, o: Owner) {
    ev.Ready? && ev.owner == o
  }

  /** The last event of a batch for one entry. */
  function LastFor(evs: seq<Event>, o: Owner): (r: int)
    ensures -1 <= r < |evs| && (r >= 0 ==> IsFor(evs[r], o))
    ensures forall j :: r < j < |evs| ==> !IsFor(evs[j], o)
  {
    if evs == [] then -1
    else if IsFor(evs[|evs| - 1], o) then |evs| - 1
    else LastFor(evs[..|evs| - 1], o)
  }

  /** Some event of the batch for the entry is one that nobody asked for. */
  predicate MutedIn(evs: seq<Event>, o: Owner, asked: set<Cond>) {
    exists j :: 0 <= j < |evs| && IsFor(evs[j], o) && Unwanted(evs[j].conds, asked)
  }

  lemma MutedInNext(evs: seq<Event>, o: Owner, asked: set<Cond>)
    requires evs != []
    ensures var n := |evs| - 1;
            MutedIn(evs, o, asked) <==> MutedIn(evs[..n], o, asked) || (IsFor(evs[n], o) && Unwanted(evs[n].conds, asked))
  {
    var n := |evs| - 1;
    if j :| 0 <= j < |evs| && IsFor(evs[j], o) && Unwanted(evs[j].conds, asked) && j < n {
      assert evs[..n][j] == evs[j];
    }
    if j :| 0 <= j < n && IsFor(evs[..n][j], o) && Unwanted(evs[..n][j].conds, asked) {
      assert evs[..n][j] == evs[j];
    }
  }

  /** The entry ends its wait after a batch: the last event for it has something it asked
      for, and none before muted it; or there is none for it, and it ended its wait already. */
  predicate EndsWait(e: Entry, o: Owner, evs: seq<Event>) {
    if e.fd < 0 || LastFor(evs, o) < 0 then EntryReady(e)
    else !MutedIn(evs, o, e.events) && evs[LastFor(evs, o)].conds * (e.events + {Nval}) != {}
  }

  predicate HasEntry(waits: map<Fiber, Wait>, f: Fiber, i: int) {
    f in waits && 0 <= i < |waits[f].entries|
  }

  /** An entry after a batch, in terms of the events for it alone. */
  predicate Heard(e: Entry, o: Owner, evs: seq<Event>, e': Entry) {
    var k := LastFor(evs, o);
    && e'.events == e.events
    && (e.fd < 0 || k < 0 ==> e' == e)
    && (e.fd >= 0 ==> (e'.fd < 0 <==> MutedIn(evs, o, e.events)))
    && (e.fd >= 0 && e'.fd < 0 ==> !EntryReady(e'))
    && (e.fd >= 0 && e'.fd >= 0 && k >= 0 ==> e'.revents == evs[k].conds)
  }

  lemma HeardNext(e: Entry, o: Owner, evs: seq<Event>, mid: Entry, e': Entry)
    requires evs != [] && Heard(e, o, evs[..|evs| - 1], mid)
    requires var ev := evs[|evs| - 1];
             e' == if !IsFor(ev, o) || mid.fd < 0 then mid
                   else Entry(if Unwanted(ev.conds, mid.events) then -1 - mid.fd else mid.fd, mid.events, ev.conds)
    ensures Heard(e, o, evs, e')
  {
    MutedInNext(evs, o, e.events);
    if e.fd >= 0 && LastFor(evs[..|evs| - 1], o) < 0 {
      assert mid == e;
    }
  }

  lemma {:induction false} EntryHears(reg: Interest, waits: map<Fiber, Wait>, evs: seq<Event>, f: Fiber, i: nat)
    requires f in waits && i < |waits[f].entries|
    ensures var seen := ScatteredAll(reg, waits, evs).1;
            && f in seen && seen[f] == waits[f].(entries := seen[f].entries) && |seen[f].entries| == |waits[f].entries|
            && Heard(waits[f].entries[i], Owner(f, i), evs, seen[f].entries[i])
  {
    if evs != [] {
      var n := |evs| - 1;
      var p := ScatteredAll(reg, waits, evs[..n]);
      var r := Scattered(p.0, p.1, evs[n]);
      EntryHears(reg, waits, evs[..n], f, i);
      EventIsTaken(p.0, p.1, evs[n]);
      HeardNext(waits[f].entries[i], Owner(f, i), evs, p.1[f].entries[i], r.1[f].entries[i]);
    }
  }

  /** What was heard decides whether the entry ends its wait. */
  lemma HeardEndsWait(e: Entry, o: Owner, evs: seq<Event>, e': Entry)
    requires Heard(e, o, evs, e')
    ensures EntryReady(e') <==> EndsWait(e, o, evs)
  {
  }

  /** A waiter's wait is over after the batch, or after a wait that failed as a whole. */
  predicate IsEnded(w: Wait, f: Fiber, failed: bool, evs: seq<Event>) {
    if failed then w.entries != [] else exists i :: 0 <= i < |w.entries| && EndsWait(w.entries[i], Owner(f, i), evs)
  }

  function Seen(reg: Interest, waits: map<Fiber, Wait>, active: seq<Fiber>, failed: bool, evs: seq<Event>): (Interest, map<Fiber, Wait>) {
    if failed then (reg, FailedAll(waits, active)) else ScatteredAll(reg, waits, evs)
  }

  lemma SeenIs(reg: Interest, waits: map<Fiber, Wait>, active: seq<Fiber>, failed: bool, evs: seq<Event>, f: Fiber)
    requires f in waits && f in active
    ensures var seen := Seen(reg, waits, active, failed, evs).1;
            && f in seen && seen[f].deadline == waits[f].deadline && seen[f].expired == waits[f].expired
            && (AnyReady(seen[f].entries) <==> IsEnded(waits[f], f, failed, evs))
  {
    var w, seen := waits[f], Seen(reg, waits, active, failed, evs).1;
    if failed {
      if w.entries != [] {
        FailureReleasesAll(waits, active, f, 0);
      }
    } else {
      ScatterKeepsShape(reg, waits, evs, f);
      forall i | 0 <= i < |w.entries| ensures EntryReady(seen[f].entries[i]) <==> EndsWait(w.entries[i], Owner(f, i), evs) {
        EntryHears(reg, waits, evs, f, i);
        HeardEndsWait(w.entries[i], Owner(f, i), evs, seen[f].entries[i]);
      }
    }
  }

  lemma {:induction false} ScatterKeepsShape(reg: Interest, waits: map<Fiber, Wait>, evs: seq<Event>, f: Fiber)
    requires f in waits
    ensures var seen := ScatteredAll(reg, waits, evs).1;
            && seen.Keys == waits.Keys
            && seen[f] == waits[f].(entries := seen[f].entries) && |seen[f].entries| == |waits[f].entries|
  {
    if evs != [] {
      var p := ScatteredAll(reg, waits, evs[..|evs| - 1]);
      ScatterKeepsShape(reg, waits, evs[..|evs| - 1], f);
      EventIsTaken(p.0, p.1, evs[|evs| - 1]);
    }
  }

  /** What a tick collects, for one waiter: it is in the batch if its wait is over or its time is,
      unless the batch is full, and marked with whether it was its time alone. */
  predicate CollectedRight(waits: map<Fiber, Wait>, active: seq<Fiber>, failed: bool, evs: seq<Event>, now: nat, max: nat,
                           out: seq<Fiber>, waits': map<Fiber, Wait>, f: Fiber) {
    && (f in out ==> f in active && f in waits)
    && (f in waits ==>
          && f in waits'
          && var ended := IsEnded(waits[f], f, failed, evs);
             var over := ended || (waits[f].deadline != 0 && now >= waits[f].deadline);
             && (f in out ==> over)
             && (f in active && over ==> f in out || |out| == max)
             && waits'[f].expired == if f in out then !ended else waits[f].expired)
  }

  lemma CollectsRight(reg: Interest, waits: map<Fiber, Wait>, active: seq<Fiber>, failed: bool, evs: seq<Event>, now: nat, max: nat, f: Fiber)
    ensures var seen := Seen(reg, waits, active, failed, evs).1;
            CollectedRight(waits, active, failed, evs, now, max, DueFirst(seen, active, now, max), Stamped(seen, active, now, max), f)
  {
    var seen := Seen(reg, waits, active, failed, evs).1;
    SeenSame(reg, waits, active, failed, evs);
    CollectedExactly(seen, active, now, max, f);
    StampedSameEntries(seen, active, now, max);
    if f in waits {
      StampedMarks(seen, active, now, max, f);
    }
    if f in waits && f in active {
      SeenIs(reg, waits, active, failed, evs, f);
    } else if f in waits && !failed {
      ScatterKeepsShape(reg, waits, evs, f);
    }
  }

  lemma SeenSame(reg: Interest, waits: map<Fiber, Wait>, active: seq<Fiber>, failed: bool, evs: seq<Event>)
    ensures Seen(reg, waits, active, failed, evs).1.Keys == waits.Keys
  {
    if !failed {
      ScatterSameWaits(reg, waits, evs);
    }
  }

  lemma {:induction false} ScatterSameWaits(reg: Interest, waits: map<Fiber, Wait>, evs: seq<Event>)
    ensures ScatteredAll(reg, waits, evs).1.Keys == waits.Keys
  {
    if evs != [] {
      var p := ScatteredAll(reg, waits, evs[..|evs| - 1]);
      ScatterSameWaits(reg, waits, evs[..|evs| - 1]);
      EventIsTaken(p.0, p.1, evs[|evs| - 1]);
    }
  }

  /** Scattering is a sequence of mutings and nothing else, as far as the registrations go. */
  lemma ScatterIsMute(reg: Interest, waits: map<Fiber, Wait>, ev: Event)
    ensures var (reg', waits') := Scattered(reg, waits, ev);
      var s, s' := State(reg, Sets(waits)), State(reg', Sets(waits'));
      s' == s || (ev.Ready? && Enabled(s, Mute(ev.owner.fiber, ev.owner.idx)) && s' == Do(s, Mute(ev.owner.fiber, ev.owner.idx)))
  {
    var (reg', waits') := Scattered(reg, waits, ev);
    if ev.Ready? && ev.owner.fiber in waits {
      var f, i := ev.owner.fiber, ev.owner.idx;
      var w := waits[f];
      if i < |w.entries| && w.entries[i].fd >= 0 {
        var e' := waits'[f].entries[i];
        assert Fds(waits'[f].entries) == Fds(w.entries)[i := e'.fd];
        assert Sets(waits') == Sets(waits)[f := Fds(w.entries)[i := e'.fd]];
        if e'.fd == w.entries[i].fd {
          assert Fds(w.entries)[i := e'.fd] == Fds(w.entries);
          assert Sets(waits') == Sets(waits);
        }
      }
    }
  }

  /** So no event can upset what the table and the kernel agree on. */
  lemma {:induction false} ScatterKeepsInv(reg: Interest, waits: map<Fiber, Wait>, evs: seq<Event>)
    requires Inv(State(reg, Sets(waits)))
    ensures var (reg', waits') := ScatteredAll(reg, waits, evs); Inv(State(reg', Sets(waits')))
  {
    if evs != [] {
      ScatterKeepsInv(reg, waits, evs[..|evs| - 1]);
      var p := ScatteredAll(reg, waits, evs[..|evs| - 1]);
      var ev := evs[|evs| - 1];
      ScatterIsMute(p.0, p.1, ev);
      if ev.Ready? && Enabled(State(p.0, Sets(p.1)), Mute(ev.owner.fiber, ev.owner.idx)) {
        StepKeepsInv(State(p.0, Sets(p.1)), Mute(ev.owner.fiber, ev.owner.idx));
      }
    }
  }

  /** Exactly the waiters that are ready or out of time are collected, unless the batch is full. */
  lemma {:induction false} CollectedExactly(waits: map<Fiber, Wait>, active: seq<Fiber>, now: nat, max: nat, f: Fiber)
    ensures f in DueFirst(waits, active, now, max) ==> f in active && f in waits && Due(waits[f], now)
    ensures f in active && f in waits && Due(waits[f], now) ==>
              f in DueFirst(waits, active, now, max) || |DueFirst(waits, active, now, max)| == max
  {
    if active != [] {
      CollectedExactly(waits, active[..|active| - 1], now, max, f);
    }
  }

  /** The batch is filled in list order: what a shorter list gives comes first. */
  lemma {:induction false} CollectedInOrder(waits: map<Fiber, Wait>, active: seq<Fiber>, now: nat, max: nat, n: nat)
    requires n <= |active|
    ensures DueFirst(waits, active[..n], now, max) <= DueFirst(waits, active, now, max)
  {
    if n < |active| {
      CollectedInOrder(waits, active[..|active| - 1], now, max, n);
      assert active[..|active| - 1][..n] == active[..n];
    } else {
      assert active[..n] == active;
    }
  }

  /** A wait that failed as a whole strands nobody: every waiter with a descriptor comes due. */
  lemma FailureReleasesAll(waits: map<Fiber, Wait>, active: seq<Fiber>, f: Fiber, now: nat)
    requires f in waits && f in active && |waits[f].entries| > 0
    ensures Due(FailedAll(waits, active)[f], now)
  {
    var es := FailedAll(waits, active)[f].entries;
    assert Nval in es[0].revents * (es[0].events + {Nval});
    assert EntryReady(es[0]);
  }

  /** The waiter's unmuted entries reported unusable. */
  function Woken(entries: seq<Entry>): (r: seq<Entry>)
    ensures |r| == |entries|
    ensures forall i :: 0 <= i < |r| ==>
              r[i] == if entries[i].fd < 0 then entries[i] else entries[i].(revents := {Err, Nval})
  {
    seq(|entries|, i requires 0 <= i < |entries| =>
      if entries[i].fd < 0 then entries[i] else entries[i].(revents := {Err, Nval}))
  }

  /** Waking a waiter makes the next tick resume it exactly when some entry of
      it is not muted, or a muted one had already settled it. A waiter whose
      every entry is muted is left to its deadline. */
  lemma WakeReleasesIff(entries: seq<Entry>)
    ensures AnyReady(Woken(entries)) <==>
              exists i :: 0 <= i < |entries| && (entries[i].fd >= 0 || EntryReady(entries[i]))
  {
    var r := Woken(entries);
    forall i | 0 <= i < |entries| ensures EntryReady(r[i]) <==> entries[i].fd >= 0 || EntryReady(entries[i]) {
      if entries[i].fd >= 0 {
        assert Nval in r[i].revents * (r[i].events + {Nval});
      }
    }
    if i :| 0 <= i < |entries| && (entries[i].fd >= 0 || EntryReady(entries[i])) {
      assert EntryReady(r[i]);
    }
  }

  lemma AllMutedIsNotWoken()
    ensures var es := [Entry(Muted(7), {Pri}, {Err})]; !AnyReady(Woken(es)) && |es| > 0
  {
    var es := [Entry(Muted(7), {Pri}, {Err})];
    assert Woken(es)[0] == es[0];
  }

  // ─── The scheduler's side of it, in place ───────────────

  class Poller {
    var table: Table<Fd, Owner>
    var kernel: map<Fd, Owner>       // the instance's interest set, which a close can shrink at any time
    var waits: map<Fiber, Wait>

    ghost predicate Valid()
      reads this, table, table.slots
    {
      table.Valid()
    }

    ghost function Reg(): (r: Interest)
      reads this, table
    {
      Interest(table.Contents, kernel)
    }

    constructor (hash: Fd -> nat)
      ensures Valid() && Reg() == Interest(map[], map[]) && waits == map[]
      ensures fresh(table) && fresh(table.slots)
    {
      table := new Table(hash, 6);
      kernel, waits := map[], map[];
    }

    /** A descriptor is closed somewhere: its registration goes without a word. */
    method Closed(fd: Fd)
      requires Valid()
      modifies this`kernel
      ensures Valid() && Reg() == old(Reg()).(kernel := old(kernel) - {fd})
    {
      kernel := kernel - {fd};
    }

    method DropRegistration(fd: Fd, owner: Owner)
      requires Valid()
      modifies this`kernel, table, table.slots
      ensures Valid() && table.slots == old(table.slots)
      ensures Reg() == Dropped(old(Reg()), fd, owner)
    {
      var found := table.Find(fd);
      if found.Missing? || table.slots[found.index].owner != owner { return; }
      kernel := kernel - {fd};
      table.Erase(found.index);
    }

    method ParkRollback(fiber: Fiber, fds: seq<int>, upto: nat)
      requires Valid() && upto <= |fds|
      modifies this`kernel, table, table.slots
      ensures Valid() && table.slots == old(table.slots)
      ensures Reg() == RolledBack(old(Reg()), fiber, fds, upto)
    {
      for j := 0 to upto
        invariant Valid() && table.slots == old(table.slots)
        invariant Reg() == RolledBack(old(Reg()), fiber, fds, j)
      {
        if fds[j] >= 0 {
          DropRegistration(fds[j], Owner(fiber, j));
        }
      }
    }

    /** Register one descriptor and record whose it is: both, or neither. */
    method Watch(fd: Fd, owner: Owner, declined: bool, alloc: bool) returns (ok: bool)
      requires Valid()
      modifies this`kernel, table, table.slots
      ensures Valid() && (table.slots == old(table.slots) || fresh(table.slots))
      ensures ok ==> !declined && fd !in old(kernel)
      ensures Reg() == if ok then Interest(old(table.Contents)[fd := owner], old(kernel)[fd := owner]) else old(Reg())
      ensures !ok ==> declined || fd in kernel || !alloc || table.slots.Length >= MAX_SLOTS
    {
      if declined || fd in kernel { return false; }
      kernel := kernel[fd := owner];
      ok := table.Put(fd, owner, alloc);
      if !ok {
        kernel := kernel - {fd};
        assert kernel == old(kernel);
      }
    }

    /** Register every descriptor a fiber is about to wait on, or none.
        `declined` are the entries the kernel will not watch at all and `alloc`
        those at which the table could grow if it had to. */
    method Park(fiber: Fiber, fds: seq<int>, declined: set<nat>, alloc: set<nat>) returns (ok: bool, ghost stop: nat)
      requires Valid()
      modifies this`kernel, table, table.slots
      ensures Valid() && (table.slots == old(table.slots) || fresh(table.slots))
      ensures stop <= |fds| && (ok <==> stop == |fds|)
      ensures Addable(old(kernel), fds, stop)
      ensures Reg() == Parked(old(Reg()), fiber, fds, stop)
      ensures forall i :: 0 <= i < stop && fds[i] >= 0 ==> i !in declined
      ensures !ok ==> stop in declined || !Addable(old(kernel), fds, stop + 1) || stop !in alloc || table.slots.Length >= MAX_SLOTS
    {
      for i := 0 to |fds|
        invariant Valid() && (table.slots == old(table.slots) || fresh(table.slots))
        invariant Addable(old(kernel), fds, i)
        invariant Reg() == Registered(old(Reg()), fiber, fds, i)
        invariant forall j :: 0 <= j < i && fds[j] >= 0 ==> j !in declined
      {
        var watched := ParkOne(fiber, fds, i, i in declined, i in alloc, old(Reg()));
        if !watched {
          ParkRollback(fiber, fds, i);
          return false, i;
        }
      }
      return true, |fds|;
    }

    /** Entry `i`, after those before it were registered over `r`. */
    method ParkOne(fiber: Fiber, fds: seq<int>, i: nat, declined: bool, alloc: bool, ghost r: Interest) returns (ok: bool)
      requires Valid() && i < |fds| && Addable(r.kernel, fds, i) && Reg() == Registered(r, fiber, fds, i)
      modifies this`kernel, table, table.slots
      ensures Valid() && (table.slots == old(table.slots) || fresh(table.slots))
      ensures ok ==> Addable(r.kernel, fds, i + 1) && Reg() == Registered(r, fiber, fds, i + 1) && (fds[i] >= 0 ==> !declined)
      ensures !ok ==> Reg() == old(Reg()) && (declined || !Addable(r.kernel, fds, i + 1) || !alloc || table.slots.Length >= MAX_SLOTS)
    {
      AddableNext(r, fiber, fds, i);
      RegisteredNext(r, fiber, fds, i);
      ok := true;
      if fds[i] >= 0 {
        ok := Watch(fds[i], Owner(fiber, i), declined, alloc);
      }
    }

    /** Stop watching a fiber's descriptors and forget its wait. */
    method Unpark(fiber: Fiber)
      requires Valid()
      modifies this`kernel, this`waits, table, table.slots
      ensures Valid() && table.slots == old(table.slots)
      ensures waits == old(waits) - {fiber}
      ensures Reg() == if fiber in old(waits)
                       then Unparked(old(Reg()), fiber, Fds(old(waits)[fiber].entries), |old(waits)[fiber].entries|)
                       else old(Reg())
    {
      if fiber !in waits {
        assert waits - {fiber} == waits;
        return;
      }
      DropAll(fiber, Fds(waits[fiber].entries));
      waits := waits - {fiber};
    }

    method DropAll(fiber: Fiber, fds: seq<int>)
      requires Valid()
      modifies this`kernel, table, table.slots
      ensures Valid() && table.slots == old(table.slots)
      ensures Reg() == Unparked(old(Reg()), fiber, fds, |fds|)
    {
      for i := 0 to |fds|
        invariant Valid() && table.slots == old(table.slots)
        invariant Reg() == Unparked(old(Reg()), fiber, fds, i)
      {
        DropRegistration(Recovered(fds[i]), Owner(fiber, i));
      }
    }

    /** Park `fiber` on `entries`: nothing is recorded unless every entry could be watched. */
    method BeginWait(fiber: Fiber, entries: seq<Entry>, deadline: nat, declined: set<nat>, alloc: set<nat>)
        returns (ok: bool, ghost stop: nat)
      requires Valid() && fiber !in waits
      modifies this`kernel, this`waits, table, table.slots
      ensures Valid() && (table.slots == old(table.slots) || fresh(table.slots))
      ensures ok <==> stop == |entries|
      ensures Enabled(State(old(Reg()), Sets(old(waits))), Step.Park(fiber, Fds(entries), stop))
      ensures State(Reg(), Sets(waits)) == Do(State(old(Reg()), Sets(old(waits))), Step.Park(fiber, Fds(entries), stop))
      ensures !ok ==> waits == old(waits)
      ensures ok ==>
        && fiber in waits && waits == old(waits)[fiber := Wait(waits[fiber].entries, deadline, false)]
        && |waits[fiber].entries| == |entries|
        && forall i :: 0 <= i < |entries| ==> waits[fiber].entries[i] == Entry(entries[i].fd, entries[i].events, {})
    {
      var w := Reported(entries);
      ok, stop := Park(fiber, Fds(w), declined, alloc);
      assert Fds(w) == Fds(entries);
      if ok {
        SetsUpdate(waits, fiber, Wait(w, deadline, false));
        waits := waits[fiber := Wait(w, deadline, false)];
      }
    }

    /** Report a waiter's unmuted entries unusable: it is due from then on exactly if it
        has one, or a muted one had settled it. Nothing it watches changes. */
    method WakeIo(fiber: Fiber)
      requires Valid()
      modifies this`waits
      ensures Valid() && Sets(waits) == Sets(old(waits))
      ensures fiber !in old(waits) ==> waits == old(waits)
      ensures fiber in old(waits) ==>
        && waits == old(waits)[fiber := old(waits)[fiber].(entries := Woken(old(waits)[fiber].entries))]
        && (AnyReady(waits[fiber].entries) <==>
              exists i :: 0 <= i < |old(waits)[fiber].entries| &&
                          (old(waits)[fiber].entries[i].fd >= 0 || EntryReady(old(waits)[fiber].entries[i])))
    {
      if fiber !in waits {
        return;
      }
      var w := waits[fiber];
      var es := w.entries;
      for i := 0 to |es|
        invariant |es| == |w.entries|
        invariant forall k :: 0 <= k < |es| ==> es[k] == if k < i then Woken(w.entries)[k] else w.entries[k]
      {
        if es[i].fd >= 0 {
          es := es[i := es[i].(revents := {Err, Nval})];
        }
      }
      assert es == Woken(w.entries);
      WakeReleasesIff(w.entries);
      assert Fds(es) == Fds(w.entries);
      SetsUpdate(waits, fiber, w.(entries := es));
      assert Sets(waits)[fiber := Fds(es)] == Sets(waits);
      waits := waits[fiber := w.(entries := es)];
    }

    /** Entry by entry, for each waiter on the active list. */
    method FailWaits(active: seq<Fiber>)
      modifies this`waits
      ensures waits == FailedAll(old(waits), active)
    {
      for i := 0 to |active|
        invariant waits == FailedAll(old(waits), active[..i])
      {
        FailedNext(old(waits), active, i);
        if active[i] in waits {
          var es := Unusable(waits[active[i]].entries);
          waits := waits[active[i] := waits[active[i]].(entries := es)];
        }
      }
      assert active[..|active|] == active;
    }

    method Unusable(entries: seq<Entry>) returns (es: seq<Entry>)
      ensures es == AllUnusable(entries)
    {
      es := entries;
      for i := 0 to |es|
        invariant |es| == |entries|
        invariant forall k :: 0 <= k < |es| ==> es[k] == if k < i then AllUnusable(entries)[k] else entries[k]
      {
        es := es[i := es[i].(revents := {Err, Nval})];
      }
    }

    /** Scatter what the instance reported and pick the waiters the tick may resume. */
    method CollectReady(active: seq<Fiber>, failed: bool, evs: seq<Event>, now: nat, max: nat) returns (out: seq<Fiber>)
      requires Valid()
      modifies this`kernel, this`waits, table, table.slots
      ensures Valid() && table.slots == old(table.slots)
      ensures var (reg, seen) := Seen(old(Reg()), old(waits), active, failed, evs);
        && Reg() == reg
        && out == DueFirst(seen, active, now, max)
        && waits == Stamped(seen, active, now, max)
      ensures forall f :: CollectedRight(old(waits), active, failed, evs, now, max, out, waits, f)
    {
      ghost var reg, before := Reg(), waits;
      if failed {
        FailWaits(active);
      } else {
        ScatterEvents(evs);
      }
      out := PickDue(active, now, max);
      forall f ensures CollectedRight(before, active, failed, evs, now, max, out, waits, f) {
        CollectsRight(reg, before, active, failed, evs, now, max, f);
      }
    }

    method ScatterEvents(evs: seq<Event>)
      requires Valid()
      modifies this`kernel, this`waits, table, table.slots
      ensures Valid() && table.slots == old(table.slots)
      ensures (Reg(), waits) == ScatteredAll(old(Reg()), old(waits), evs)
      ensures forall f, i :: HasEntry(old(waits), f, i) ==>
                HasEntry(waits, f, i) && Heard(old(waits)[f].entries[i], Owner(f, i), evs, waits[f].entries[i])
    {
      ghost var reg, before := Reg(), waits;
      for i := 0 to |evs|
        invariant Valid() && table.slots == old(table.slots)
        invariant (Reg(), waits) == ScatteredAll(old(Reg()), old(waits), evs[..i])
      {
        assert evs[..i + 1][..i] == evs[..i];
        Scatter(evs[i]);
      }
      assert evs[..|evs|] == evs;
      forall f, i | HasEntry(before, f, i)
        ensures HasEntry(waits, f, i) && Heard(before[f].entries[i], Owner(f, i), evs, waits[f].entries[i])
      {
        EntryHears(reg, before, evs, f, i);
      }
    }

    method PickDue(active: seq<Fiber>, now: nat, max: nat) returns (out: seq<Fiber>)
      modifies this`waits
      ensures out == DueFirst(old(waits), active, now, max)
      ensures waits == Stamped(old(waits), active, now, max)
    {
      out := [];
      for i := 0 to |active|
        invariant out == DueFirst(old(waits), active[..i], now, max)
        invariant waits == Stamped(old(waits), active[..i], now, max)
      {
        assert active[..i + 1][..i] == active[..i];
        var f := active[i];
        StampedSameEntries(old(waits), active[..i], now, max);
        if |out| < max && f in waits {
          var any := AnyReady(waits[f].entries);
          var expired := !any && waits[f].deadline != 0 && now >= waits[f].deadline;
          if any || expired {
            waits := waits[f := waits[f].(expired := expired)];
            out := out + [f];
          }
        }
      }
      assert active[..|active|] == active;
    }

    method Scatter(ev: Event)
      requires Valid()
      modifies this`kernel, this`waits, table, table.slots
      ensures Valid() && table.slots == old(table.slots)
      ensures (Reg(), waits) == Scattered(old(Reg()), old(waits), ev)
      ensures EventTaken(old(Reg()), old(waits), ev, Reg(), waits)
    {
      EventIsTaken(Reg(), waits, ev);
      if ev.Timer? || ev.owner.fiber !in waits { return; }
      var f, i := ev.owner.fiber, ev.owner.idx;
      var w := waits[f];
      if i >= |w.entries| || w.entries[i].fd < 0 { return; }
      var e := w.entries[i].(revents := ev.conds);
      if ev.conds != {} && !EntryReady(e) {
        DropRegistration(e.fd, ev.owner);
        e := e.(fd := Muted(e.fd));
      }
      waits := waits[f := w.(entries := w.entries[i := e])];
    }
  }

  lemma FailedNext(waits: map<Fiber, Wait>, active: seq<Fiber>, i: nat)
    requires i < |active|
    ensures var p, f := FailedAll(waits, active[..i]), active[i];
            FailedAll(waits, active[..i + 1])
            == if f in p then p[f := p[f].(entries := AllUnusable(p[f].entries))] else p
  {
    var p, f := FailedAll(waits, active[..i]), active[i];
    assert active[..i + 1] == active[..i] + [f];
    if f in p {
      assert AllUnusable(AllUnusable(waits[f].entries)) == AllUnusable(waits[f].entries);
    }
  }

  lemma SetsUpdate(waits: map<Fiber, Wait>, f: Fiber, w: Wait)
    ensures Sets(waits[f := w]) == Sets(waits)[f := Fds(w.entries)]
  {
  }

  /** The entries as a wait starts with them: nothing reported yet. */
  function Reported(entries: seq<Entry>): (r: seq<Entry>)
    ensures |r| == |entries|
    ensures forall i :: 0 <= i < |r| ==> r[i] == entries[i].(revents := {})
  {
    seq(|entries|, i requires 0 <= i < |entries| => entries[i].(revents := {}))
  }

  /** The collected waiters marked with whether it was their deadline that ended the wait. */
  function Stamped(waits: map<Fiber, Wait>, active: seq<Fiber>, now: nat, max: nat): (r: map<Fiber, Wait>) {
    if active == [] then waits
    else
      var p := Stamped(waits, active[..|active| - 1], now, max);
      var f := active[|active| - 1];
      if |DueFirst(waits, active[..|active| - 1], now, max)| < max && f in p && f in waits && Due(waits[f], now)
      then p[f := p[f].(expired := !AnyReady(waits[f].entries))]
      else p
  }

  lemma {:induction false} StampedSameEntries(waits: map<Fiber, Wait>, active: seq<Fiber>, now: nat, max: nat)
    ensures var r := Stamped(waits, active, now, max);
      && r.Keys == waits.Keys
      && forall f :: f in waits ==> r[f].entries == waits[f].entries && r[f].deadline == waits[f].deadline
  {
    if active != [] {
      StampedSameEntries(waits, active[..|active| - 1], now, max);
    }
  }

  /** A collected waiter is marked with whether it was not ready, and no other is touched. */
  lemma {:induction false} StampedMarks(waits: map<Fiber, Wait>, active: seq<Fiber>, now: nat, max: nat, f: Fiber)
    requires f in waits
    ensures var r := Stamped(waits, active, now, max);
      && f in r
      && r[f].expired == if f in DueFirst(waits, active, now, max) then !AnyReady(waits[f].entries) else waits[f].expired
  {
    StampedSameEntries(waits, active, now, max);
    if active != [] {
      StampedMarks(waits, active[..|active| - 1], now, max, f);
      StampedSameEntries(waits, active[..|active| - 1], now, max);
    }
  }

  lemma AddableNext(r: Interest, fiber: Fiber, fds: seq<int>, n: nat)
    requires n < |fds| && Addable(r.kernel, fds, n)
    ensures Addable(r.kernel, fds, n + 1) <==> fds[n] < 0 || fds[n] !in Registered(r, fiber, fds, n).kernel
  {
    OwnersAre(fiber, fds, n, r.kernel);
    var fd := fds[n];
    if fd >= 0 && fd !in r.kernel && fd in Owners(fiber, fds, n) {
      var i :| 0 <= i < n && fds[..n][i] == fd;
      assert fds[i] == fds[n];
    }
  }

  lemma RegisteredNext(r: Interest, fiber: Fiber, fds: seq<int>, n: nat)
    requires n < |fds|
    ensures var p := Registered(r, fiber, fds, n);
      Registered(r, fiber, fds, n + 1)
      == if fds[n] < 0 then p
         else Interest(p.table[fds[n] := Owner(fiber, n)], p.kernel[fds[n] := Owner(fiber, n)])
  {
    if fds[n] >= 0 {
      MergeThenSet(r.table, Owners(fiber, fds, n), fds[n], Owner(fiber, n));
      MergeThenSet(r.kernel, Owners(fiber, fds, n), fds[n], Owner(fiber, n));
    }
  }

  lemma MergeThenSet(m: map<Fd, Owner>, k: map<Fd, Owner>, fd: Fd, owner: Owner)
    ensures m + k[fd := owner] == (m + k)[fd := owner]
  {
  }
}
