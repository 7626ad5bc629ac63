/**
 putenv() on a thread that serves many requests. Each variable a request sets is
 recorded with what to put back and with the request that set it, and is put back
 as that request ends.
 */
module PutEnv {
  import opened Basics

  type Name = string
  type Fiber = nat

  /** What the process has for a name; absent for unset. */
  type Env = map<Name, string>

  function Lookup(e: Env, n: Name): Option<string> {
    if n in e then Some(e[n]) else None
  }

  function Assigned(e: Env, n: Name, v: Option<string>): Env {
    if v.Some? then e[n := v.value] else e - {n}
  }

  // ─── A setting ────────────────────────────────────────────

  /** Where a setting's name ends: at the first equals sign, or at its end. */
  function NameEnd(setting: string): (k: nat)
    ensures k <= |setting|
    ensures forall i :: 0 <= i < k ==> setting[i] != '='
    ensures k < |setting| ==> setting[k] == '='
  {
    if setting == [] || setting[0] == '=' then 0 else NameEnd(setting[1..]) + 1
  }

  /** The first equals sign, by the scan that looks for it. */
  method FindEquals(setting: string) returns (k: nat)
    ensures k == NameEnd(setting)
  {
    k := 0;
    while k < |setting| && setting[k] != '='
      invariant k <= |setting| && forall i :: 0 <= i < k ==> setting[i] != '='
    {
      k := k + 1;
    }
    NameEndUnique(setting, k);
  }

  lemma NameEndUnique(setting: string, k: nat)
    requires k <= |setting| && forall i :: 0 <= i < k ==> setting[i] != '='
    requires k < |setting| ==> setting[k] == '='
    ensures k == NameEnd(setting)
  {
  }

  /** "NAME=VALUE" sets, "NAME" unsets. */
  function NameOf(setting: string): Name {
    setting[..NameEnd(setting)]
  }

  function ValueOf(setting: string): Option<string> {
    var k := NameEnd(setting);
    if k < |setting| then Some(setting[k + 1..]) else None
  }

  /** Nothing of a setting is lost in taking it apart. */
  lemma SettingIs(n: Name, v: string)
    requires '=' !in n
    ensures NameOf(n + "=" + v) == n && ValueOf(n + "=" + v) == Some(v)
    ensures NameOf(n) == n && ValueOf(n) == None
  {
    NameEndUnique(n + "=" + v, |n|);
    NameEndUnique(n, |n|);
  }

  // ─── The table ────────────────────────────────────────────

  /** The process's environment and, for each name set while serving, what to put back. */
  datatype Table = Table(env: Env, undo: map<Name, Option<string>>)

  /** `owner[n]` is the request that set the name. */
  datatype State = State(t: Table, owner: map<Name, Fiber>, live: set<Fiber>, current: Option<Fiber>)

  /** An entry leaves the table and its variable goes back to what it was. */
  function Removed(t: Table, n: Name): Table
    requires n in t.undo
  {
    Table(Assigned(t.env, n, t.undo[n]), t.undo - {n})
  }

  /** The engine's putenv(): the entry standing for the name goes first. A call that
      fails sets nothing and adds no entry. */
  function EnginePut(t: Table, n: Name, v: Option<string>, ok: bool): Table {
    var u := if n in t.undo then Removed(t, n) else t;
    if ok then Table(Assigned(u.env, n, v), u.undo[n := Lookup(u.env, n)]) else u
  }

  function Noted(s: State, n: Name, ok: bool): State {
    if ok && s.current.Some? then s.(owner := s.owner[n := s.current.value]) else s.(owner := s.owner - {n})
  }

  function Put(s: State, n: Name, v: Option<string>, ok: bool): State {
    Noted(s.(t := EnginePut(s.t, n, v, ok)), n, ok)
  }

  /** Whether the end of request `f` keeps the entry: another request's, still in flight. */
  predicate Kept(s: State, f: Fiber, n: Name) {
    n in s.owner && s.owner[n] != f && s.owner[n] in s.live
  }

  /** The entries `gone` destroyed. */
  function Without(t: Table, gone: set<Name>): Table
    requires gone <= t.undo.Keys
  {
    Table(map n | n in t.env.Keys + gone && (if n in gone then t.undo[n].Some? else n in t.env)
            :: if n in gone then t.undo[n].value else t.env[n],
          t.undo - gone)
  }

  /** The entries that the end of request `f` destroys. */
  function Doomed(s: State, f: Fiber): set<Name> {
    set n | n in s.t.undo && !Kept(s, f, n)
  }

  /** What the end of request `f` leaves. */
  function Ended(s: State, f: Fiber): State {
    s.(t := Without(s.t, Doomed(s, f)), owner := s.owner - Doomed(s, f))
  }

  function Released(s: State): State {
    s.(t := Without(s.t, s.t.undo.Keys), owner := map[])
  }

  // ─── Whole runs ───────────────────────────────────────────

  /** Who set a name, and to what. */
  datatype Claim = Claim(setter: Option<Fiber>, value: Option<string>)

  /** A plain account of the settings that stand. */
  datatype World = World(s: State, claims: map<Name, Claim>)

  datatype Step =
    | Enter(fiber: Fiber)
    | Leave                                  // the slice is over, the request still in flight
    | Set(setting: string, ok: bool)         // in a request, or outside every request
    | Complete(fiber: Fiber)                 // flagged over, its end still to come or skipped
    | End(fiber: Fiber)

  /** A step that is not enabled is not taken. */
  function Do(s: State, step: Step): State {
    match step
    case Enter(f) => if s.current.None? then s.(current := Some(f), live := s.live + {f}) else s
    case Leave => s.(current := None)
    case Set(setting, ok) => Put(s, NameOf(setting), ValueOf(setting), ok)
    case Complete(f) => s.(live := s.live - {f})
    case End(f) => Ended(s, f)
  }

  function Claimed(w: World, n: Name, v: Option<string>, ok: bool): map<Name, Claim> {
    if ok then w.claims[n := Claim(w.s.current, v)] else w.claims - {n}
  }

  function ClaimsAfter(w: World, step: Step): map<Name, Claim> {
    match step
    case Set(setting, ok) => Claimed(w, NameOf(setting), ValueOf(setting), ok)
    case End(f) =>
      map n | n in w.claims && w.claims[n].setter.Some? && w.claims[n].setter.value != f && w.claims[n].setter.value in w.s.live
        :: w.claims[n]
    case _ => w.claims
  }

  function After(w: World, steps: seq<Step>): World {
    if steps == [] then w else
      var v, last := After(w, steps[..|steps| - 1]), steps[|steps| - 1];
      World(Do(v.s, last), ClaimsAfter(v, last))
  }

  /** The environment is what boot left, overlaid by the settings that stand; and
      every entry would put back what boot left. */
  predicate InvAt(boot: Env, w: World, n: Name) {
    && (n in w.s.t.undo <==> n in w.claims)
    && (n in w.s.t.undo ==> w.s.t.undo[n] == Lookup(boot, n))
    && (n in w.claims ==>
          Lookup(w.s.t.env, n) == w.claims[n].value && w.claims[n].setter == if n in w.s.owner then Some(w.s.owner[n]) else None)
    && (n !in w.claims ==> Lookup(w.s.t.env, n) == Lookup(boot, n) && n !in w.s.owner)
  }

  lemma StepKeepsInv(boot: Env, w: World, step: Step, n: Name)
    requires InvAt(boot, w, n)
    ensures InvAt(boot, World(Do(w.s, step), ClaimsAfter(w, step)), n)
  {
    match step
    case Set(setting, ok) => PutKeepsInv(boot, w, NameOf(setting), ValueOf(setting), ok, n);
    case End(f) => EndKeepsInv(boot, w, f, n);
    case _ =>
  }

  lemma PutKeepsInv(boot: Env, w: World, m: Name, v: Option<string>, ok: bool, n: Name)
    requires InvAt(boot, w, n)
    ensures InvAt(boot, World(Put(w.s, m, v, ok), Claimed(w, m, v, ok)), n)
  {
  }

  lemma EndKeepsInv(boot: Env, w: World, f: Fiber, n: Name)
    requires InvAt(boot, w, n)
    ensures InvAt(boot, World(Ended(w.s, f), ClaimsAfter(w, End(f))), n)
  {
  }

  lemma {:induction false} RunKeepsInv(boot: Env, w: World, steps: seq<Step>, n: Name)
    requires InvAt(boot, w, n)
    ensures InvAt(boot, After(w, steps), n)
  {
    if steps != [] {
      RunKeepsInv(boot, w, steps[..|steps| - 1], n);
      StepKeepsInv(boot, After(w, steps[..|steps| - 1]), steps[|steps| - 1], n);
    }
  }

  predicate Boot(boot: Env, w: World) {
    w.s.t.env == boot && w.s.t.undo == map[] && w.s.owner == map[] && w.claims == map[]
  }

  /** In every run, a variable is what the last setting that stands made it, and
      what boot left it otherwise. */
  lemma EnvironmentIs(boot: Env, w: World, steps: seq<Step>, n: Name)
    requires Boot(boot, w)
    ensures var v := After(w, steps);
            Lookup(v.s.t.env, n) == if n in v.claims then v.claims[n].value else Lookup(boot, n)
  {
    RunKeepsInv(boot, w, steps, n);
  }

  /** As a request ends, what differs from boot is another's, still in flight, and as that other left it. */
  lemma EndLeavesOthersOnly(boot: Env, w: World, steps: seq<Step>, f: Fiber, n: Name)
    requires Boot(boot, w)
    ensures var before := After(w, steps);
            var after := Ended(before.s, f);
            || Lookup(after.t.env, n) == Lookup(boot, n)
            || (&& n in before.claims && before.claims[n].setter.Some?
                && before.claims[n].setter.value != f && before.claims[n].setter.value in before.s.live
                && Lookup(after.t.env, n) == before.claims[n].value)
  {
    RunKeepsInv(boot, w, steps, n);
  }

  /** After the release the environment is what boot left. */
  lemma ReleaseLeavesBoot(boot: Env, w: World, steps: seq<Step>)
    requires Boot(boot, w)
    ensures Released(After(w, steps).s).t.env == boot
  {
    var s := After(w, steps).s;
    forall n
      ensures Lookup(Released(s).t.env, n) == Lookup(boot, n)
    {
      RunKeepsInv(boot, w, steps, n);
    }
    SameLookups(Released(s).t.env, boot);
  }

  lemma SameLookups(e: Env, d: Env)
    requires forall n :: Lookup(e, n) == Lookup(d, n)
    ensures e == d
  {
    forall n
      ensures n in e <==> n in d
      ensures n in e ==> e[n] == d[n]
    {
      assert Lookup(e, n) == Lookup(d, n);
    }
  }

  // ─── The thread, updated in place ─────────────────────────

  /** A walk that has destroyed the entries `gone` and has `todo` still to come to. */
  ghost predicate Walked(was: Table, now: Table, gone: set<Name>, todo: set<Name>) {
    && gone <= was.undo.Keys && todo <= was.undo.Keys && todo !! gone
    && now.undo == was.undo - gone
    && forall n :: Lookup(now.env, n) == if n in gone then was.undo[n] else Lookup(was.env, n)
  }

  lemma WalkStarts(t: Table)
    ensures Walked(t, t, {}, t.undo.Keys)
  {
  }

  lemma WalkTakes(was: Table, now: Table, gone: set<Name>, todo: set<Name>, n: Name)
    requires Walked(was, now, gone, todo) && n in todo
    ensures n in now.undo && Walked(was, Removed(now, n), gone + {n}, todo - {n})
  {
  }

  lemma WalkSkips(was: Table, now: Table, gone: set<Name>, todo: set<Name>, n: Name)
    requires Walked(was, now, gone, todo)
    ensures Walked(was, now, gone, todo - {n})
  {
  }

  lemma WalkEnds(was: Table, now: Table, gone: set<Name>)
    requires Walked(was, now, gone, {})
    ensures now == Without(was, gone)
  {
    SameLookups(now.env, Without(was, gone).env);
  }

  function EndedEntry(s: State, f: Fiber, n: Name): State
    requires n in s.t.undo
  {
    if Kept(s, f, n) then s else s.(t := Removed(s.t, n), owner := s.owner - {n})
  }

  ghost predicate EndWalked(was: State, now: State, f: Fiber, todo: set<Name>) {
    && Walked(was.t, now.t, Doomed(was, f) - todo, todo)
    && now == State(now.t, was.owner - (Doomed(was, f) - todo), was.live, was.current)
  }

  lemma EndStarts(s: State, f: Fiber)
    ensures EndWalked(s, s, f, s.t.undo.Keys)
  {
    assert Doomed(s, f) - s.t.undo.Keys == {};
    assert s.owner - {} == s.owner;
    WalkStarts(s.t);
  }

  lemma EndTakes(was: State, now: State, f: Fiber, todo: set<Name>, n: Name)
    requires EndWalked(was, now, f, todo) && n in todo
    ensures n in now.t.undo && EndWalked(was, EndedEntry(now, f, n), f, todo - {n})
  {
    var doomed := Doomed(was, f);
    assert Kept(now, f, n) <==> n !in doomed;
    if n in doomed {
      WalkTakes(was.t, now.t, doomed - todo, todo, n);
      assert doomed - (todo - {n}) == doomed - todo + {n};
      assert was.owner - (doomed - todo + {n}) == was.owner - (doomed - todo) - {n};
    } else {
      assert doomed - (todo - {n}) == doomed - todo;
      WalkSkips(was.t, now.t, doomed - todo, todo, n);
    }
  }

  lemma EndEnds(was: State, now: State, f: Fiber)
    requires EndWalked(was, now, f, {})
    ensures now == Ended(was, f)
  {
    assert Doomed(was, f) - {} == Doomed(was, f);
    WalkEnds(was.t, now.t, Doomed(was, f));
  }

  class Scheduler {
    var t: Table
    var owner: map<Name, Fiber>
    var live: set<Fiber>
    var current: Option<Fiber>

    ghost function View(): State
      reads this
    {
      State(t, owner, live, current)
    }

    /** Serving starts from what boot left, with an empty table. */
    constructor (boot: Env)
      ensures Boot(boot, World(View(), map[])) && live == {} && current == None
    {
      t, owner, live, current := Table(boot, map[]), map[], {}, None;
    }

    /** Destroying an entry puts its variable back. */
    method Remove(n: Name)
      requires n in t.undo
      modifies this`t
      ensures t == Removed(old(t), n)
    {
      var env := t.env;
      if t.undo[n].Some? {
        env := env[n := t.undo[n].value];
      } else {
        env := env - {n};
      }
      t := Table(env, t.undo - {n});
    }

    method EngineSet(n: Name, v: Option<string>, ok: bool)
      modifies this`t
      ensures t == EnginePut(old(t), n, v, ok)
    {
      if n in t.undo {
        Remove(n);
      }
      if ok {
        var previous := Lookup(t.env, n);
        var env := t.env;
        if v.Some? {
          env := env[n := v.value];
        } else {
          env := env - {n};
        }
        t := Table(env, t.undo[n := previous]);
      }
    }

    method SetVariable(setting: string, ok: bool)
      modifies this`t, this`owner
      ensures View() == Put(old(View()), NameOf(setting), ValueOf(setting), ok)
    {
      var k := FindEquals(setting);
      var n := setting[..k];
      EngineSet(n, if k < |setting| then Some(setting[k + 1..]) else None, ok);
      Note(n, ok);
    }

    /** A name set outside every request has no owner, nor has one whose putenv() failed. */
    method Note(n: Name, ok: bool)
      modifies this`owner
      ensures View() == Noted(old(View()), n, ok)
    {
      if !ok || current.None? {
        owner := owner - {n};
      } else {
        owner := owner[n := current.value];
      }
    }

    method EndEntry(f: Fiber, n: Name)
      requires n in t.undo
      modifies this`t, this`owner
      ensures View() == EndedEntry(old(View()), f, n)
    {
      if n in owner {
        if owner[n] != f && owner[n] in live {
          return;
        }
        owner := owner - {n};
      }
      Remove(n);
    }

    /** Walk the table as request `f` ends. */
    method EndRequest(f: Fiber)
      modifies this`t, this`owner
      ensures View() == Ended(old(View()), f)
    {
      ghost var was := View();
      var todo := t.undo.Keys;
      EndStarts(was, f);
      while todo != {}
        invariant EndWalked(was, View(), f, todo)
        decreases |todo|
      {
        var n :| n in todo;
        EndTakes(was, View(), f, todo, n);
        EndEntry(f, n);
        todo := todo - {n};
      }
      EndEnds(was, View(), f);
    }

    /** Serving is over: what requests still have in the table goes. */
    method Release()
      modifies this`t, this`owner
      ensures View() == Released(old(View()))
    {
      ghost var was, gone: set<Name> := t, {};
      var todo := t.undo.Keys;
      WalkStarts(t);
      while todo != {}
        invariant Walked(was, t, gone, todo) && gone + todo == was.undo.Keys
        decreases |todo|
      {
        var n :| n in todo;
        WalkTakes(was, t, gone, todo, n);
        Remove(n);
        gone := gone + {n};
        todo := todo - {n};
      }
      owner := map[];
      WalkEnds(was, t, gone);
    }
  }
}
