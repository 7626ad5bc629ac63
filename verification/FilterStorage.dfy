/**
 The input storage of the filter extension: one per thread, filled by each
 request, and out of reach of a park, which cannot take it along. A generation
 counter lets a resumed request tell its own storage from somebody else's.
 */
module FilterStorage {
  import opened Basics

  type Id = nat

  datatype Input = Input(owner: Id, value: int)

  /** `marks[r]` is the generation request `r` parked in. */
  datatype State = State(
    storage: seq<Input>,
    gen: nat,
    readers: nat,
    marks: map<Id, nat>,
    current: Option<Id>,
    started: set<Id>)

  predicate Owns(storage: seq<Input>, r: Id) {
    forall i :: 0 <= i < |storage| ==> storage[i].owner == r
  }

  /** Refused while a frame reads the storage through the slot itself; then the generation stays too. */
  function Reset(s: State): State {
    if s.readers > 0 then s else s.(storage := [], gen := s.gen + 1)
  }

  function Started(s: State, r: Id): State {
    Reset(s).(current := Some(r), started := s.started + {r})
  }

  function Filled(s: State, value: int): State
    requires s.current.Some?
  {
    s.(storage := s.storage + [Input(s.current.value, value)])
  }

  function Parked(s: State): State
    requires s.current.Some?
  {
    s.(marks := s.marks[s.current.value := s.gen], current := None)
  }

  function Resumed(s: State, r: Id): State
    requires r in s.marks
  {
    (if s.marks[r] != s.gen then Reset(s) else s).(marks := s.marks - {r}, current := Some(r))
  }

  datatype Step =
    | Start(id: Id)
    | Fill(value: int)
    | Park
    | Resume(id: Id)
    | End
    | RaiseReader
    | LowerReader

  predicate Enabled(s: State, step: Step) {
    match step
    case Start(r) => s.current.None? && r !in s.started
    case Fill(_) => s.current.Some?
    case Park => s.current.Some?
    case Resume(r) => s.current.None? && r in s.marks
    case End => s.current.Some?
    case RaiseReader => true
    case LowerReader => s.readers > 0
  }

  /** A step that is not enabled is not taken. */
  function Do(s: State, step: Step): State {
    if !Enabled(s, step) then s else
    match step
    case Start(r) => Started(s, r)
    case Fill(v) => Filled(s, v)
    case Park => Parked(s)
    case Resume(r) => Resumed(s, r)
    case End => s.(current := None)
    case RaiseReader => s.(readers := s.readers + 1)
    case LowerReader => s.(readers := s.readers - 1)
  }

  function After(s: State, steps: seq<Step>): State {
    if steps == [] then s else Do(After(s, steps[..|steps| - 1]), steps[|steps| - 1])
  }

  /** A reset that a reader refuses. */
  predicate Refuses(s: State, step: Step) {
    && Enabled(s, step) && s.readers > 0
    && (step.Start? || (step.Resume? && s.marks[step.id] != s.gen))
  }

  predicate RefusesSomewhere(s: State, steps: seq<Step>) {
    && steps != []
    && (|| RefusesSomewhere(s, steps[..|steps| - 1])
        || Refuses(After(s, steps[..|steps| - 1]), steps[|steps| - 1]))
  }

  /** One request at most goes with the present generation: the one running, or
      one that parked in it. The storage is that request's. */
  ghost predicate Inv(s: State) {
    && (forall r :: r in s.marks ==> s.marks[r] <= s.gen && r in s.started)
    && (forall r, q :: r in s.marks && q in s.marks && s.marks[r] == s.marks[q] == s.gen ==> r == q)
    && (forall r :: r in s.marks && s.marks[r] == s.gen ==> s.current.None? && Owns(s.storage, r))
    && (s.current.Some? ==> Owns(s.storage, s.current.value) && s.current.value in s.started && s.current.value !in s.marks)
  }

  lemma StepKeepsInv(s: State, step: Step)
    requires Inv(s) && !Refuses(s, step)
    ensures Inv(Do(s, step))
  {
  }

  lemma {:induction false} RunKeepsInv(s: State, steps: seq<Step>)
    requires Inv(s) && !RefusesSomewhere(s, steps)
    ensures Inv(After(s, steps))
  {
    if steps != [] {
      RunKeepsInv(s, steps[..|steps| - 1]);
      StepKeepsInv(After(s, steps[..|steps| - 1]), steps[|steps| - 1]);
    }
  }

  /** With no reset refused, no request ever runs on storage another one filled. */
  lemma OwnOrEmpty(s: State, steps: seq<Step>)
    requires Inv(s) && !RefusesSomewhere(s, steps)
    ensures var t := After(s, steps); t.current.Some? ==> Owns(t.storage, t.current.value)
  {
    RunKeepsInv(s, steps);
  }

  /** Exactly when a refused reset leaves a request on another's storage. */
  lemma StartIsCleanIff(s: State, r: Id)
    ensures Owns(Started(s, r).storage, r) <==> s.readers == 0 || Owns(s.storage, r)
  {
  }

  lemma ResumeIsCleanIff(s: State, r: Id)
    requires Inv(s) && r in s.marks
    ensures Owns(Resumed(s, r).storage, r) <==> s.readers == 0 || s.marks[r] == s.gen || Owns(s.storage, r)
  {
  }

  /** A reader that parked, against the rule, hands the next request what it read. */
  lemma ReaderLeaks(s: State, r: Id, v: int, q: Id)
    requires s.current.None? && r !in s.started && q !in s.started && q != r && s.readers == 0
    ensures var t := Do(Do(Do(Do(Do(s, Start(r)), Fill(v)), RaiseReader), Park), Start(q));
            t.current == Some(q) && !Owns(t.storage, q)
  {
    assert Do(Do(s, Start(r)), Fill(v)).storage[0].owner == r;
  }

  // ─── Keeping its own ──────────────────────────────────────

  lemma StepNeverLowers(s: State, step: Step)
    ensures s.gen <= Do(s, step).gen
  {
  }

  /** While the generation a request parked in stands, so does its storage. */
  lemma {:induction false} KeptWhileParked(s: State, r: Id, steps: seq<Step>)
    requires Inv(s) && r in s.marks && s.marks[r] == s.gen && !RefusesSomewhere(s, steps)
    requires forall i :: 0 <= i < |steps| ==> steps[i] != Resume(r)
    ensures var t := After(s, steps);
            && r in t.marks && t.marks[r] == s.gen && s.gen <= t.gen
            && (t.gen == s.gen ==> t.storage == s.storage)
  {
    if steps != [] {
      var n := |steps| - 1;
      var v := After(s, steps[..n]);
      KeptWhileParked(s, r, steps[..n]);
      RunKeepsInv(s, steps[..n]);
      StepNeverLowers(v, steps[n]);
      assert steps[n] != Resume(r);
    }
  }

  /** A request that resumes finds the storage as it left it if nobody reset it in
      between, and none of anybody's if somebody did. */
  lemma KeepsItsOwnIff(s: State, steps: seq<Step>)
    requires Inv(s) && s.current.Some? && !RefusesSomewhere(Parked(s), steps)
    requires forall i :: 0 <= i < |steps| ==> steps[i] != Resume(s.current.value)
    ensures var r := s.current.value;
            var before := After(Parked(s), steps);
            && r in before.marks
            && (before.current.None? && (before.readers == 0 || before.gen == s.gen) ==>
                  && Do(before, Resume(r)).current == Some(r)
                  && Do(before, Resume(r)).storage == (if before.gen == s.gen then s.storage else []))
  {
    StepKeepsInv(s, Park);
    KeptWhileParked(Parked(s), s.current.value, steps);
  }

  /** The counter as the thread keeps it. */
  class Storage {
    var storage: seq<Input>
    var gen: nat
    var readers: nat
    var marks: map<Id, nat>
    var current: Option<Id>
    ghost var Seen: set<Id>

    ghost function View(): State
      reads this
    {
      State(storage, gen, readers, marks, current, Seen)
    }

    /** A reset that is not refused leaves nothing to read, and a generation no parked
        request goes with. */
    method ResetStorage()
      requires forall r :: r in marks ==> marks[r] <= gen
      modifies this`storage, this`gen
      ensures View() == Reset(old(View()))
      ensures readers == 0 ==> storage == [] && forall r :: r in marks ==> marks[r] < gen
    {
      if readers > 0 {
        return;
      }
      storage := [];
      gen := gen + 1;
    }

    /** A new request finds nothing of anybody's exactly if no reader keeps it there. */
    method Begin(r: Id)
      requires Inv(View()) && current.None? && r !in Seen
      modifies this
      ensures View() == Started(old(View()), r)
      ensures Owns(storage, r) <==> readers == 0 || Owns(old(storage), r)
      ensures readers == 0 ==> Inv(View())
    {
      ResetStorage();
      current := Some(r);
      Seen := Seen + {r};
    }

    /** A request that parks goes with its generation and leaves its storage as it is. */
    method Suspend()
      requires Inv(View()) && current.Some?
      modifies this`marks, this`current
      ensures Inv(View()) && View() == Parked(old(View()))
      ensures old(current.value) in marks && marks[old(current.value)] == gen && Owns(storage, old(current.value))
    {
      marks := marks[current.value := gen];
      current := None;
    }

    /** A resumed request runs on its own storage, or on none: exactly if no reader keeps
        another's there. What it left it finds if its generation still stands. */
    method Continue(r: Id)
      requires Inv(View()) && current.None? && r in marks
      modifies this
      ensures View() == Resumed(old(View()), r)
      ensures Owns(storage, r) <==> readers == 0 || old(marks[r] == gen) || Owns(old(storage), r)
      ensures old(marks[r] == gen) ==> storage == old(storage)
      ensures readers == 0 || old(marks[r] == gen) ==> Inv(View())
    {
      ghost var was := View();
      if marks[r] != gen {
        ResetStorage();
      }
      marks := marks - {r};
      current := Some(r);
      assert was.readers == 0 || was.marks[r] == was.gen ==> Inv(Do(was, Resume(r))) by {
        if was.readers == 0 || was.marks[r] == was.gen {
          StepKeepsInv(was, Resume(r));
        }
      }
    }
  }
}
