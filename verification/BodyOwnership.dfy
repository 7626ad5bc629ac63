/**
 Who closes a request's body. A body is a stream at an address that the script can
 close and the allocator can hand to another stream, so the server holds it by its
 resource, which goes on saying whether the stream behind it is still there. A
 second parse replaces the body and the upload hash; what it replaces is kept for
 the end of the request.
 */
module BodyOwnership {
  import opened Basics

  type Addr = nat
  type Res = nat
  type Hash = nat

  /** What a parse may replace. `body` is only an address. */
  datatype Kept = Kept(body: Option<Addr>, res: Option<Res>, files: Option<Hash>)

  /** `ptr` has the address of each resource's stream while the stream is open, and
      `at` the resource of the stream at an address. `refs` are the server's own. */
  datatype State = State(
    ptr: map<Res, Addr>, at: map<Addr, Res>, refs: map<Res, int>,
    named: Option<Addr>, claim: Option<Res>, files: Option<Hash>, kept: seq<Kept>,
    closed: seq<Res>, destroyed: seq<Hash>)

  function Refs(s: State, r: Res): int {
    if r in s.refs then s.refs[r] else 0
  }

  function Counted(s: State, r: Res, n: int): map<Res, int> {
    s.refs[r := Refs(s, r) + n]
  }

  /** The stream a claim names, if it still names one. */
  function LiveBodyOf(s: State, r: Option<Res>): Option<Addr> {
    if r.Some? && r.value in s.ptr then Some(s.ptr[r.value]) else None
  }

  function Dropped(s: State, r: Option<Res>): State {
    if r.Some? then s.(refs := Counted(s, r.value, -1)) else s
  }

  /** A stream is opened under a new resource, or closed, by anybody. */
  function Opened(s: State, a: Addr, r: Res): State {
    s.(ptr := s.ptr[r := a], at := s.at[a := r])
  }

  function Closed(s: State, r: Res): State
    requires r in s.ptr
  {
    s.(ptr := s.ptr - {r}, at := s.at - {s.ptr[r]})
  }

  // ─── Keeping and claiming ─────────────────────────────────

  predicate KeepsRes(kept: seq<Kept>, r: Res) {
    exists i :: 0 <= i < |kept| && kept[i].res == Some(r)
  }

  predicate KeepsFiles(kept: seq<Kept>, h: Hash) {
    exists i :: 0 <= i < |kept| && kept[i].files == Some(h)
  }

  /** No record is needed: what there is to keep is kept already. */
  predicate NothingToKeep(s: State, res: Option<Res>, files: Option<Hash>) {
    && (res.Some? ==> KeepsRes(s.kept, res.value))
    && (files.Some? ==> KeepsFiles(s.kept, files.value))
  }

  /** Keep the claim and the hash, each unless it is kept already. */
  function Keep(s: State, body: Option<Addr>, res: Option<Res>, files: Option<Hash>): State {
    var r := if res.Some? && KeepsRes(s.kept, res.value) then None else res;
    var f := if files.Some? && KeepsFiles(s.kept, files.value) then None else files;
    if r.None? && f.None? then s else
      s.(kept := [Kept(if r.Some? then body else None, r, f)] + s.kept,
         refs := if r.Some? then Counted(s, r.value, 1) else s.refs)
  }

  predicate OnceRes(kept: seq<Kept>, r: Res) {
    forall i, j :: 0 <= i < j < |kept| && kept[i].res == Some(r) ==> kept[j].res != Some(r)
  }

  predicate OnceFiles(kept: seq<Kept>, h: Hash) {
    forall i, j :: 0 <= i < j < |kept| && kept[i].files == Some(h) ==> kept[j].files != Some(h)
  }

  lemma ConsRes(k: Kept, kept: seq<Kept>, r: Res)
    requires OnceRes(kept, r) && !(k.res == Some(r) && KeepsRes(kept, r))
    ensures KeepsRes([k] + kept, r) <==> k.res == Some(r) || KeepsRes(kept, r)
    ensures OnceRes([k] + kept, r)
  {
    var all := [k] + kept;
    if k.res == Some(r) {
      assert all[0].res == Some(r);
    }
    if i :| 0 <= i < |kept| && kept[i].res == Some(r) {
      assert all[i + 1].res == Some(r);
    }
    forall i, j | 0 <= i < j < |all| && all[i].res == Some(r)
      ensures all[j].res != Some(r)
    {
      assert all[j] == kept[j - 1] && (i > 0 ==> all[i] == kept[i - 1]);
    }
  }

  lemma ConsFiles(k: Kept, kept: seq<Kept>, h: Hash)
    requires OnceFiles(kept, h) && !(k.files == Some(h) && KeepsFiles(kept, h))
    ensures KeepsFiles([k] + kept, h) <==> k.files == Some(h) || KeepsFiles(kept, h)
    ensures OnceFiles([k] + kept, h)
  {
    var all := [k] + kept;
    if k.files == Some(h) {
      assert all[0].files == Some(h);
    }
    if i :| 0 <= i < |kept| && kept[i].files == Some(h) {
      assert all[i + 1].files == Some(h);
    }
    forall i, j | 0 <= i < j < |all| && all[i].files == Some(h)
      ensures all[j].files != Some(h)
    {
      assert all[j] == kept[j - 1] && (i > 0 ==> all[i] == kept[i - 1]);
    }
  }

  /** What is kept after, and what it costs. */
  lemma KeepLeaves(s: State, body: Option<Addr>, res: Option<Res>, files: Option<Hash>, r: Res, h: Hash)
    requires OnceRes(s.kept, r) && OnceFiles(s.kept, h)
    ensures var t := Keep(s, body, res, files);
            && t == s.(kept := t.kept, refs := t.refs)
            && (KeepsRes(t.kept, r) <==> KeepsRes(s.kept, r) || res == Some(r))
            && (KeepsFiles(t.kept, h) <==> KeepsFiles(s.kept, h) || files == Some(h))
            && OnceRes(t.kept, r) && OnceFiles(t.kept, h)
            && Refs(t, r) == Refs(s, r) + (if res == Some(r) && !KeepsRes(s.kept, r) then 1 else 0)
  {
    var x := if res.Some? && KeepsRes(s.kept, res.value) then None else res;
    var f := if files.Some? && KeepsFiles(s.kept, files.value) then None else files;
    if x.Some? || f.Some? {
      ConsRes(Kept(if x.Some? then body else None, x, f), s.kept, r);
      ConsFiles(Kept(if x.Some? then body else None, x, f), s.kept, h);
    }
  }

  /** The named address is read through only past the tests that say it can be. */
  predicate ReadsThrough(s: State) {
    s.named.Some? && (s.claim.None? || (LiveBodyOf(s, s.claim).Some? && LiveBodyOf(s, s.claim) != s.named))
  }

  /** Take ownership of the body that is named. `ok` is whether a record can be had.
      What a read of freed memory would find is not modelled; there is none. */
  function Adopted(s: State, ok: bool): State {
    if !ReadsThrough(s) || s.named.value !in s.at then s else
      var t := if s.claim.Some? && ok then Keep(s, LiveBodyOf(s, s.claim), s.claim, None) else s;
      var r := s.at[s.named.value];
      var u := Dropped(t, t.claim);
      u.(claim := Some(r), refs := Counted(u, r, 1))
  }

  /** As a request_parse_body() call is made. A record that is needed and cannot be had
      leaves everything as it is. */
  function Superseded(s: State, ok: bool): State {
    var live := LiveBodyOf(s, s.claim);
    if !ok && !NothingToKeep(s, s.claim, s.files) then s else
      var t := Keep(s, if live.Some? then live else s.named, s.claim, s.files);
      if s.claim.Some? && live.None? then Dropped(t, t.claim).(named := None, claim := None) else t
  }

  /** And as it returns. */
  function FilesKept(s: State): State {
    Keep(s, None, None, s.files)
  }

  // ─── The end of the request ───────────────────────────────

  /** Close through the claim, if there is still a stream behind it, and let go of it. */
  function Released(s: State, r: Option<Res>): State {
    if r.None? then s else
      var t := if r.value in s.ptr then Closed(s, r.value).(closed := s.closed + [r.value]) else s;
      Dropped(t, r)
  }

  function Destroyed(s: State, h: Option<Hash>): State {
    if h.Some? then s.(destroyed := s.destroyed + [h.value]) else s
  }

  /** One record: what is still current is its owner's to release. */
  function RecordReleased(s: State, k: Kept): State {
    RecordBody(RecordFiles(s, k), k)
  }

  function RecordFiles(s: State, k: Kept): State {
    if k.files != s.files then Destroyed(s, k.files) else s
  }

  function RecordBody(s: State, k: Kept): State {
    if k.res == s.claim then Dropped(s, k.res) else Released(s, k.res)
  }

  function RecordsReleased(s: State, kept: seq<Kept>): State {
    if kept == [] then s else RecordReleased(RecordsReleased(s, kept[..|kept| - 1]), kept[|kept| - 1])
  }

  /** What is current when the request ends. */
  function CurrentReleased(s: State): State {
    CurrentBody(CurrentFiles(s))
  }

  function CurrentFiles(s: State): State {
    Destroyed(s, s.files).(files := None)
  }

  function CurrentBody(s: State): State {
    Released(s, s.claim).(named := None, claim := None)
  }

  function Ended(s: State): State {
    CurrentReleased(RecordsReleased(s.(kept := []), s.kept))
  }

  // ─── Whole requests ───────────────────────────────────────

  /** Every resource there has been, those that were made as bodies, those the server
      has claimed, and every upload hash a parse has made. */
  datatype World = World(s: State, known: set<Res>, bodies: set<Res>, claimed: set<Res>, made: set<Hash>)

  datatype Step =
    | Open(addr: Addr, res: Res)                  // the script opens a stream, at any free address
    | Close(res: Res)                             // and closes one, the body's included
    | NewBody(addr: Addr, res: Res, ok: bool)     // a parse, or the first php://input, makes a body
    | ReadHook(ok: bool)
    | Supersede(ok: bool)
    | MakeFiles(files: Hash)                      // a parse makes an upload hash, over the one that stands
    | KeepFiles

  predicate Enabled(w: World, step: Step) {
    match step
    case Open(a, r) => a !in w.s.at && r !in w.known
    case Close(r) => r in w.s.ptr
    case NewBody(a, r, _) => a !in w.s.at && r !in w.known
    case MakeFiles(h) => h !in w.made
    case _ => true
  }

  function Claims(w: World, s: State): set<Res> {
    if s.claim.Some? then w.claimed + {s.claim.value} else w.claimed
  }

  /** A step that is not enabled is not taken. */
  function Do(w: World, step: Step): World {
    if !Enabled(w, step) then w else
    match step
    case Open(a, r) => w.(s := Opened(w.s, a, r), known := w.known + {r})
    case Close(r) => w.(s := Closed(w.s, r))
    case NewBody(a, r, ok) =>
      var t := Adopted(Opened(w.s, a, r).(named := Some(a)), ok);
      w.(s := t, known := w.known + {r}, bodies := w.bodies + {r}, claimed := Claims(w, t))
    case ReadHook(ok) => w.(s := Adopted(w.s, ok), claimed := Claims(w, Adopted(w.s, ok)))
    case Supersede(ok) => w.(s := Superseded(w.s, ok))
    case MakeFiles(h) => w.(s := w.s.(files := Some(h)), made := w.made + {h})
    case KeepFiles => w.(s := FilesKept(w.s))
  }

  function After(w: World, steps: seq<Step>): World {
    if steps == [] then w else Do(After(w, steps[..|steps| - 1]), steps[|steps| - 1])
  }

  /** Before a request: the server holds nothing, whatever streams stand open. */
  ghost predicate Start(w: World) {
    && HeapOk(w) && w.s.refs == map[] && w.s.named.None? && w.s.claim.None? && w.s.files.None? && w.s.kept == []
    && w.s.closed == [] && w.s.destroyed == [] && w.claimed == {} && w.made == {}
  }

  // ─── What is lost ─────────────────────────────────────────

  predicate Holds(s: State, r: Res) {
    s.claim == Some(r) || KeepsRes(s.kept, r)
  }

  predicate HoldsFiles(s: State, h: Hash) {
    s.files == Some(h) || KeepsFiles(s.kept, h)
  }

  /** A body is put in place of an open one that is not kept and for which no record can be had. */
  predicate Forgets(w: World, step: Step, r: Res) {
    && Enabled(w, step) && step.NewBody? && !step.ok
    && w.s.claim == Some(r) && r in w.s.ptr && !KeepsRes(w.s.kept, r)
  }

  predicate ForgottenIn(w: World, steps: seq<Step>, r: Res) {
    && steps != []
    && (|| ForgottenIn(w, steps[..|steps| - 1], r)
        || Forgets(After(w, steps[..|steps| - 1]), steps[|steps| - 1], r))
  }

  /** An upload hash is made over one that is not kept. */
  predicate Overwrites(w: World, step: Step, h: Hash) {
    Enabled(w, step) && step.MakeFiles? && w.s.files == Some(h) && !KeepsFiles(w.s.kept, h)
  }

  predicate OverwrittenIn(w: World, steps: seq<Step>, h: Hash) {
    && steps != []
    && (|| OverwrittenIn(w, steps[..|steps| - 1], h)
        || Overwrites(After(w, steps[..|steps| - 1]), steps[|steps| - 1], h))
  }

  // ─── What every step keeps ────────────────────────────────

  /** One open stream at an address, under one resource. */
  ghost predicate HeapOk(w: World) {
    && (forall r :: r in w.s.ptr ==> w.s.ptr[r] in w.s.at && w.s.at[w.s.ptr[r]] == r && r in w.known)
    && (forall a :: a in w.s.at ==> w.s.at[a] in w.s.ptr && w.s.ptr[w.s.at[a]] == a)
    && (w.s.claim.Some? ==> w.s.claim.value in w.known)
  }

  /** The named address is the claimed body's while that body is open, and there is none without a claim. */
  predicate NamedOk(s: State) {
    && (s.claim.None? ==> s.named.None?)
    && (LiveBodyOf(s, s.claim).Some? ==> s.named == LiveBodyOf(s, s.claim))
  }

  /** What the server holds it has claimed, and claimed as a body; it keeps each once and
      has one reference for each place it holds it in. */
  predicate ResOk(w: World, r: Res) {
    && (r in w.claimed ==> r in w.bodies && r in w.known)
    && (Holds(w.s, r) ==> r in w.claimed)
    && OnceRes(w.s.kept, r)
    && Refs(w.s, r) == (if w.s.claim == Some(r) then 1 else 0) + (if KeepsRes(w.s.kept, r) then 1 else 0)
  }

  predicate FilesOk(w: World, h: Hash) {
    (HoldsFiles(w.s, h) ==> h in w.made) && OnceFiles(w.s.kept, h)
  }

  ghost predicate Inv(w: World) {
    && HeapOk(w) && NamedOk(w.s) && w.s.closed == [] && w.s.destroyed == []
    && (forall r :: ResOk(w, r)) && (forall h :: FilesOk(w, h))
  }

  /** How a step changes what is held of `q` and of `h`. */
  predicate Follows(w: World, step: Step, q: Res, h: Hash) {
    var v := Do(w, step);
    && (q in w.claimed ==> q in v.claimed && (Holds(v.s, q) <==> Holds(w.s, q) && !Forgets(w, step, q)))
    && (q !in w.claimed ==> (Holds(v.s, q) <==> q in v.claimed))
    && (h in w.made ==> h in v.made && (HoldsFiles(v.s, h) <==> HoldsFiles(w.s, h) && !Overwrites(w, step, h)))
    && (h !in w.made ==> (HoldsFiles(v.s, h) <==> h in v.made))
  }

  lemma StartInv(w: World)
    requires Start(w)
    ensures Inv(w)
  {
  }

  // ─── Each operation ───────────────────────────────────────

  /** The only address ever read through is a body's that was made just now. */
  lemma ReadHookReadsNothing(s: State)
    requires NamedOk(s)
    ensures !ReadsThrough(s)
  {
  }

  lemma OpenKeeps(w: World, a: Addr, r: Res)
    requires HeapOk(w) && a !in w.s.at && r !in w.known
    ensures HeapOk(w.(s := Opened(w.s, a, r), known := w.known + {r}))
    ensures NamedOk(w.s) ==> NamedOk(Opened(w.s, a, r))
  {
  }

  lemma CloseKeeps(w: World, r: Res)
    requires HeapOk(w) && r in w.s.ptr
    ensures HeapOk(w.(s := Closed(w.s, r)))
    ensures NamedOk(w.s) ==> NamedOk(Closed(w.s, r))
  {
  }

  /** A body is read through the new address exactly when no claim on a closed one stands. */
  lemma NewBodyReads(w: World, a: Addr, r: Res)
    requires HeapOk(w) && NamedOk(w.s) && a !in w.s.at && r !in w.known
    ensures var o := Opened(w.s, a, r).(named := Some(a));
            ReadsThrough(o) <==> w.s.claim.None? || w.s.claim.value in w.s.ptr
  {
    var o := Opened(w.s, a, r).(named := Some(a));
    if w.s.claim.Some? && w.s.claim.value in w.s.ptr {
      assert w.s.ptr[w.s.claim.value] in w.s.at;
    }
  }

  /** A new body becomes the claim exactly if the server holds none, or holds one still
      open; a claim on a body the script has closed keeps it from being claimed. */
  lemma NewBodyIs(w: World, a: Addr, r: Res, ok: bool)
    requires HeapOk(w) && NamedOk(w.s) && a !in w.s.at && r !in w.known
    ensures Do(w, NewBody(a, r, ok)).s.claim == Some(r) <==> w.s.claim.None? || w.s.claim.value in w.s.ptr
  {
    NewBodyReads(w, a, r);
  }

  /** What an adoption changes: the claim moves, what it was on is kept if it can be, and
      each place has its reference. */
  lemma AdoptLeaves(s: State, ok: bool, q: Res, h: Hash)
    requires OnceRes(s.kept, q) && OnceFiles(s.kept, h) && (ReadsThrough(s) ==> s.named.value in s.at)
    ensures var t := Adopted(s, ok);
            && t.files == s.files && (KeepsFiles(t.kept, h) <==> KeepsFiles(s.kept, h)) && OnceFiles(t.kept, h)
            && t.claim == (if ReadsThrough(s) then Some(s.at[s.named.value]) else s.claim)
            && (KeepsRes(t.kept, q) <==> KeepsRes(s.kept, q) || (ReadsThrough(s) && ok && s.claim == Some(q)))
            && OnceRes(t.kept, q)
            && Refs(t, q) - (if t.claim == Some(q) then 1 else 0) - (if KeepsRes(t.kept, q) then 1 else 0)
            == Refs(s, q) - (if s.claim == Some(q) then 1 else 0) - (if KeepsRes(s.kept, q) then 1 else 0)
  {
    if ReadsThrough(s) && s.claim.Some? && ok {
      KeepLeaves(s, LiveBodyOf(s, s.claim), s.claim, None, q, h);
    }
  }

  lemma AdoptNew(w: World, a: Addr, r: Res, ok: bool, q: Res, h: Hash)
    requires HeapOk(w) && NamedOk(w.s) && a !in w.s.at && r !in w.known
    requires ResOk(w, q) && FilesOk(w, h) && ResOk(w, r)
    ensures ResOk(Do(w, NewBody(a, r, ok)), q) && FilesOk(Do(w, NewBody(a, r, ok)), h)
    ensures Follows(w, NewBody(a, r, ok), q, h)
  {
    NewBodyReads(w, a, r);
    AdoptLeaves(Opened(w.s, a, r).(named := Some(a)), ok, q, h);
  }

  lemma NewBodyKeeps(w: World, a: Addr, r: Res, ok: bool)
    requires HeapOk(w) && NamedOk(w.s) && a !in w.s.at && r !in w.known
    ensures HeapOk(Do(w, NewBody(a, r, ok))) && NamedOk(Do(w, NewBody(a, r, ok)).s)
  {
    NewBodyReads(w, a, r);
    OpenKeeps(w, a, r);
  }

  lemma SupersedeKeeps(w: World, ok: bool, q: Res, h: Hash)
    requires NamedOk(w.s) && ResOk(w, q) && FilesOk(w, h)
    ensures NamedOk(Superseded(w.s, ok))
    ensures ResOk(Do(w, Supersede(ok)), q) && FilesOk(Do(w, Supersede(ok)), h) && Follows(w, Supersede(ok), q, h)
  {
    var live := LiveBodyOf(w.s, w.s.claim);
    KeepLeaves(w.s, if live.Some? then live else w.s.named, w.s.claim, w.s.files, q, h);
  }

  /** A call that is made with a record to be had keeps the body claimed and the hash that
      stand, whatever was kept before, so that the parse then made overwrites no hash;
      and so does the return, of the hash. */
  lemma SupersedeKeepsBoth(w: World, ok: bool, q: Res, h: Hash, g: Hash)
    requires Inv(w) && (ok || NothingToKeep(w.s, w.s.claim, w.s.files))
    ensures var t := Do(w, Supersede(ok)).s;
            && (KeepsRes(t.kept, q) <==> KeepsRes(w.s.kept, q) || w.s.claim == Some(q))
            && (KeepsFiles(t.kept, h) <==> KeepsFiles(w.s.kept, h) || w.s.files == Some(h))
            && t.files == w.s.files && t.claim == if LiveBodyOf(w.s, w.s.claim).Some? then w.s.claim else None
    ensures !Overwrites(Do(w, Supersede(ok)), MakeFiles(g), h)
    ensures var t := Do(w, KeepFiles).s;
            KeepsFiles(t.kept, h) <==> KeepsFiles(w.s.kept, h) || w.s.files == Some(h)
  {
    assert ResOk(w, q) && FilesOk(w, h);
    var live := LiveBodyOf(w.s, w.s.claim);
    KeepLeaves(w.s, if live.Some? then live else w.s.named, w.s.claim, w.s.files, q, h);
    KeepLeaves(w.s, None, None, w.s.files, q, h);
  }

  lemma StepFollows(w: World, step: Step, q: Res, h: Hash)
    requires Inv(w)
    ensures ResOk(Do(w, step), q) && FilesOk(Do(w, step), h) && Follows(w, step, q, h)
  {
    assert ResOk(w, q) && FilesOk(w, h);
    if Enabled(w, step) {
      match step
      case NewBody(a, r, ok) =>
        assert ResOk(w, r);
        AdoptNew(w, a, r, ok, q, h);
      case ReadHook(ok) => ReadHookReadsNothing(w.s);
      case Supersede(ok) => SupersedeKeeps(w, ok, q, h);
      case KeepFiles => KeepLeaves(w.s, None, None, w.s.files, q, h);
      case _ =>
    }
  }

  lemma StepKeepsHeap(w: World, step: Step)
    requires Inv(w)
    ensures HeapOk(Do(w, step)) && NamedOk(Do(w, step).s)
  {
    if Enabled(w, step) {
      match step
      case Open(a, r) => OpenKeeps(w, a, r);
      case Close(r) => CloseKeeps(w, r);
      case NewBody(a, r, ok) => NewBodyKeeps(w, a, r, ok);
      case ReadHook(ok) => ReadHookReadsNothing(w.s);
      case Supersede(ok) =>
      case MakeFiles(h) =>
      case KeepFiles =>
    }
  }

  lemma StepKeepsInv(w: World, step: Step)
    requires Inv(w)
    ensures Inv(Do(w, step))
  {
    StepKeepsHeap(w, step);
    forall r: Res
      ensures ResOk(Do(w, step), r)
    {
      StepFollows(w, step, r, 0);
    }
    forall h: Hash
      ensures FilesOk(Do(w, step), h)
    {
      StepFollows(w, step, 0, h);
    }
  }

  lemma {:induction false} RunKeepsInv(w: World, steps: seq<Step>)
    requires Start(w)
    ensures Inv(After(w, steps))
  {
    if steps == [] {
      StartInv(w);
    } else {
      RunKeepsInv(w, steps[..|steps| - 1]);
      StepKeepsInv(After(w, steps[..|steps| - 1]), steps[|steps| - 1]);
    }
  }

  /** In every run the server holds exactly the bodies it has claimed and not forgotten,
      and the hashes made and not overwritten. */
  lemma {:induction false} RunHolds(w: World, steps: seq<Step>, r: Res, h: Hash)
    requires Start(w)
    ensures var v := After(w, steps);
            && (ForgottenIn(w, steps, r) ==> r in v.claimed) && (OverwrittenIn(w, steps, h) ==> h in v.made)
            && (Holds(v.s, r) <==> r in v.claimed && !ForgottenIn(w, steps, r))
            && (HoldsFiles(v.s, h) <==> h in v.made && !OverwrittenIn(w, steps, h))
  {
    if steps != [] {
      var v := After(w, steps[..|steps| - 1]);
      RunHolds(w, steps[..|steps| - 1], r, h);
      RunKeepsInv(w, steps[..|steps| - 1]);
      assert ResOk(v, r) && FilesOk(v, h);
      StepFollows(v, steps[|steps| - 1], r, h);
    }
  }

  // ─── Released exactly once ────────────────────────────────

  function Count(s: seq<nat>, x: nat): nat {
    if s == [] then 0 else Count(s[..|s| - 1], x) + (if s[|s| - 1] == x then 1 else 0)
  }

  lemma CountSnoc(s: seq<nat>, y: nat, x: nat)
    ensures Count(s + [y], x) == Count(s, x) + (if y == x then 1 else 0)
  {
    assert (s + [y])[..|s|] == s;
  }

  lemma KeepsSnoc(kept: seq<Kept>, r: Res, h: Hash)
    requires kept != [] && OnceRes(kept, r) && OnceFiles(kept, h)
    ensures var init, last := kept[..|kept| - 1], kept[|kept| - 1];
            && (KeepsRes(kept, r) <==> KeepsRes(init, r) || last.res == Some(r))
            && (KeepsFiles(kept, h) <==> KeepsFiles(init, h) || last.files == Some(h))
            && !(KeepsRes(init, r) && last.res == Some(r)) && OnceRes(init, r)
            && !(KeepsFiles(init, h) && last.files == Some(h)) && OnceFiles(init, h)
  {
    var init := kept[..|kept| - 1];
    assert forall i :: 0 <= i < |init| ==> init[i] == kept[i];
  }

  lemma DroppedLeaves(s: State, x: Option<Res>, r: Res)
    ensures Dropped(s, x) == s.(refs := Dropped(s, x).refs)
    ensures Refs(Dropped(s, x), r) == Refs(s, r) - (if x == Some(r) then 1 else 0)
  {
  }

  lemma ReleasedLeaves(s: State, x: Option<Res>, r: Res)
    ensures var t := Released(s, x);
            && t == s.(ptr := t.ptr, at := t.at, closed := t.closed, refs := t.refs)
            && (r in t.ptr <==> r in s.ptr && x != Some(r))
            && Count(t.closed, r) == Count(s.closed, r) + (if r in s.ptr && x == Some(r) then 1 else 0)
            && Refs(t, r) == Refs(s, r) - (if x == Some(r) then 1 else 0)
  {
    if x.Some? {
      var t := if x.value in s.ptr then Closed(s, x.value).(closed := s.closed + [x.value]) else s;
      CountSnoc(s.closed, x.value, r);
      DroppedLeaves(t, x, r);
    }
  }

  lemma DestroyedLeaves(s: State, x: Option<Hash>, h: Hash)
    ensures Destroyed(s, x) == s.(destroyed := Destroyed(s, x).destroyed)
    ensures Count(Destroyed(s, x).destroyed, h) == Count(s.destroyed, h) + (if x == Some(h) then 1 else 0)
  {
    if x.Some? {
      CountSnoc(s.destroyed, x.value, h);
    }
  }

  lemma RecordFilesLeaves(s: State, k: Kept, h: Hash)
    ensures RecordFiles(s, k) == s.(destroyed := RecordFiles(s, k).destroyed)
    ensures Count(RecordFiles(s, k).destroyed, h)
         == Count(s.destroyed, h) + (if k.files == Some(h) && s.files != Some(h) then 1 else 0)
  {
    DestroyedLeaves(s, k.files, h);
  }

  /** One record closes its body if that is open and not current, and destroys its hash if that is not current. */
  lemma RecordLeaves(s: State, k: Kept, r: Res, h: Hash)
    ensures var t := RecordReleased(s, k);
            && t.claim == s.claim && t.files == s.files && t.kept == s.kept
            && (r in t.ptr <==> r in s.ptr && !(k.res == Some(r) && s.claim != Some(r)))
            && Count(t.closed, r) == Count(s.closed, r) + (if r in s.ptr && k.res == Some(r) && s.claim != Some(r) then 1 else 0)
            && Refs(t, r) == Refs(s, r) - (if k.res == Some(r) then 1 else 0)
            && Count(t.destroyed, h) == Count(s.destroyed, h) + (if k.files == Some(h) && s.files != Some(h) then 1 else 0)
  {
    var f := RecordFiles(s, k);
    RecordFilesLeaves(s, k, h);
    RecordBodyLeaves(f, k, r);
    assert f.ptr == s.ptr && f.closed == s.closed && f.refs == s.refs && f.claim == s.claim && f.files == s.files;
    assert Refs(f, r) == Refs(s, r);
  }

  lemma RecordBodyLeaves(s: State, k: Kept, r: Res)
    ensures var t := RecordBody(s, k);
            && t == s.(ptr := t.ptr, at := t.at, closed := t.closed, refs := t.refs)
            && (r in t.ptr <==> r in s.ptr && !(k.res == Some(r) && s.claim != Some(r)))
            && Count(t.closed, r) == Count(s.closed, r) + (if r in s.ptr && k.res == Some(r) && s.claim != Some(r) then 1 else 0)
            && Refs(t, r) == Refs(s, r) - (if k.res == Some(r) then 1 else 0)
  {
    if k.res == s.claim {
      DroppedLeaves(s, k.res, r);
    } else {
      ReleasedLeaves(s, k.res, r);
    }
  }

  lemma {:induction false} RecordsLeave(s: State, kept: seq<Kept>, r: Res, h: Hash)
    requires OnceRes(kept, r) && OnceFiles(kept, h)
    ensures var t := RecordsReleased(s, kept);
            && t.claim == s.claim && t.files == s.files && t.kept == s.kept
            && (r in t.ptr <==> r in s.ptr && !(KeepsRes(kept, r) && s.claim != Some(r)))
            && Count(t.closed, r) == Count(s.closed, r) + (if r in s.ptr && KeepsRes(kept, r) && s.claim != Some(r) then 1 else 0)
            && Refs(t, r) == Refs(s, r) - (if KeepsRes(kept, r) then 1 else 0)
            && Count(t.destroyed, h) == Count(s.destroyed, h) + (if KeepsFiles(kept, h) && s.files != Some(h) then 1 else 0)
  {
    if kept != [] {
      var n := |kept| - 1;
      KeepsSnoc(kept, r, h);
      RecordsLeave(s, kept[..n], r, h);
      RecordLeaves(RecordsReleased(s, kept[..n]), kept[n], r, h);
    }
  }

  lemma CurrentLeaves(s: State, r: Res, h: Hash)
    ensures var e := CurrentReleased(s);
            && (r in e.ptr <==> r in s.ptr && s.claim != Some(r))
            && Count(e.closed, r) == Count(s.closed, r) + (if r in s.ptr && s.claim == Some(r) then 1 else 0)
            && Refs(e, r) == Refs(s, r) - (if s.claim == Some(r) then 1 else 0)
            && Count(e.destroyed, h) == Count(s.destroyed, h) + (if s.files == Some(h) then 1 else 0)
  {
    CurrentFilesLeave(s, h);
    CurrentBodyLeaves(CurrentFiles(s), r);
    assert Refs(CurrentFiles(s), r) == Refs(s, r);
  }

  lemma CurrentFilesLeave(s: State, h: Hash)
    ensures var t := CurrentFiles(s);
            && t.ptr == s.ptr && t.refs == s.refs && t.closed == s.closed && t.claim == s.claim
            && Count(t.destroyed, h) == Count(s.destroyed, h) + (if s.files == Some(h) then 1 else 0)
  {
    DestroyedLeaves(s, s.files, h);
  }

  lemma CurrentBodyLeaves(s: State, r: Res)
    ensures var t := CurrentBody(s);
            && (r in t.ptr <==> r in s.ptr && s.claim != Some(r))
            && Count(t.closed, r) == Count(s.closed, r) + (if r in s.ptr && s.claim == Some(r) then 1 else 0)
            && Refs(t, r) == Refs(s, r) - (if s.claim == Some(r) then 1 else 0)
            && t.destroyed == s.destroyed
  {
    ReleasedLeaves(s, s.claim, r);
  }

  /** The end closes and destroys exactly what is held. */
  lemma EndLeaves(s: State, r: Res, h: Hash)
    requires OnceRes(s.kept, r) && OnceFiles(s.kept, h) && s.closed == [] && s.destroyed == []
    requires Refs(s, r) == (if s.claim == Some(r) then 1 else 0) + (if KeepsRes(s.kept, r) then 1 else 0)
    ensures var e := Ended(s);
            && (r in e.ptr <==> r in s.ptr && !Holds(s, r))
            && Count(e.closed, r) == (if r in s.ptr && Holds(s, r) then 1 else 0)
            && Refs(e, r) == 0
            && Count(e.destroyed, h) == (if HoldsFiles(s, h) then 1 else 0)
  {
    var bare := s.(kept := []);
    assert Refs(bare, r) == Refs(s, r);
    RecordsLeave(bare, s.kept, r, h);
    CurrentLeaves(RecordsReleased(bare, s.kept), r, h);
  }

  /** Whatever the script opens and closes, whatever is parsed again, and whether or not
      records can be had: the end closes a body, once, exactly if it is open, was claimed
      and not forgotten; destroys a hash, once, exactly if it was made and not overwritten;
      and gives back every reference the server took. */
  lemma EndReleasesIff(w: World, steps: seq<Step>, r: Res, h: Hash)
    requires Start(w)
    ensures var v := After(w, steps);
            var e := Ended(v.s);
            && (r in e.ptr <==> r in v.s.ptr && !(r in v.claimed && !ForgottenIn(w, steps, r)))
            && Count(e.closed, r) == (if r in v.s.ptr && r in v.claimed && !ForgottenIn(w, steps, r) then 1 else 0)
            && Refs(e, r) == 0
            && Count(e.destroyed, h) == (if h in v.made && !OverwrittenIn(w, steps, h) then 1 else 0)
  {
    var v := After(w, steps);
    RunKeepsInv(w, steps);
    RunHolds(w, steps, r, h);
    assert ResOk(v, r) && FilesOk(v, h);
    EndLeaves(v.s, r, h);
  }

  /** So in every run a stream closed through a claim was made as a body, never one that
      took its address; no stream is closed twice and no hash destroyed twice. */
  lemma ClosesBodiesOnly(w: World, steps: seq<Step>, r: Res, h: Hash)
    requires Start(w)
    ensures var v := After(w, steps);
            var e := Ended(v.s);
            && (Count(e.closed, r) > 0 ==> r in v.bodies)
            && Count(e.closed, r) <= 1 && Count(e.destroyed, h) <= 1 && Refs(e, r) == 0
  {
    EndReleasesIff(w, steps, r, h);
    RunKeepsInv(w, steps);
    assert ResOk(After(w, steps), r);
  }

  // ─── When nothing is lost ─────────────────────────────────

  /** Records can be had, and a call keeps the hash that stands before its parse makes another. */
  predicate Orderly(w: World, step: Step) {
    match step
    case NewBody(_, _, ok) => ok
    case MakeFiles(_) => w.s.files.Some? ==> KeepsFiles(w.s.kept, w.s.files.value)
    case _ => true
  }

  predicate OrderlyRun(w: World, steps: seq<Step>) {
    steps != [] ==>
      OrderlyRun(w, steps[..|steps| - 1]) && Orderly(After(w, steps[..|steps| - 1]), steps[|steps| - 1])
  }

  lemma {:induction false} OrderlyLosesNothing(w: World, steps: seq<Step>, r: Res, h: Hash)
    requires OrderlyRun(w, steps)
    ensures !ForgottenIn(w, steps, r) && !OverwrittenIn(w, steps, h)
  {
    if steps != [] {
      OrderlyLosesNothing(w, steps[..|steps| - 1], r, h);
    }
  }

  /** Then each claimed body still open is closed once and each hash made is destroyed once. */
  lemma EndReleasesOnce(w: World, steps: seq<Step>, r: Res, h: Hash)
    requires Start(w) && OrderlyRun(w, steps)
    ensures var v := After(w, steps);
            var e := Ended(v.s);
            && Count(e.closed, r) == (if r in v.s.ptr && r in v.claimed then 1 else 0)
            && Count(e.destroyed, h) == (if h in v.made then 1 else 0)
  {
    OrderlyLosesNothing(w, steps, r, h);
    EndReleasesIff(w, steps, r, h);
  }

  /** A hash that could not be kept is lost to the next parse. */
  lemma UnkeptHashIsLost(w: World, h: Hash, g: Hash)
    requires Start(w) && h != g
    ensures var steps := [MakeFiles(h), Supersede(false), MakeFiles(g)];
            var v := After(w, steps);
            OverwrittenIn(w, steps, h) && h in v.made && Count(Ended(v.s).destroyed, h) == 0
  {
    var steps := [MakeFiles(h), Supersede(false), MakeFiles(g)];
    var v := Do(w, MakeFiles(h));
    AfterTwo(w, MakeFiles(h), Supersede(false));
    assert steps[..2] == [MakeFiles(h), Supersede(false)];
    assert Superseded(v.s, false) == v.s;
    assert Do(v, Supersede(false)) == v;
    assert Overwrites(v, MakeFiles(g), h);
    EndReleasesIff(w, steps, 0, h);
    RunHolds(w, steps, 0, h);
  }

  lemma AfterTwo(w: World, a: Step, b: Step)
    ensures After(w, [a]) == Do(w, a) && After(w, [a, b]) == Do(Do(w, a), b)
  {
    assert [a, b][..1] == [a];
    assert [a][..0] == [];
    assert After(w, []) == w;
  }

  /** A body replaced while no record can be had stays open, claimed once and closed by nobody. */
  lemma ForgottenBodyIsLeft(w: World, a: Addr, r: Res, b: Addr, q: Res)
    requires Start(w) && a !in w.s.at && b !in w.s.at && a != b && r !in w.known && q !in w.known && r != q
    ensures var steps := [NewBody(a, r, true), NewBody(b, q, false)];
            var v := After(w, steps);
            ForgottenIn(w, steps, r) && r in v.claimed && r in Ended(v.s).ptr && Count(Ended(v.s).closed, r) == 0
  {
    var steps := [NewBody(a, r, true), NewBody(b, q, false)];
    assert steps[..1] == [NewBody(a, r, true)];
    AfterTwo(w, NewBody(a, r, true), NewBody(b, q, false));
    FirstBody(w, a, r);
    NewBodyOpens(Do(w, steps[0]), b, q, false);
    EndReleasesIff(w, steps, r, 0);
    RunHolds(w, steps, r, 0);
  }

  lemma NewBodyOpens(w: World, a: Addr, r: Res, ok: bool)
    requires a !in w.s.at && r !in w.known
    ensures var v := Do(w, NewBody(a, r, ok));
            v.s.ptr == w.s.ptr[r := a] && v.s.at == w.s.at[a := r] && v.known == w.known + {r}
  {
    AdoptOpensNothing(Opened(w.s, a, r).(named := Some(a)), ok);
  }

  lemma AdoptOpensNothing(s: State, ok: bool)
    ensures Adopted(s, ok).ptr == s.ptr && Adopted(s, ok).at == s.at
  {
  }

  lemma FirstBody(w: World, a: Addr, r: Res)
    requires Start(w) && a !in w.s.at && r !in w.known
    ensures var v := Do(w, NewBody(a, r, true));
            v.s.claim == Some(r) && v.s.kept == [] && v.s.ptr == w.s.ptr[r := a] && v.s.at == w.s.at[a := r]
            && v.known == w.known + {r}
  {
    NewBodyOpens(w, a, r, true);
  }

  /** A body made after the script has closed the claimed one is nobody's. */
  lemma BodyGoesUnclaimed(w: World, a: Addr, r: Res, b: Addr, q: Res)
    requires Start(w) && a !in w.s.at && b !in w.s.at && r !in w.known && q !in w.known && r != q
    ensures var v := Do(Do(Do(w, NewBody(a, r, true)), Close(r)), NewBody(b, q, true));
            q in v.s.ptr && v.s.claim == Some(r) && !Holds(v.s, q)
  {
    var one := Do(w, NewBody(a, r, true));
    var two := Do(one, Close(r));
    StartInv(w);
    FirstBody(w, a, r);
    NewBodyKeeps(w, a, r, true);
    CloseKeeps(one, r);
    assert two.s.kept == [] && two.s.claim == Some(r) && r !in two.s.ptr && b !in two.s.at;
    NewBodyReads(two, b, q);
  }

  // ─── The request, updated in place ────────────────────────

  class Thread {
    var ptr: map<Res, Addr>
    var at: map<Addr, Res>
    var refs: map<Res, int>
    var named: Option<Addr>
    var claim: Option<Res>
    var files: Option<Hash>
    var kept: seq<Kept>
    var closed: seq<Res>
    var destroyed: seq<Hash>

    ghost function View(): State
      reads this
    {
      State(ptr, at, refs, named, claim, files, kept, closed, destroyed)
    }

    method LiveBody(r: Option<Res>) returns (a: Option<Addr>)
      ensures a == LiveBodyOf(View(), r)
    {
      if r.None? || r.value !in ptr {
        return None;
      }
      a := Some(ptr[r.value]);
    }

    method AddRef(r: Res)
      modifies this`refs
      ensures View() == old(View()).(refs := Counted(old(View()), r, 1))
    {
      refs := refs[r := (if r in refs then refs[r] else 0) + 1];
    }

    method DropRef(r: Option<Res>)
      modifies this`refs
      ensures View() == Dropped(old(View()), r)
    {
      if r.Some? {
        refs := refs[r.value := (if r.value in refs then refs[r.value] else 0) - 1];
      }
    }

    /** Walk the records for what is kept already. */
    method Unkept(res: Option<Res>, hash: Option<Hash>) returns (r: Option<Res>, f: Option<Hash>)
      ensures r == if res.Some? && KeepsRes(kept, res.value) then None else res
      ensures f == if hash.Some? && KeepsFiles(kept, hash.value) then None else hash
    {
      r, f := res, hash;
      for i := 0 to |kept|
        invariant r == if res.Some? && (exists k :: 0 <= k < i && kept[k].res == res) then None else res
        invariant f == if hash.Some? && (exists k :: 0 <= k < i && kept[k].files == hash) then None else hash
      {
        if kept[i].res == r {
          r := None;
        }
        if kept[i].files == f {
          f := None;
        }
      }
    }

    /** `ok` is whether a record can be had, should one be needed. */
    method KeepParse(body: Option<Addr>, res: Option<Res>, hash: Option<Hash>, ok: bool) returns (done: bool)
      modifies this`kept, this`refs
      ensures done <==> ok || NothingToKeep(old(View()), res, hash)
      ensures View() == if done then Keep(old(View()), body, res, hash) else old(View())
    {
      var r, f := Unkept(res, hash);
      if r.None? && f.None? {
        return true;
      }
      if !ok {
        return false;
      }
      done := true;
      if r.Some? {
        AddRef(r.value);
      }
      kept := [Kept(if r.Some? then body else None, r, f)] + kept;
    }

    method Adopt(ok: bool)
      requires ReadsThrough(View()) ==> named.value in at
      modifies this`kept, this`refs, this`claim
      ensures View() == Adopted(old(View()), ok)
    {
      if named.None? {
        return;
      }
      if claim.Some? {
        var owned := LiveBody(claim);
        if owned == named || owned.None? {
          return;
        }
        var _ := KeepParse(owned, claim, None, ok);
      }
      var r := at[named.value];
      DropRef(claim);
      claim := Some(r);
      AddRef(r);
    }

    method SupersedeParse(ok: bool)
      modifies this`kept, this`refs, this`claim, this`named
      ensures View() == Superseded(old(View()), ok)
    {
      var live := LiveBody(claim);
      var deadClaim := claim.Some? && live.None?;
      var done := KeepParse(if live.Some? then live else named, claim, files, ok);
      if !done {
        return;
      }
      if deadClaim {
        DropRef(claim);
        named, claim := None, None;
      }
    }

    /** Close through the claim and let go of it. */
    method ReleaseBody(r: Option<Res>)
      modifies this`ptr, this`at, this`closed, this`refs
      ensures View() == Released(old(View()), r)
    {
      var body := LiveBody(r);
      if body.Some? {
        closed := closed + [r.value];
        ptr, at := ptr - {r.value}, at - {body.value};
      }
      DropRef(r);
    }

    method ReleaseRecord(k: Kept)
      modifies this`ptr, this`at, this`closed, this`refs, this`destroyed
      ensures View() == RecordReleased(old(View()), k)
    {
      if k.files != files && k.files.Some? {
        destroyed := destroyed + [k.files.value];
      }
      if k.res == claim {
        DropRef(k.res);
      } else {
        ReleaseBody(k.res);
      }
    }

    method ReleaseCurrent()
      modifies this
      ensures View() == CurrentReleased(old(View()))
    {
      if files.Some? {
        destroyed := destroyed + [files.value];
      }
      files := None;
      ReleaseBody(claim);
      named, claim := None, None;
    }

    method ReleaseRecords(records: seq<Kept>)
      modifies this`ptr, this`at, this`closed, this`refs, this`destroyed
      ensures View() == RecordsReleased(old(View()), records)
    {
      ghost var s := View();
      for i := 0 to |records|
        invariant View() == RecordsReleased(s, records[..i])
      {
        assert records[..i + 1][..i] == records[..i];
        ReleaseRecord(records[i]);
      }
      assert records[..|records|] == records;
    }

    method EndRequest()
      modifies this
      ensures View() == Ended(old(View()))
    {
      var records := kept;
      kept := [];
      ReleaseRecords(records);
      ReleaseCurrent();
    }
  }
}
