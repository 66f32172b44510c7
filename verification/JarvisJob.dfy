/**
 The crash-safe edit job of jarvis_job.cpp.

 A call is described by the effects it has on the disk, in order. The disk holds the fixture
 and the job record; both are replaced by a rename, so an effect happens whole or not at all.
 A crash (or a thrown JSON exception) is a call cut after any number of its effects, which
 also loses everything held in memory.
 */
module JarvisJob {
  import opened Text
  import opened JobRecord

  datatype Request = Request(
    fileName: string, oldText: string, newText: string, verifierName: string,
    authorized: bool, stopAfter: string)

  datatype Disk = Disk(fixture: Option<string>, record: Option<JobState>)

  datatype Effect =
    | Write(body: string)            // write_all on the fixture succeeded
    | Verify(left: Option<string>)   // the verifier ran and left this fixture behind
    | Save(st: JobState)             // write_all on the record succeeded
    | TooBig(st: JobState)           // save_state refused the record for its size; the disk stays

  /** What the outside world answers at each call site of one call. */
  datatype Env = Env(
    dirOk: bool, verifierThere: bool, readOriginal: bool, load: bool,
    readNow: bool, writePatch: bool, readBack: bool, saveApplied: bool, readApplied: bool,
    exit: Int32, left: Option<string>, readAfter: bool,
    restoreWrite: bool, restoreRead: bool, saveEnd: bool)

  /** The effects of a call, and the `ok` and `status` it reports. */
  datatype Result = Result(effects: seq<Effect>, ok: bool, status: Status)

  type Hash = string -> string

  function Step(d: Disk, e: Effect): Disk {
    match e
    case Write(body) => d.(fixture := Some(body))
    case Verify(left) => d.(fixture := left)
    case Save(st) => d.(record := Some(st))
    case TooBig(_) => d
  }

  function After(d: Disk, es: seq<Effect>): Disk
    decreases |es|
  {
    if es == [] then d else After(Step(d, es[0]), es[1..])
  }

  lemma {:induction false} AfterAppend(d: Disk, a: seq<Effect>, b: seq<Effect>)
    ensures After(d, a + b) == After(After(d, a), b)
    decreases |a|
  {
    if a == [] {
      assert a + b == b;
    } else {
      assert (a + b)[0] == a[0] && (a + b)[1..] == a[1..] + b;
      AfterAppend(Step(d, a[0]), a[1..], b);
    }
  }

  function Then(es: seq<Effect>, r: Result): Result { r.(effects := es + r.effects) }

  // ----- what each function of the source does, as effects

  predicate SegmentChar(c: char) {
    'a' <= c <= 'z' || 'A' <= c <= 'Z' || '0' <= c <= '9' || c == '.' || c == '_' || c == '-'
  }

  predicate SingleSegment(name: string) {
    0 < |name| <= 64 && name !in {".", "..", "jarvis-job.json"} && forall c :: c in name ==> SegmentChar(c)
  }

  /** read_all under the fixture limit. */
  function ReadAll(file: Option<string>, ok: bool): Option<string> {
    if ok && file.Some? && |file.value| <= MAX_BYTES then file else None
  }

  predicate ReadsAs(h: Hash, file: Option<string>, ok: bool, hash: string) {
    ReadAll(file, ok).Some? && h(file.value) == hash
  }

  predicate Saves(st: JobState, ok: bool) { ok && |Dump(st)| <= MAX_STATE }

  /** save_state: the size is tested before anything is written. */
  function SaveTry(st: JobState, ok: bool): seq<Effect> {
    if |Dump(st)| > MAX_STATE then [TooBig(st)] else if ok then [Save(st)] else []
  }

  function FinishSaved(st: JobState, env: Env, paused: bool): Result {
    if Saves(st, env.saveEnd) then Result(SaveTry(st, env.saveEnd), st.status == Verified || paused, st.status)
    else Result(SaveTry(st, env.saveEnd), false, Failed)
  }

  predicate Restores(h: Hash, st: JobState, env: Env) {
    env.restoreWrite && ReadsAs(h, Some(st.original), env.restoreRead, st.beforeHash)
  }

  function RestoreOriginal(st: JobState, env: Env): seq<Effect> {
    if env.restoreWrite then [Write(st.original)] else []
  }

  function VerifyAndClose(h: Hash, before: JobState, env: Env): Result {
    var st := before.(verifierExit := env.exit);
    if env.exit == 0 && ReadsAs(h, env.left, env.readAfter, st.afterHash) then
      Then([Verify(env.left)], FinishSaved(WithLesson(st.(status := Verified)), env, false))
    else if Restores(h, st, env) then
      Then([Verify(env.left)] + RestoreOriginal(st, env),
           FinishSaved(WithLesson(st.(status := RolledBack)), env, false))
    else
      Then([Verify(env.left)] + RestoreOriginal(st, env), FinishSaved(st.(status := Failed), env, false))
  }

  function ContinueApplied(h: Hash, st: JobState, fixture: Option<string>, env: Env): Result {
    if ReadsAs(h, fixture, env.readApplied, st.afterHash) then VerifyAndClose(h, st, env)
    else FinishSaved(st.(status := Failed), env, false)
  }

  /** The tail of the `proposed` branch, once the fixture holds the patch. */
  function SaveApplied(h: Hash, st: JobState, fixture: Option<string>, stopAfter: string, env: Env): Result {
    if stopAfter == "applied" then FinishSaved(st, env, true)
    else
      Then(SaveTry(st, env.saveApplied),
           if Saves(st, env.saveApplied) then ContinueApplied(h, st, fixture, env)
           else FinishSaved(st.(status := Failed), env, false))
  }

  function ContinueJob(h: Hash, st: JobState, fixture: Option<string>, stopAfter: string, env: Env): Result {
    var failed := FinishSaved(st.(status := Failed), env, false);
    if ReadAll(fixture, env.readNow).None? then failed
    else if st.status == Proposed then
      var now := h(fixture.value);
      if now == st.afterHash then
        SaveApplied(h, st.(status := Applied), fixture, stopAfter, env)
      else if now != st.beforeHash || !env.writePatch then failed
      else if !ReadsAs(h, Some(st.patched), env.readBack, st.afterHash) then Then([Write(st.patched)], failed)
      else Then([Write(st.patched)],
                SaveApplied(h, st.(status := Applied, writes := st.writes + 1), Some(st.patched), stopAfter, env))
    else if st.status == Applied then ContinueApplied(h, st, fixture, env)
    else failed
  }

  const REFUSED := Result([], false, Failed)

  /** The fields `run` copies from the request. */
  function Blank(req: Request): JobState {
    JobState("", Failed, req.fileName, req.verifierName, req.oldText, req.newText, "", "", "", "",
             0, -1, req.authorized, "", "")
  }

  /** The record once the fixture has been read and hashed. */
  function Opened(h: Hash, req: Request, original: string): JobState {
    var hash := h(original);
    Blank(req).(original := original, beforeHash := hash, id := if |hash| < 12 then hash else hash[..12])
  }

  function Replaced(text: string, at: nat, was: string, with: string): string
    requires at + |was| <= |text|
  {
    text[..at] + with + text[at + |was|..]
  }

  /** The patched text, when the request names a real edit that fits. */
  function Patch(req: Request, original: string): Option<string> {
    if req.oldText == "" || req.oldText == req.newText then None else
    var at := Find(original, req.oldText, 0);
    if at == -1 then None else
    var patched := Replaced(original, at, req.oldText, req.newText);
    if |patched| > MAX_BYTES then None else Some(patched)
  }

  /** The record `run` proposes. */
  function ProposedState(h: Hash, req: Request, original: string): JobState
    requires Patch(req, original).Some?
  {
    var patched := Patch(req, original).value;
    Opened(h, req, original).(patched := patched, afterHash := h(patched), status := Proposed)
  }

  predicate Admits(req: Request, d: Disk, env: Env) {
    && SingleSegment(req.fileName) && SingleSegment(req.verifierName)
    && req.stopAfter in {"", "proposed", "applied"}
    && env.dirOk && d.record.None? && env.verifierThere
  }

  function Run(h: Hash, req: Request, d: Disk, env: Env): Result {
    if !Admits(req, d, env) then REFUSED else
    match ReadAll(d.fixture, env.readOriginal)
    case None => FinishSaved(Blank(req).(id := "000000000000"), env, false).(ok := false, status := Failed)
    case Some(original) =>
      var st := Opened(h, req, original);
      if !req.authorized then FinishSaved(st.(status := Denied), env, false)
      else if Patch(req, original).None? then
        // An over-long patch is kept in the record that reports the failure.
        FinishSaved(FailedState(h, req, original), env, false)
      else
        var proposed := ProposedState(h, req, original);
        if req.stopAfter == "proposed" then FinishSaved(proposed, env, true)
        else ContinueJob(h, proposed, d.fixture, req.stopAfter, env)
  }

  function FailedState(h: Hash, req: Request, original: string): JobState {
    var st := Opened(h, req, original);
    var at := Find(original, req.oldText, 0);
    if req.oldText == "" || req.oldText == req.newText || at == -1 then st
    else st.(patched := Replaced(original, at, req.oldText, req.newText))
  }

  function Resume(h: Hash, d: Disk, env: Env): Result {
    if !env.load || d.record.None? then REFUSED else
    var st := d.record.value;
    if Terminal(st.status) then Result([], st.status == Verified, st.status)
    else if st.status == Proposed || st.status == Applied then ContinueJob(h, st, d.fixture, "", env)
    else FinishSaved(st.(status := Failed), env, false)
  }

  function Cancel(h: Hash, d: Disk, env: Env): Result {
    if !env.load || d.record.None? then REFUSED else
    var st := d.record.value;
    if Terminal(st.status) then Result([], st.status == Verified, st.status)
    else if st.status == Applied && !Restores(h, st, env) then
      Then(RestoreOriginal(st, env), FinishSaved(st.(status := Failed), env, false))
    else
      Then(if st.status == Applied then RestoreOriginal(st, env) else [],
           FinishSaved(st.(status := Cancelled), env, false))
  }

  // ----- the same functions as the program runs them, on a disk changed in place

  class Workspace {
    const hash: Hash
    var fixture: Option<string>
    var record: Option<JobState>
    ghost var origin: Disk
    ghost var trace: seq<Effect>

    function Now(): Disk reads this { Disk(fixture, record) }

    /** The disk is what the effects so far made of the disk at the start. */
    ghost predicate Valid() reads this { Now() == After(origin, trace) }

    constructor (hash: Hash, fixture: Option<string>)
      ensures Valid() && this.hash == hash && Now() == Disk(fixture, None)
    {
      this.hash, this.fixture, this.record := hash, fixture, None;
      origin, trace := Disk(fixture, None), [];
    }

    /** The call had exactly these effects, in this order. */
    twostate predicate Did(es: seq<Effect>) reads this {
      Valid() && origin == old(origin) && trace == old(trace) + es
    }

    twostate lemma DidMeans(es: seq<Effect>)
      requires old(Valid()) && Did(es)
      ensures Now() == After(old(Now()), es)
    {
      AfterAppend(origin, old(trace), es);
    }

    method WriteFixture(body: string, ok: bool) returns (done: bool)
      requires Valid()
      modifies this
      ensures done == ok && Did(if ok then [Write(body)] else [])
      ensures fixture == if ok then Some(body) else old(fixture)
    {
      done := ok;
      if ok {
        AfterAppend(origin, trace, [Write(body)]);
        fixture := Some(body);
        trace := trace + [Write(body)];
      } else {
        assert trace == trace + [];
      }
    }

    method SaveState(st: JobState, ok: bool) returns (done: bool)
      requires Valid()
      modifies this
      ensures done == Saves(st, ok) && Did(SaveTry(st, ok))
      ensures fixture == old(fixture)
    {
      hide Dump;
      AfterAppend(origin, trace, SaveTry(st, ok));
      trace := trace + SaveTry(st, ok);
      if |Dump(st)| > MAX_STATE || !ok { return false; }
      record := Some(st);
      return true;
    }

    method RunVerifier(env: Env) returns (exit: Int32)
      requires Valid()
      modifies this
      ensures exit == env.exit && Did([Verify(env.left)]) && fixture == env.left
    {
      AfterAppend(origin, trace, [Verify(env.left)]);
      fixture := env.left;
      trace := trace + [Verify(env.left)];
      exit := env.exit;
    }

    method DoFinishSaved(st: JobState, env: Env, paused: bool) returns (ok: bool, status: Status)
      requires Valid()
      modifies this
      ensures var r := FinishSaved(st, env, paused); Did(r.effects) && ok == r.ok && status == r.status
    {
      hide Dump, After;
      var saved := SaveState(st, env.saveEnd);
      if !saved { return false, Failed; }
      return st.status == Verified || paused, st.status;
    }

    method DoRestoreOriginal(st: JobState, env: Env) returns (restored: bool)
      requires Valid()
      modifies this
      ensures restored == Restores(hash, st, env) && Did(RestoreOriginal(st, env))
    {
      var wrote := WriteFixture(st.original, env.restoreWrite);
      if !wrote { return false; }
      var back := ReadAll(fixture, env.restoreRead);
      return back.Some? && hash(back.value) == st.beforeHash;
    }

    method DoVerifyAndClose(before: JobState, env: Env) returns (ok: bool, status: Status)
      requires Valid()
      modifies this
      ensures var r := VerifyAndClose(hash, before, env); Did(r.effects) && ok == r.ok && status == r.status
    {
      hide WithLesson, FinishSaved, Dump, After;
      var exit := RunVerifier(env);
      var st := before.(verifierExit := exit);
      var now := ReadAll(fixture, env.readAfter);
      if exit == 0 && now.Some? && hash(now.value) == st.afterHash {
        st := WithLesson(st.(status := Verified));
        ok, status := DoFinishSaved(st, env, false);
        return;
      }
      var restored := DoRestoreOriginal(st, env);
      st := if restored then WithLesson(st.(status := RolledBack)) else st.(status := Failed);
      ok, status := DoFinishSaved(st, env, false);
    }

    method DoContinueApplied(st: JobState, env: Env) returns (ok: bool, status: Status)
      requires Valid()
      modifies this
      ensures var r := ContinueApplied(hash, st, old(fixture), env); Did(r.effects) && ok == r.ok && status == r.status
    {
      hide VerifyAndClose;
      var applied := ReadAll(fixture, env.readApplied);
      if applied.None? || hash(applied.value) != st.afterHash {
        ok, status := DoFinishSaved(st.(status := Failed), env, false);
        return;
      }
      ok, status := DoVerifyAndClose(st, env);
    }

    method DoSaveApplied(st: JobState, stopAfter: string, env: Env) returns (ok: bool, status: Status)
      requires Valid()
      modifies this
      ensures var r := SaveApplied(hash, st, old(fixture), stopAfter, env);
              Did(r.effects) && ok == r.ok && status == r.status
    {
      hide ContinueApplied, FinishSaved, SaveTry, Saves, Dump, After;
      if stopAfter == "applied" {
        ok, status := DoFinishSaved(st, env, true);
        return;
      }
      var saved := SaveState(st, env.saveApplied);
      if !saved {
        ok, status := DoFinishSaved(st.(status := Failed), env, false);
        return;
      }
      ok, status := DoContinueApplied(st, env);
    }

    method DoContinueJob(proposed: JobState, stopAfter: string, env: Env) returns (ok: bool, status: Status)
      requires Valid()
      modifies this
      ensures var r := ContinueJob(hash, proposed, old(fixture), stopAfter, env);
              Did(r.effects) && ok == r.ok && status == r.status
    {
      hide ContinueApplied, SaveApplied, FinishSaved, Dump, After;
      var st := proposed;
      var now := ReadAll(fixture, env.readNow);
      if now.None? {
        ok, status := DoFinishSaved(st.(status := Failed), env, false);
        return;
      }
      if st.status == Proposed {
        var nowHash := hash(now.value);
        if nowHash == st.afterHash {
          ok, status := DoSaveApplied(st.(status := Applied), stopAfter, env);
          return;
        }
        if nowHash != st.beforeHash {
          ok, status := DoFinishSaved(st.(status := Failed), env, false);
          return;
        }
        var wrote := WriteFixture(st.patched, env.writePatch);
        if !wrote {
          ok, status := DoFinishSaved(st.(status := Failed), env, false);
          return;
        }
        var written := ReadAll(fixture, env.readBack);
        if written.None? || hash(written.value) != st.afterHash {
          ok, status := DoFinishSaved(st.(status := Failed), env, false);
          return;
        }
        st := st.(writes := st.writes + 1, status := Applied);
        ok, status := DoSaveApplied(st, stopAfter, env);
      } else if st.status == Applied {
        ok, status := DoContinueApplied(st, env);
      } else {
        ok, status := DoFinishSaved(st.(status := Failed), env, false);
      }
    }

    method DoRun(req: Request, env: Env) returns (ok: bool, status: Status)
      requires Valid()
      modifies this
      ensures var r := Run(hash, req, old(Now()), env); Did(r.effects) && ok == r.ok && status == r.status
    {
      hide FinishSaved, ContinueJob, Dump, After;
      if !SingleSegment(req.fileName) || !SingleSegment(req.verifierName) {
        assert trace == trace + [];
        return false, Failed;
      }
      if req.stopAfter !in {"", "proposed", "applied"} {
        assert trace == trace + [];
        return false, Failed;
      }
      if !env.dirOk || record.Some? || !env.verifierThere {
        assert trace == trace + [];
        return false, Failed;
      }
      var st := Blank(req);
      var body := ReadAll(fixture, env.readOriginal);
      if body.None? {
        ok, status := DoFinishSaved(st.(id := "000000000000"), env, false);
        return false, Failed;
      }
      st := Opened(hash, req, body.value);
      if !req.authorized {
        ok, status := DoFinishSaved(st.(status := Denied), env, false);
        return;
      }
      if req.oldText == "" || req.oldText == req.newText {
        ok, status := DoFinishSaved(st, env, false);
        return;
      }
      var at := Find(st.original, req.oldText, 0);
      if at == -1 {
        ok, status := DoFinishSaved(st, env, false);
        return;
      }
      st := st.(patched := Replaced(st.original, at, req.oldText, req.newText));
      if |st.patched| > MAX_BYTES {
        ok, status := DoFinishSaved(st, env, false);
        return;
      }
      st := st.(afterHash := hash(st.patched), status := Proposed);
      if req.stopAfter == "proposed" {
        ok, status := DoFinishSaved(st, env, true);
        return;
      }
      ok, status := DoContinueJob(st, req.stopAfter, env);
    }

    method DoResume(env: Env) returns (ok: bool, status: Status)
      requires Valid()
      modifies this
      ensures var r := Resume(hash, old(Now()), env); Did(r.effects) && ok == r.ok && status == r.status
    {
      hide FinishSaved, ContinueJob, Dump, After;
      if !env.load || record.None? {
        assert trace == trace + [];
        return false, Failed;
      }
      var st := record.value;
      if Terminal(st.status) { return st.status == Verified, st.status; }
      if st.status == Proposed || st.status == Applied {
        ok, status := DoContinueJob(st, "", env);
      } else {
        ok, status := DoFinishSaved(st.(status := Failed), env, false);
      }
    }

    method DoCancel(env: Env) returns (ok: bool, status: Status)
      requires Valid()
      modifies this
      ensures var r := Cancel(hash, old(Now()), env); Did(r.effects) && ok == r.ok && status == r.status
    {
      hide FinishSaved, Dump, After, ReadAll;
      if !env.load || record.None? {
        assert trace == trace + [];
        return false, Failed;
      }
      var st := record.value;
      if Terminal(st.status) { return st.status == Verified, st.status; }
      if st.status == Applied {
        var restored := DoRestoreOriginal(st, env);
        st := if restored then st.(status := Cancelled) else st.(status := Failed);
        ok, status := DoFinishSaved(st, env, false);
        return;
      }
      ghost var es := FinishSaved(st.(status := Cancelled), env, false).effects;
      assert [] + es == es;
      ok, status := DoFinishSaved(st.(status := Cancelled), env, false);
    }
  }
}
