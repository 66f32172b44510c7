/** What a call of an edit job reports and leaves when the disk works: for each request, each stop and each verifier. */
module JarvisOutcomes {
  import opened Text
  import opened JobRecord
  import opened JarvisJob
  import opened JarvisJobRuns

  /** The call reports the status of this record, and leaves it on disk beside this text in the fixture. */
  predicate Ended(d: Disk, r: Result, ok: bool, text: string, st: JobState) {
    && r.ok == ok && r.status == st.status
    && After(d, r.effects).fixture == Some(text) && After(d, r.effects).record == Some(st)
  }

  /** The record of a job after its verifier. */
  function Closed(st: JobState, env: Env, good: bool): JobState {
    WithLesson(st.(verifierExit := env.exit, status := if good then Verified else RolledBack))
  }

  /** Every read and write succeeds. */
  predicate DiskWorks(env: Env) {
    && env.load && env.readOriginal && env.readNow && env.writePatch && env.readBack && env.saveApplied
    && env.readApplied && env.readAfter && env.restoreWrite && env.restoreRead && env.saveEnd
  }

  /** The verifier exits with 0 and leaves the patched text alone. */
  predicate Accepts(env: Env, patched: string) { env.exit == 0 && env.left == Some(patched) }

  ghost predicate NoVerify(es: seq<Effect>) { forall i :: 0 <= i < |es| ==> !es[i].Verify? }

  lemma FinishVerifiesNone(st: JobState, env: Env, paused: bool)
    ensures NoVerify(FinishSaved(st, env, paused).effects)
    ensures NoVerify([Write(st.patched)] + FinishSaved(st, env, paused).effects)
  {
    hide Dump;
  }

  /** One save at the end of a call. */
  lemma FinishEnds(d: Disk, st: JobState, env: Env, paused: bool, text: string)
    requires (Sized(st) || Printable(st)) && env.saveEnd && d.fixture == Some(text)
    ensures Ended(d, FinishSaved(st, env, paused), st.status == Verified || paused, text, st)
  {
    hide Dump;
    SizedFits(st);
    AfterCons(d, Save(st), []);
    assert FinishSaved(st, env, paused).effects == [Save(st)];
  }

  lemma EffectFirst(d: Disk, e: Effect, r: Result, ok: bool, text: string, st: JobState)
    requires Ended(Step(d, e), r, ok, text, st)
    ensures Ended(d, Then([e], r), ok, text, st)
  {
    AfterCons(d, e, r.effects);
  }

  // ----- the end of a job

  /** Whatever the verifier does: the job ends verified over the patched text, or with the original put back. */
  lemma Closes(h: Hash, job: JobState, d: Disk, st: JobState, env: Env)
    requires IsJob(h, job) && SameJob(st, job) && Sized(st) && DiskWorks(env)
    ensures var good := Accepts(env, job.patched);
            Ended(d, VerifyAndClose(h, st, env), good, if good then job.patched else job.original,
                  Closed(st, env, good))
  {
    hide FinishSaved, Ended;
    var d1, last := Step(d, Verify(env.left)), Closed(st, env, Accepts(env, job.patched));
    LessonStaysSized(st.(verifierExit := env.exit, status := last.status));
    var tail := FinishSaved(last, env, false);
    if Accepts(env, job.patched) {
      FinishEnds(d1, last, env, false, job.patched);
      EffectFirst(d, Verify(env.left), tail, true, job.patched, last);
    } else {
      var d2 := Step(d1, Write(job.original));
      FinishEnds(d2, last, env, false, job.original);
      EffectFirst(d1, Write(job.original), tail, false, job.original, last);
      EffectFirst(d, Verify(env.left), Then([Write(job.original)], tail), false, job.original, last);
      assert [Verify(env.left)] + [Write(job.original)] + tail.effects
          == [Verify(env.left)] + ([Write(job.original)] + tail.effects);
    }
  }

  /** An open job with the patch in the fixture, or still to be written, goes on to that end. */
  lemma OpenCloses(h: Hash, job: JobState, d: Disk, n: nat, st: JobState, env: Env)
    requires IsJob(h, job) && SameJob(st, job) && Sized(st) && DiskWorks(env) && n <= 1
    requires st.status == Proposed && st.writes == 0
    requires d.fixture == Some(if n == 0 then job.original else job.patched)
    ensures var good := Accepts(env, job.patched);
            Ended(d, ContinueJob(h, st, d.fixture, "", env), good, if good then job.patched else job.original,
                  Closed(st.(writes := if n == 0 then 1 else 0), env, good))
  {
    hide VerifyAndClose, FinishSaved, Dump, Ended;
    var good := Accepts(env, job.patched);
    var text := if good then job.patched else job.original;
    assert h(job.original) != h(job.patched);
    var applied := st.(status := Applied, writes := if n == 0 then 1 else 0);
    var d1 := if n == 0 then Step(d, Write(job.patched)) else d;
    var d2 := Step(d1, Save(applied));
    SizedFits(applied);
    Closes(h, job, d2, applied, env);
    var last := Closed(applied, env, good);
    EffectFirst(d1, Save(applied), VerifyAndClose(h, applied, env), good, text, last);
    if n == 0 {
      EffectFirst(d, Write(job.patched), Then([Save(applied)], VerifyAndClose(h, applied, env)), good, text, last);
    }
  }

  // ----- run

  /** The text with the first occurrence of the old text replaced; there is one only for a real edit that fits. */
  lemma PatchIsFirst(req: Request, original: string)
    ensures var patched := Patch(req, original);
            patched.Some? <==>
            && req.oldText != "" && req.oldText != req.newText && Contains(original, req.oldText)
            && |original| - |req.oldText| + |req.newText| <= MAX_BYTES
    ensures var patched := Patch(req, original);
            patched.Some? ==>
              exists at ::
                && IsAt(original, req.oldText, at) && (forall i :: 0 <= i < at ==> !IsAt(original, req.oldText, i))
                && patched.value == original[..at] + req.newText + original[at + |req.oldText|..]
  {
    hide Find;
    var at := Find(original, req.oldText, 0);
    if at != -1 { assert IsAt(original, req.oldText, at); }
  }

  /** The record of a job: what was asked, the text as read and, once there is a patch, the text as it will be. */
  lemma ProposedSays(h: Hash, req: Request, original: string)
    ensures forall st: JobState ::
              st in {Opened(h, req, original), FailedState(h, req, original)}
              || (Patch(req, original).Some? && st == ProposedState(h, req, original)) ==>
                && st.fileName == req.fileName && st.verifierName == req.verifierName && st.authorized == req.authorized
                && st.oldText == req.oldText && st.newText == req.newText
                && st.original == original && st.beforeHash == h(original)
                && st.id == h(original)[..Min(12, |h(original)|)]
                && st.writes == 0 && st.lesson == ""
                && st.status == (if Patch(req, original).Some? && st == ProposedState(h, req, original)
                                 then Proposed else Failed)
    ensures Patch(req, original).Some? ==>
              var st := ProposedState(h, req, original);
              st.patched == Patch(req, original).value && st.afterHash == h(st.patched)
  {}

  /** With a stop, no verifier is started, whatever the world answers. */
  lemma StopsBeforeVerifier(h: Hash, req: Request, d: Disk, env: Env)
    requires req.stopAfter != ""
    ensures NoVerify(Run(h, req, d, env).effects)
  {
    hide FinishSaved, FailedState, Dump;
    FinishVerifiesNone(Blank(req).(id := "000000000000"), env, false);
    if ReadAll(d.fixture, env.readOriginal).Some? {
      var original := d.fixture.value;
      FinishVerifiesNone(Opened(h, req, original).(status := Denied), env, false);
      FinishVerifiesNone(FailedState(h, req, original), env, false);
      if Patch(req, original).Some? {
        var st := ProposedState(h, req, original);
        FinishVerifiesNone(st, env, true);
        FinishVerifiesNone(st.(status := Failed), env, false);
        FinishVerifiesNone(st.(status := Applied), env, true);
        FinishVerifiesNone(st.(status := Applied, writes := 1), env, true);
      }
    }
  }

  /** A stop at `proposed` leaves the fixture as it is, with the proposed record. */
  lemma RunPausesProposed(h: Hash, req: Request, d: Disk, env: Env)
    requires forall s :: |h(s)| == 64
    requires Proposes(req, d, env) && DiskWorks(env) && req.stopAfter == "proposed"
    ensures Ended(d, Run(h, req, d, env), true, d.fixture.value, ProposedState(h, req, d.fixture.value))
  {
    hide Dump;
    var st := ProposedState(h, req, d.fixture.value);
    ProposedIsSized(h, req, d.fixture.value);
    FinishEnds(d, st, env, true, d.fixture.value);
  }

  /** A stop at `applied` leaves the patched text, written once, with the applied record. */
  lemma RunPausesApplied(h: Hash, req: Request, d: Disk, env: Env)
    requires forall s :: |h(s)| == 64
    requires Proposes(req, d, env) && HashTells(h, req, d.fixture.value) && DiskWorks(env) && req.stopAfter == "applied"
    ensures Ended(d, Run(h, req, d, env), true, Patch(req, d.fixture.value).value,
                  ProposedState(h, req, d.fixture.value).(status := Applied, writes := 1))
  {
    hide Dump, VerifyAndClose;
    var st := ProposedState(h, req, d.fixture.value);
    ProposedIsJob(h, req, d.fixture.value);
    ProposedIsSized(h, req, d.fixture.value);
    var applied, d1 := st.(status := Applied, writes := 1), Step(d, Write(st.patched));
    FinishEnds(d1, applied, env, true, st.patched);
    EffectFirst(d, Write(st.patched), FinishSaved(applied, env, true), true, st.patched, applied);
  }

  /** Without a stop the job runs to its end: verified over the patched text, or rolled back to the original. */
  lemma RunEnds(h: Hash, req: Request, d: Disk, env: Env)
    requires forall s :: |h(s)| == 64
    requires Proposes(req, d, env) && HashTells(h, req, d.fixture.value) && DiskWorks(env) && req.stopAfter == ""
    ensures var patched := Patch(req, d.fixture.value).value;
            var good := Accepts(env, patched);
            Ended(d, Run(h, req, d, env), good, if good then patched else d.fixture.value,
                  Closed(ProposedState(h, req, d.fixture.value).(writes := 1), env, good))
  {
    hide ContinueJob, Ended;
    var st := ProposedState(h, req, d.fixture.value);
    ProposedIsJob(h, req, d.fixture.value);
    ProposedIsSized(h, req, d.fixture.value);
    OpenCloses(h, st, d, 0, st, env);
  }

  /** A save changes no fixture, and reports success only of a job that is verified or paused. */
  lemma FinishLeaves(d: Disk, st: JobState, env: Env)
    requires st.status != Verified
    ensures var r := FinishSaved(st, env, false); !r.ok && After(d, r.effects).fixture == d.fixture
  {
    hide Dump;
    AfterCons(d, Save(st), []);
    AfterCons(d, TooBig(st), []);
  }

  /** A request without authority over a readable fixture is recorded as denied. */
  lemma RunDenied(h: Hash, req: Request, d: Disk, env: Env)
    requires forall s :: |h(s)| == 64
    requires Admits(req, d, env) && ReadAll(d.fixture, env.readOriginal).Some? && DiskWorks(env) && !req.authorized
    ensures var r := Run(h, req, d, env); !r.ok && After(d, r.effects).fixture == d.fixture
    ensures |req.oldText| <= MAX_BYTES && |req.newText| <= MAX_BYTES ==>
              Ended(d, Run(h, req, d, env), false, d.fixture.value,
                    Opened(h, req, d.fixture.value).(status := Denied))
  {
    hide Dump;
    var st := Opened(h, req, d.fixture.value).(status := Denied);
    FinishLeaves(d, st, env);
    if |req.oldText| <= MAX_BYTES && |req.newText| <= MAX_BYTES { FinishEnds(d, st, env, false, d.fixture.value); }
  }

  /** A request that is no edit of the fixture, or one too long, is recorded as failed. */
  lemma RunFails(h: Hash, req: Request, d: Disk, env: Env)
    requires forall s :: |h(s)| == 64
    requires Admits(req, d, env) && ReadAll(d.fixture, env.readOriginal).Some? && DiskWorks(env) && req.authorized
    requires Patch(req, d.fixture.value).None?
    ensures var r := Run(h, req, d, env); !r.ok && After(d, r.effects).fixture == d.fixture
    ensures |req.oldText| <= MAX_BYTES && |req.newText| <= MAX_BYTES ==>
              Ended(d, Run(h, req, d, env), false, d.fixture.value, FailedState(h, req, d.fixture.value))
  {
    hide Dump;
    var st := FailedState(h, req, d.fixture.value);
    FinishLeaves(d, st, env);
    if |req.oldText| <= MAX_BYTES && |req.newText| <= MAX_BYTES { FinishEnds(d, st, env, false, d.fixture.value); }
  }

  // ----- resume and cancel

  /** Resuming an open job, wherever it was cut, runs it to its end. */
  lemma ResumeEnds(h: Hash, job: JobState, d: Disk, n: nat, env: Env)
    requires IsJob(h, job) && Inv(job, d, n) && DiskWorks(env)
    requires d.record.Some? && Sized(d.record.value)
    requires d.record.value.status == Proposed || (d.record.value.status == Applied && d.fixture == Some(job.patched))
    ensures var good, st := Accepts(env, job.patched), d.record.value;
            Ended(d, Resume(h, d, env), good, if good then job.patched else job.original,
                  Closed(if st.status == Proposed then st.(writes := 1 - n) else st, env, good))
  {
    hide ContinueJob, Ended;
    var st := d.record.value;
    if st.status == Proposed {
      OpenCloses(h, job, d, n, st, env);
    } else {
      AppliedCloses(h, job, d, st, env);
    }
  }

  lemma AppliedCloses(h: Hash, job: JobState, d: Disk, st: JobState, env: Env)
    requires IsJob(h, job) && SameJob(st, job) && Sized(st) && st.status == Applied && DiskWorks(env)
    requires d.fixture == Some(job.patched)
    ensures var good := Accepts(env, job.patched);
            Ended(d, ContinueJob(h, st, d.fixture, "", env), good, if good then job.patched else job.original,
                  Closed(st, env, good))
  {
    hide VerifyAndClose, Ended;
    Closes(h, job, d, st, env);
  }

  /** Cancelling an applied job puts the original back. */
  lemma CancelEnds(h: Hash, job: JobState, d: Disk, n: nat, env: Env)
    requires IsJob(h, job) && Inv(job, d, n) && DiskWorks(env)
    requires d.record.Some? && Sized(d.record.value) && d.record.value.status == Applied
    ensures Ended(d, Cancel(h, d, env), false, job.original, d.record.value.(status := Cancelled))
  {
    hide FinishSaved, Ended;
    var last, d1 := d.record.value.(status := Cancelled), Step(d, Write(job.original));
    FinishEnds(d1, last, env, false, job.original);
    EffectFirst(d, Write(job.original), FinishSaved(last, env, false), false, job.original, last);
  }

  /** A closed job reports how it ended, to `resume` and `cancel` alike. */
  lemma ClosedReports(h: Hash, d: Disk, env: Env)
    requires d.record.Some? && Terminal(d.record.value.status)
    ensures forall r :: r in {Resume(h, d, env), Cancel(h, d, env)} ==>
              && r.effects == []
              && r.status == (if env.load then d.record.value.status else Failed)
              && (r.ok <==> env.load && d.record.value.status == Verified)
  {}
}
