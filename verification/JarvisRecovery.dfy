/** What follows a crash of an edit job: the next `resume`, or the next `run` where no record was left. */
module JarvisRecovery {
  import opened Text
  import opened JobRecord
  import opened JarvisJob
  import opened JarvisJobRuns
  import opened JarvisSize

  // ----- resuming

  /** Every read and write succeeds, and the verifier accepts the patched text and leaves it alone. */
  predicate GoesWell(env: Env, patched: string) {
    && env.load && env.readNow && env.writePatch && env.readBack && env.saveApplied && env.readApplied
    && env.exit == 0 && env.left == Some(patched) && env.readAfter && env.saveEnd
  }

  /** The call reports success, with the record that says so beside the patched text. */
  predicate Succeeds(d: Disk, r: Result, patched: string) {
    && r.ok && r.status == Verified
    && var end := After(d, r.effects);
       end.fixture == Some(patched) && end.record.Some? && end.record.value.status == Verified
  }

  lemma AppliedSucceeds(h: Hash, job: JobState, d: Disk, st: JobState, env: Env)
    requires IsJob(h, job) && SameJob(st, job) && Sized(st) && st.status == Applied && GoesWell(env, job.patched)
    ensures d.fixture == Some(job.patched) ==> Succeeds(d, ContinueApplied(h, st, d.fixture, env), job.patched)
    ensures d.fixture != Some(job.patched) ==> !ContinueApplied(h, st, d.fixture, env).ok
  {
    hide Dump;
    var last := WithLesson(st.(verifierExit := env.exit, status := Verified));
    LessonStaysSized(st.(verifierExit := env.exit, status := Verified));
    SizedFits(last);
    var tail := FinishSaved(last, env, false).effects;
    assert tail == [Save(last)];
    AfterCons(d, Verify(env.left), tail);
    AfterCons(Step(d, Verify(env.left)), Save(last), []);
  }

  lemma SaveAppliedSucceeds(h: Hash, job: JobState, d: Disk, st: JobState, env: Env)
    requires IsJob(h, job) && SameJob(st, job) && Sized(st) && st.status == Applied && GoesWell(env, job.patched)
    requires d.fixture == Some(job.patched)
    ensures Succeeds(d, SaveApplied(h, st, d.fixture, "", env), job.patched)
  {
    hide Dump, ContinueApplied;
    SizedFits(st);
    var d1 := Step(d, Save(st));
    AppliedSucceeds(h, job, d1, st, env);
    AfterCons(d, Save(st), ContinueApplied(h, st, d.fixture, env).effects);
  }

  /** An open job succeeds in a `resume` where all goes well, unless it is applied and its patch is gone. */
  lemma ResumeSucceeds(h: Hash, job: JobState, d: Disk, n: nat, env: Env)
    requires IsJob(h, job) && Inv(job, d, n) && GoesWell(env, job.patched)
    requires d.record.Some? && d.record.value.status in {Proposed, Applied} && Small(d.record.value)
    ensures Succeeds(d, Resume(h, d, env), job.patched) <==>
            d.record.value.status == Proposed || d.fixture == Some(job.patched)
  {
    hide Dump, ContinueApplied, SaveApplied, FinishSaved, Succeeds;
    var st := d.record.value;
    if st.status == Applied {
      AppliedSucceeds(h, job, d, st, env);
      FailedIsNoSuccess(d, st, env, job.patched);
    } else if n == 1 {
      SaveAppliedSucceeds(h, job, d, st.(status := Applied), env);
    } else {
      assert h(d.fixture.value) == st.beforeHash && h(d.fixture.value) != st.afterHash;
      var applied, d1 := st.(status := Applied, writes := st.writes + 1), Step(d, Write(job.patched));
      SaveAppliedSucceeds(h, job, d1, applied, env);
      WriteFirst(d, SaveApplied(h, applied, d1.fixture, "", env), job.patched);
    }
  }

  lemma FailedIsNoSuccess(d: Disk, st: JobState, env: Env, patched: string)
    ensures !Succeeds(d, FinishSaved(st.(status := Failed), env, false), patched)
    ensures forall r: Result :: !r.ok ==> !Succeeds(d, r, patched)
  {
    hide Dump;
  }

  lemma WriteFirst(d: Disk, r: Result, patched: string)
    requires Succeeds(Step(d, Write(patched)), r, patched)
    ensures Succeeds(d, Then([Write(patched)], r), patched)
  {
    AfterCons(d, Write(patched), r.effects);
  }

  /**
   A job recovers: at any moment of any life, whatever crashed before, a `resume` in which all goes
   well ends it `verified` over the patched text if and only if the record is `proposed`, or is
   `applied` and the patch is still in the fixture.
   */
  lemma RecoversIff(h: Hash, req: Request, d: Disk, env: Env, crash: nat, calls: seq<Call>, k: nat, last: Env)
    requires forall s :: |h(s)| == 64
    requires Proposes(req, d, env) && HashTells(h, req, d.fixture.value) && OneJobLife(h, req, d, env, crash, calls)
    requires k <= |Life(h, req, d, env, crash, calls)|
    requires GoesWell(last, ProposedState(h, req, d.fixture.value).patched)
    requires var now := After(d, Life(h, req, d, env, crash, calls)[..k]);
             now.record.Some? && now.record.value.status in {Proposed, Applied}
    ensures var job := ProposedState(h, req, d.fixture.value);
            var now := After(d, Life(h, req, d, env, crash, calls)[..k]);
            Succeeds(now, Resume(h, now, last), job.patched) <==>
            now.record.value.status == Proposed || now.fixture == Some(job.patched)
  {
    hide Life, Resume, OneJobLife, Succeeds;
    var job := ProposedState(h, req, d.fixture.value);
    var all := Life(h, req, d, env, crash, calls);
    ProposedIsJob(h, req, d.fixture.value);
    LifeKeeps(h, req, d, env, crash, calls);
    KeepsAt(job, d, 0, all, k);
    NeverTooBig(h, req, d, env, crash, calls);
    FitKeepsSmall(d, all[..k]);
    ResumeSucceeds(h, job, After(d, all[..k]), Writes(all[..k], job.patched), last);
  }

  // ----- a second run from an orphaned patch

  /** A run that reaches `proposed` and goes on to write its patch before it saves anything. */
  ghost predicate WritesFirst(h: Hash, req: Request, d: Disk, env: Env) {
    && Proposes(req, d, env) && HashTells(h, req, d.fixture.value)
    && req.stopAfter != "proposed" && env.readNow && env.writePatch
  }

  function Patched(req: Request, d: Disk): string {
    if d.fixture.Some? && Patch(req, d.fixture.value).Some? then Patch(req, d.fixture.value).value else ""
  }

  ghost predicate AnyWrite(es: seq<Effect>, from: nat) { exists i :: from <= i < |es| && es[i].Write? }

  lemma FinishWritesNone(st: JobState, env: Env, paused: bool)
    ensures !AnyWrite(FinishSaved(st, env, paused).effects, 0)
  {
    hide Dump;
  }

  /** A run writes exactly when it reaches `proposed`, is not told to stop there, and can read and write. */
  lemma RunWritesIff(h: Hash, req: Request, d: Disk, env: Env)
    requires Proposes(req, d, env) ==> HashTells(h, req, d.fixture.value)
    ensures AnyWrite(Run(h, req, d, env).effects, 0) <==> WritesFirst(h, req, d, env)
    ensures WritesFirst(h, req, d, env) ==>
              var es := Run(h, req, d, env).effects;
              d.record.None? && d.fixture != Some(Patched(req, d)) && |es| >= 1 && es[0] == Write(Patched(req, d))
  {
    hide SaveApplied, FinishSaved, FailedState;
    if Admits(req, d, env) && ReadAll(d.fixture, env.readOriginal).Some? {
      var original := d.fixture.value;
      FinishWritesNone(Opened(h, req, original).(status := Denied), env, false);
      FinishWritesNone(FailedState(h, req, original), env, false);
      if Patch(req, original).Some? {
        var proposed := ProposedState(h, req, original);
        FinishWritesNone(proposed, env, true);
        FinishWritesNone(proposed.(status := Failed), env, false);
        if req.authorized { ProposedIsJob(h, req, original); }
      }
    }
    FinishWritesNone(Blank(req).(id := "000000000000"), env, false);
    if WritesFirst(h, req, d, env) { assert Run(h, req, d, env).effects[0].Write?; }
  }

  /**
   A crash right after the patch, before any record, lets a further `run` in. With any request it
   writes to the fixture again if and only if that request proposes an edit of the patched text and
   is not stopped; the same request does where its old text still stands after the edit.
   */
  lemma SecondRun(h: Hash, req: Request, d: Disk, env: Env, second: Request, again: Env, crash: nat)
    requires crash >= 1 && WritesFirst(h, req, d, env)
    requires var d1 := d.(fixture := Some(Patched(req, d)));
             Proposes(second, d1, again) ==> HashTells(h, second, d1.fixture.value)
    ensures var d1 := d.(fixture := Some(Patched(req, d)));
            var es := Life(h, req, d, env, 1, [Running(again, crash, second)]);
            && !OneJobLife(h, req, d, env, 1, [Running(again, crash, second)])
            && |es| >= 1 && es[0] == Write(Patched(req, d))
            && (AnyWrite(es, 1) <==> WritesFirst(h, second, d1, again))
            && (AnyWrite(es, 1) ==> |es| >= 2 && es[1] == Write(Patched(second, d1)) && es[1] != es[0])
  {
    hide Run, Patched, WritesFirst;
    var d1 := d.(fixture := Some(Patched(req, d)));
    WritesMeansProposes(h, req, d, env);
    RunWritesIff(h, req, d, env);
    RunWritesIff(h, second, d1, again);
    var first := Cut(Run(h, req, d, env).effects, 1);
    assert first == [Write(Patched(req, d))];
    AfterCons(d, Write(Patched(req, d)), []);
    var call := Running(again, crash, second);
    var whole, es := Run(h, second, d1, again).effects, Effects(h, d1, call);
    assert [call][1..] == [] && Session(h, d1, [call]) == es + [] == es;
    assert call in [call];
    var life := Life(h, req, d, env, 1, [call]);
    assert life == first + es;
    if AnyWrite(life, 1) {
      var i :| 1 <= i < |life| && life[i].Write?;
      assert whole[i - 1].Write?;
    }
    if WritesFirst(h, second, d1, again) { assert life[1] == es[0] == whole[0]; }
  }

  lemma WritesMeansProposes(h: Hash, req: Request, d: Disk, env: Env)
    requires WritesFirst(h, req, d, env)
    ensures Proposes(req, d, env) && HashTells(h, req, d.fixture.value)
  {}
}
