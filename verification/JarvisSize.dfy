/**
 Sizes over whole lives of an edit job: no record is ever refused by the state limit, no text
 written by the read limit.
 */
module JarvisSize {
  import opened Text
  import opened JobRecord
  import opened JarvisJob
  import opened JarvisJobRuns

  /** A record within its bounds, with its write count still open while it is proposed. */
  ghost predicate Small(st: JobState) { Sized(st) && (st.status == Proposed ==> st.writes == 0) }

  /** A saved record is within its bounds, a written text can be read back, and nothing is too big. */
  ghost predicate Fits(e: Effect) {
    match e
    case Write(body) => |body| <= MAX_BYTES
    case Verify(_) => true
    case Save(st) => Small(st)
    case TooBig(_) => false
  }

  ghost predicate AllFit(es: seq<Effect>) { forall i :: 0 <= i < |es| ==> Fits(es[i]) }

  ghost predicate SmallRecord(d: Disk) { d.record.Some? ==> Small(d.record.value) }

  lemma FitAppend(a: seq<Effect>, b: seq<Effect>)
    requires AllFit(a) && AllFit(b)
    ensures AllFit(a + b)
  {
    hide Fits;
  }

  lemma {:induction false} FitKeepsSmall(d: Disk, es: seq<Effect>)
    requires SmallRecord(d) && AllFit(es)
    ensures SmallRecord(After(d, es))
    decreases |es|
  {
    hide Small;
    if es != [] {
      assert Fits(es[0]);
      assert forall i :: 0 <= i < |es[1..]| ==> es[1..][i] == es[i + 1];
      FitKeepsSmall(Step(d, es[0]), es[1..]);
    }
  }

  lemma FinishFits(st: JobState, env: Env, paused: bool)
    requires Small(st)
    ensures AllFit(FinishSaved(st, env, paused).effects)
  {
    hide Dump;
    SizedFits(st);
  }

  lemma CloseFits(h: Hash, before: JobState, env: Env)
    requires Sized(before)
    ensures AllFit(VerifyAndClose(h, before, env).effects)
  {
    hide FinishSaved, Restores, ReadsAs, WithLesson;
    var st := before.(verifierExit := env.exit);
    var verified, rolled, failed := st.(status := Verified), st.(status := RolledBack), st.(status := Failed);
    LessonStaysSized(verified);
    LessonStaysSized(rolled);
    FinishFits(WithLesson(verified), env, false);
    FinishFits(WithLesson(rolled), env, false);
    FinishFits(failed, env, false);
    var restore := [Verify(env.left)] + RestoreOriginal(st, env);
    FitAppend([Verify(env.left)], FinishSaved(WithLesson(verified), env, false).effects);
    FitAppend(restore, FinishSaved(WithLesson(rolled), env, false).effects);
    FitAppend(restore, FinishSaved(failed, env, false).effects);
  }

  lemma ContinueAppliedFits(h: Hash, st: JobState, fixture: Option<string>, env: Env)
    requires Sized(st)
    ensures AllFit(ContinueApplied(h, st, fixture, env).effects)
  {
    hide VerifyAndClose, FinishSaved, ReadsAs;
    CloseFits(h, st, env);
    FinishFits(st.(status := Failed), env, false);
  }

  lemma SaveAppliedFits(h: Hash, st: JobState, fixture: Option<string>, stopAfter: string, env: Env)
    requires Sized(st) && st.status == Applied
    ensures AllFit(SaveApplied(h, st, fixture, stopAfter, env).effects)
  {
    hide ContinueApplied, FinishSaved, Dump;
    SizedFits(st);
    FinishFits(st, env, true);
    FinishFits(st.(status := Failed), env, false);
    ContinueAppliedFits(h, st, fixture, env);
    FitAppend(SaveTry(st, env.saveApplied), ContinueApplied(h, st, fixture, env).effects);
    FitAppend(SaveTry(st, env.saveApplied), FinishSaved(st.(status := Failed), env, false).effects);
  }

  lemma ContinueFits(h: Hash, st: JobState, fixture: Option<string>, stopAfter: string, env: Env)
    requires Small(st)
    ensures AllFit(ContinueJob(h, st, fixture, stopAfter, env).effects)
  {
    hide ContinueApplied, SaveApplied, FinishSaved, ReadsAs, ReadAll;
    var failed := FinishSaved(st.(status := Failed), env, false).effects;
    FinishFits(st.(status := Failed), env, false);
    ContinueAppliedFits(h, st, fixture, env);
    FitAppend([Write(st.patched)], failed);
    SaveAppliedFits(h, st.(status := Applied), fixture, stopAfter, env);
    if st.status == Proposed {
      var applied := st.(status := Applied, writes := st.writes + 1);
      SaveAppliedFits(h, applied, Some(st.patched), stopAfter, env);
      FitAppend([Write(st.patched)], SaveApplied(h, applied, Some(st.patched), stopAfter, env).effects);
    }
  }

  lemma ResumeFits(h: Hash, d: Disk, env: Env)
    requires SmallRecord(d)
    ensures AllFit(Resume(h, d, env).effects)
  {
    hide ContinueJob, FinishSaved;
    if env.load && d.record.Some? {
      ContinueFits(h, d.record.value, d.fixture, "", env);
      FinishFits(d.record.value.(status := Failed), env, false);
    }
  }

  lemma CancelFits(h: Hash, d: Disk, env: Env)
    requires SmallRecord(d)
    ensures AllFit(Cancel(h, d, env).effects)
  {
    hide FinishSaved, Restores;
    if env.load && d.record.Some? {
      var st := d.record.value;
      FinishFits(st.(status := Failed), env, false);
      FinishFits(st.(status := Cancelled), env, false);
      FitAppend(RestoreOriginal(st, env), FinishSaved(st.(status := Failed), env, false).effects);
      FitAppend(RestoreOriginal(st, env), FinishSaved(st.(status := Cancelled), env, false).effects);
      FitAppend([], FinishSaved(st.(status := Cancelled), env, false).effects);
    }
  }

  lemma CutFits(es: seq<Effect>, crash: nat)
    requires AllFit(es)
    ensures AllFit(Cut(es, crash))
  {
    hide Fits;
  }

  lemma {:induction false} SessionFits(h: Hash, d: Disk, calls: seq<Call>)
    requires SmallRecord(d) && OneJob(d, calls)
    ensures AllFit(Session(h, d, calls))
    decreases |calls|
  {
    assert AllFit([]);
    hide Resume, Cancel, Run, AllFit, SmallRecord, OneJob;
    if calls != [] {
      var c := calls[0];
      OneJobOn(h, d, calls);
      match c {
        case Resuming(env, _) => ResumeFits(h, d, env);
        case Cancelling(env, _) => CancelFits(h, d, env);
        case Running(_, _, _) =>
      }
      var es := Effects(h, d, c);
      CutFits(Whole(h, d, c).effects, c.crash);
      FitKeepsSmall(d, es);
      SessionFits(h, After(d, es), calls[1..]);
      FitAppend(es, Session(h, After(d, es), calls[1..]));
    }
  }

  lemma RunFits(h: Hash, req: Request, d: Disk, env: Env)
    requires forall s :: |h(s)| == 64
    requires Proposes(req, d, env)
    ensures AllFit(Run(h, req, d, env).effects)
  {
    hide ContinueJob, FinishSaved;
    var job := ProposedState(h, req, d.fixture.value);
    ProposedIsSized(h, req, d.fixture.value);
    FinishFits(job, env, true);
    ContinueFits(h, job, d.fixture, req.stopAfter, env);
  }

  /**
   Over every life of a job that reaches `proposed`, with crashes and failing writes anywhere: each
   record that any call tries to save is within its bounds, so none is refused for its size, and
   each text written to the fixture is within its own read limit.
   */
  lemma NeverTooBig(h: Hash, req: Request, d: Disk, env: Env, crash: nat, calls: seq<Call>)
    requires forall s :: |h(s)| == 64
    requires Proposes(req, d, env) && OneJobLife(h, req, d, env, crash, calls)
    ensures AllFit(Life(h, req, d, env, crash, calls))
  {
    hide Run, Session, AllFit;
    var whole := Run(h, req, d, env).effects;
    var es := Cut(whole, crash);
    RunFits(h, req, d, env);
    CutFits(whole, crash);
    FitKeepsSmall(d, es);
    SessionFits(h, After(d, es), calls);
    FitAppend(es, Session(h, After(d, es), calls));
  }

  /**
   So over every life a save succeeds exactly when the disk lets it: at any moment, for the record
   then on disk in any status.
   */
  lemma SavesAreUpToTheDisk(h: Hash, req: Request, d: Disk, env: Env, crash: nat, calls: seq<Call>, k: nat, ok: bool)
    requires forall s :: |h(s)| == 64
    requires Proposes(req, d, env) && OneJobLife(h, req, d, env, crash, calls)
    requires k <= |Life(h, req, d, env, crash, calls)|
    ensures var now := After(d, Life(h, req, d, env, crash, calls)[..k]);
            now.record.Some? ==> forall s: Status :: !s.Foreign? ==> Saves(now.record.value.(status := s), ok) == ok
  {
    hide Life, OneJobLife, Dump;
    var es := Life(h, req, d, env, crash, calls);
    NeverTooBig(h, req, d, env, crash, calls);
    FitKeepsSmall(d, es[..k]);
    var now := After(d, es[..k]);
    if now.record.Some? {
      forall s: Status | !s.Foreign? ensures Saves(now.record.value.(status := s), ok) == ok {
        SizedFits(now.record.value.(status := s));
      }
    }
  }

  // ----- what a cancel of a proposed job leaves, over lives

  /**
   At any moment of a life with a proposed record, the fixture holds the original if and only if
   the patch has not been written yet; and a `cancel` then, its writes succeeding, leaves it so.
   */
  lemma CancelledFromProposed(h: Hash, req: Request, d: Disk, env: Env, crash: nat, calls: seq<Call>, k: nat, last: Env)
    requires forall s :: |h(s)| == 64
    requires Proposes(req, d, env) && HashTells(h, req, d.fixture.value) && OneJobLife(h, req, d, env, crash, calls)
    requires k <= |Life(h, req, d, env, crash, calls)|
    requires last.load && CleanEnv(last)
    requires var now := After(d, Life(h, req, d, env, crash, calls)[..k]);
             now.record.Some? && now.record.value.status == Proposed
    ensures var job := ProposedState(h, req, d.fixture.value);
            var es := Life(h, req, d, env, crash, calls)[..k];
            var end := After(After(d, es), Cancel(h, After(d, es), last).effects);
            && end.record.Some? && end.record.value.status == Cancelled
            && (end.fixture == d.fixture <==> Writes(es, job.patched) == 0)
            && (end.fixture == Some(job.patched) <==> Writes(es, job.patched) == 1)
  {
    hide Life, Cancel, OneJobLife;
    var job := ProposedState(h, req, d.fixture.value);
    var all := Life(h, req, d, env, crash, calls);
    ProposedIsJob(h, req, d.fixture.value);
    LifeKeeps(h, req, d, env, crash, calls);
    KeepsAt(job, d, 0, all, k);
    NeverTooBig(h, req, d, env, crash, calls);
    FitKeepsSmall(d, all[..k]);
    CancelOfProposed(h, After(d, all[..k]), last);
  }
}
