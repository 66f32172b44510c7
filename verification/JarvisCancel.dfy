/** A job cancelled after its patch was applied: what the saved `cancelled` means, over whole lives. */
module JarvisCancel {
  import opened Text
  import opened JobRecord
  import opened JarvisJob
  import opened JarvisJobRuns

  predicate Cancels(e: Effect) { e.Save? && e.st.status == Cancelled }

  predicate Applies(d: Disk) { d.record.Some? && d.record.value.status == Applied }

  /** A cancel saved over an applied record finds the original back in the fixture. */
  predicate TrueAt(job: JobState, d: Disk, es: seq<Effect>, i: nat)
    requires i < |es|
  {
    Cancels(es[i]) && Applies(After(d, es[..i])) ==> After(d, es[..i]).fixture == Some(job.original)
  }

  ghost predicate CancelsTrue(job: JobState, d: Disk, es: seq<Effect>) {
    forall i :: 0 <= i < |es| ==> TrueAt(job, d, es, i)
  }

  ghost predicate NoCancel(es: seq<Effect>) { forall i :: 0 <= i < |es| ==> !Cancels(es[i]) }

  lemma NoCancelIsTrue(job: JobState, d: Disk, es: seq<Effect>)
    requires NoCancel(es)
    ensures CancelsTrue(job, d, es)
  {}

  lemma TrueAppend(job: JobState, d: Disk, a: seq<Effect>, b: seq<Effect>)
    requires CancelsTrue(job, d, a) && CancelsTrue(job, After(d, a), b)
    ensures CancelsTrue(job, d, a + b)
  {
    hide After;
    forall i | 0 <= i < |a + b| ensures TrueAt(job, d, a + b, i) {
      if i < |a| {
        assert (a + b)[..i] == a[..i];
        assert TrueAt(job, d, a, i);
      } else {
        assert (a + b)[..i] == a + b[..i - |a|];
        AfterAppend(d, a, b[..i - |a|]);
        assert TrueAt(job, After(d, a), b, i - |a|);
      }
    }
  }

  lemma TrueCut(job: JobState, d: Disk, es: seq<Effect>, crash: nat)
    requires CancelsTrue(job, d, es)
    ensures CancelsTrue(job, d, Cut(es, crash))
  {
    hide After;
    var cut := Cut(es, crash);
    forall i | 0 <= i < |cut| ensures TrueAt(job, d, cut, i) {
      assert cut[..i] == es[..i];
      assert TrueAt(job, d, es, i);
    }
  }

  lemma FinishNoCancel(st: JobState, env: Env, paused: bool)
    requires st.status != Cancelled
    ensures NoCancel(FinishSaved(st, env, paused).effects)
  {
    hide Dump;
  }

  lemma ContinueAppliedNoCancel(h: Hash, st: JobState, fixture: Option<string>, env: Env)
    ensures NoCancel(ContinueApplied(h, st, fixture, env).effects)
  {
    hide Dump, ReadsAs, Restores;
  }

  lemma SaveAppliedNoCancel(h: Hash, st: JobState, fixture: Option<string>, stopAfter: string, env: Env)
    requires st.status == Applied
    ensures NoCancel(SaveApplied(h, st, fixture, stopAfter, env).effects)
  {
    hide Dump, ContinueApplied, FinishSaved;
    ContinueAppliedNoCancel(h, st, fixture, env);
    FinishNoCancel(st, env, true);
    FinishNoCancel(st.(status := Failed), env, false);
  }

  lemma ContinueNoCancel(h: Hash, st: JobState, fixture: Option<string>, stopAfter: string, env: Env)
    ensures NoCancel(ContinueJob(h, st, fixture, stopAfter, env).effects)
  {
    hide ContinueApplied, SaveApplied, FinishSaved, ReadsAs;
    var applied := st.(status := Applied, writes := st.writes + 1);
    ContinueAppliedNoCancel(h, st, fixture, env);
    SaveAppliedNoCancel(h, st.(status := Applied), fixture, stopAfter, env);
    SaveAppliedNoCancel(h, applied, Some(st.patched), stopAfter, env);
    FinishNoCancel(st.(status := Failed), env, false);
  }

  lemma RunNoCancel(h: Hash, req: Request, d: Disk, env: Env)
    ensures NoCancel(Run(h, req, d, env).effects)
  {
    hide Dump, ContinueJob, FinishSaved, Find;
    if ReadAll(d.fixture, env.readOriginal).Some? {
      var original := d.fixture.value;
      FinishNoCancel(Opened(h, req, original).(status := Denied), env, false);
      FinishNoCancel(FailedState(h, req, original), env, false);
      if Patch(req, original).Some? {
        FinishNoCancel(ProposedState(h, req, original), env, true);
        ContinueNoCancel(h, ProposedState(h, req, original), d.fixture, req.stopAfter, env);
      }
    } else {
      FinishNoCancel(Blank(req).(id := "000000000000"), env, false);
    }
  }

  lemma CallTrue(h: Hash, job: JobState, d: Disk, n: nat, calls: seq<Call>)
    requires IsJob(h, job) && Inv(job, d, n) && calls != [] && OneJob(d, calls)
    ensures CancelsTrue(job, d, Whole(h, d, calls[0]).effects)
  {
    hide Run;
    match calls[0]
    case Resuming(env, _) =>
      ResumeNoCancel(h, d, env);
      NoCancelIsTrue(job, d, Resume(h, d, env).effects);
    case Cancelling(env, _) =>
      CancelTrue(h, job, d, n, env);
    case Running(_, _, _) =>
      OneJobOn(h, d, calls);
      NoCancelIsTrue(job, d, []);
  }

  lemma ResumeNoCancel(h: Hash, d: Disk, env: Env)
    ensures NoCancel(Resume(h, d, env).effects)
  {
    hide ContinueJob, FinishSaved;
    if env.load && d.record.Some? {
      ContinueNoCancel(h, d.record.value, d.fixture, "", env);
      FinishNoCancel(d.record.value.(status := Failed), env, false);
    }
  }

  lemma CancelTrue(h: Hash, job: JobState, d: Disk, n: nat, env: Env)
    requires IsJob(h, job) && Inv(job, d, n)
    ensures CancelsTrue(job, d, Cancel(h, d, env).effects)
  {
    hide Dump;
    var es := Cancel(h, d, env).effects;
    forall i | 0 <= i < |es| ensures TrueAt(job, d, es, i) {
      if i > 0 {
        assert es[..i] == [Write(job.original)];
        assert After(d, [Write(job.original)]) == d.(fixture := Some(job.original)) by {
          assert [Write(job.original)][1..] == [];
        }
      }
    }
  }

  lemma {:induction false} SessionTrue(h: Hash, job: JobState, d: Disk, n: nat, calls: seq<Call>)
    requires IsJob(h, job) && Inv(job, d, n) && OneJob(d, calls)
    ensures CancelsTrue(job, d, Session(h, d, calls))
    decreases |calls|
  {
    hide Whole, Inv, CancelsTrue, OneJob;
    if calls == [] {
      NoCancelIsTrue(job, d, []);
    } else {
      var whole := Whole(h, d, calls[0]).effects;
      var es := Effects(h, d, calls[0]);
      CallTrue(h, job, d, n, calls);
      TrueCut(job, d, whole, calls[0].crash);
      CallInv(h, job, d, n, calls);
      OneJobOn(h, d, calls);
      SessionTrue(h, job, After(d, es), n + Writes(es, job.patched), calls[1..]);
      TrueAppend(job, d, es, Session(h, After(d, es), calls[1..]));
    }
  }

  lemma CallInv(h: Hash, job: JobState, d: Disk, n: nat, calls: seq<Call>)
    requires IsJob(h, job) && Inv(job, d, n) && calls != [] && OneJob(d, calls)
    ensures var es := Effects(h, d, calls[0]); Inv(job, After(d, es), n + Writes(es, job.patched))
  {
    hide Whole, Inv;
    var whole, es := Whole(h, d, calls[0]).effects, Effects(h, d, calls[0]);
    CallKeeps(h, job, d, n, calls);
    KeepsAt(job, d, n, whole, |es|);
    assert es == whole[..|es|];
  }

  /** Over every life with crashes: a `cancelled` saved over an applied job finds the original back in the fixture. */
  lemma CancelledFromApplied(h: Hash, req: Request, d: Disk, env: Env, crash: nat, calls: seq<Call>)
    requires Proposes(req, d, env) && HashTells(h, req, d.fixture.value)
    requires OneJobLife(h, req, d, env, crash, calls)
    ensures CancelsTrue(ProposedState(h, req, d.fixture.value), d, Life(h, req, d, env, crash, calls))
  {
    hide Run, Session, Inv, CancelsTrue, NoCancel;
    var job := ProposedState(h, req, d.fixture.value);
    ProposedIsJob(h, req, d.fixture.value);
    var whole := Run(h, req, d, env).effects;
    var es := Cut(whole, crash);
    RunNoCancel(h, req, d, env);
    NoCancelIsTrue(job, d, whole);
    TrueCut(job, d, whole, crash);
    RunKeeps(h, req, d, env);
    KeepsAt(job, d, 0, whole, |es|);
    assert es == whole[..|es|];
    SessionTrue(h, job, After(d, es), Writes(es, job.patched), calls);
    TrueAppend(job, d, es, Session(h, After(d, es), calls));
  }
}
