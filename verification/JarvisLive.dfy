/**
 The program's own methods, called one after the other without a crash, live exactly the lives that
 are reasoned about.
 */
module JarvisLive {
  import opened Text
  import opened JobRecord
  import opened JarvisJob
  import opened JarvisJobRuns

  lemma ContinueAppliedIsShort(h: Hash, st: JobState, fixture: Option<string>, env: Env)
    ensures |ContinueApplied(h, st, fixture, env).effects| <= 3
  {
    hide Dump, ReadsAs, Restores, WithLesson;
  }

  lemma SaveAppliedIsShort(h: Hash, st: JobState, fixture: Option<string>, stopAfter: string, env: Env)
    ensures |SaveApplied(h, st, fixture, stopAfter, env).effects| <= 4
  {
    hide Dump, ContinueApplied;
    ContinueAppliedIsShort(h, st, fixture, env);
  }

  lemma ContinueIsShort(h: Hash, st: JobState, fixture: Option<string>, stopAfter: string, env: Env)
    ensures |ContinueJob(h, st, fixture, stopAfter, env).effects| <= MOST
  {
    hide Dump, ContinueApplied, SaveApplied, ReadsAs;
    ContinueAppliedIsShort(h, st, fixture, env);
    SaveAppliedIsShort(h, st.(status := Applied), fixture, stopAfter, env);
    SaveAppliedIsShort(h, st.(status := Applied, writes := st.writes + 1), Some(st.patched), stopAfter, env);
  }

  /** No call has more than five effects, so a cut after five is no crash. */
  lemma CallIsShort(h: Hash, d: Disk, c: Call)
    ensures |Whole(h, d, c).effects| <= MOST
  {
    hide Dump, ContinueJob, Patch, Opened, FailedState;
    match c
    case Resuming(env, _) =>
      if d.record.Some? { ContinueIsShort(h, d.record.value, d.fixture, "", env); }
    case Cancelling(_, _) =>
      CancelIsShort(h, d, c.env);
    case Running(env, _, req) =>
      if Admits(req, d, env) && ReadAll(d.fixture, env.readOriginal).Some? && Patch(req, d.fixture.value).Some? {
        ContinueIsShort(h, ProposedState(h, req, d.fixture.value), d.fixture, req.stopAfter, env);
      }
  }

  method DoCall(w: Workspace, c: Call)
    requires w.Valid()
    modifies w
    ensures w.Valid() && w.Now() == After(old(w.Now()), Whole(w.hash, old(w.Now()), c).effects)
  {
    hide After, Run, Resume, Cancel;
    var ok, status;
    match c {
      case Resuming(env, _) => ok, status := w.DoResume(env);
      case Cancelling(env, _) => ok, status := w.DoCancel(env);
      case Running(env, _, req) => ok, status := w.DoRun(req, env);
    }
    w.DidMeans(Whole(w.hash, old(w.Now()), c).effects);
  }

  /** A whole life without a crash, as the program runs it: the disk ends as the effects of that life leave it. */
  method Live(w: Workspace, req: Request, env: Env, calls: seq<Call>)
    requires w.Valid() && forall c :: c in calls ==> c.crash >= MOST
    modifies w
    ensures w.Valid() && w.Now() == After(old(w.Now()), Life(w.hash, req, old(w.Now()), env, MOST, calls))
  {
    hide After, Whole, Run;
    ghost var start := w.Now();
    ghost var es := Run(w.hash, req, start, env).effects;
    RunIsWhole(w.hash, req, start, env);
    DoCall(w, Running(env, MOST, req));
    ghost var d := w.Now();
    AfterAppend(start, es, Session(w.hash, d, calls));
    NoEffects(d);
    for k := 0 to |calls|
      invariant w.Valid()
      invariant After(w.Now(), Session(w.hash, w.Now(), calls[k..])) == After(d, Session(w.hash, d, calls))
    {
      ghost var now := w.Now();
      var c := calls[k];
      assert calls[k..][0] == c && calls[k..][1..] == calls[k + 1..];
      CallIsShort(w.hash, now, c);
      DoCall(w, c);
      AfterAppend(now, Effects(w.hash, now, c), Session(w.hash, w.Now(), calls[k + 1..]));
    }
    assert calls[|calls|..] == [];
    NoEffects(w.Now());
  }

  lemma RunIsWhole(h: Hash, req: Request, d: Disk, env: Env)
    ensures Whole(h, d, Running(env, MOST, req)) == Run(h, req, d, env)
    ensures |Run(h, req, d, env).effects| <= MOST
  {
    CallIsShort(h, d, Running(env, MOST, req));
  }

  lemma NoEffects(d: Disk)
    ensures After(d, []) == d
  {}
}
