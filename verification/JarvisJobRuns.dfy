/** What holds over whole lives of an edit job: any calls, any answers from outside, any crashes. */
module JarvisJobRuns {
  import opened Text
  import opened JobRecord
  import opened JarvisJob

  /** One call, cut by a crash after `crash` effects (or not, when that is enough). */
  datatype Call =
    | Resuming(env: Env, crash: nat)
    | Cancelling(env: Env, crash: nat)
    | Running(env: Env, crash: nat, req: Request)   // another `run` in the same directory

  function Cut(es: seq<Effect>, crash: nat): seq<Effect> {
    if crash < |es| then es[..crash] else es
  }

  function Whole(h: Hash, d: Disk, c: Call): Result {
    match c
    case Resuming(env, _) => Resume(h, d, env)
    case Cancelling(env, _) => Cancel(h, d, env)
    case Running(env, _, req) => Run(h, req, d, env)
  }

  /** No other job starts: a further `run` comes only once there is a record, which makes it refuse. */
  predicate OneJob(d: Disk, calls: seq<Call>) { forall c :: c in calls && c.Running? ==> d.record.Some? }

  function Effects(h: Hash, d: Disk, c: Call): seq<Effect> { Cut(Whole(h, d, c).effects, c.crash) }

  /** All effects of a sequence of calls. */
  function Session(h: Hash, d: Disk, calls: seq<Call>): seq<Effect>
    decreases |calls|
  {
    if calls == [] then [] else
    var es := Effects(h, d, calls[0]);
    es + Session(h, After(d, es), calls[1..])
  }

  /** `run`, cut anywhere, then any calls. */
  function Life(h: Hash, req: Request, d: Disk, env: Env, crash: nat, calls: seq<Call>): seq<Effect> {
    var es := Cut(Run(h, req, d, env).effects, crash);
    es + Session(h, After(d, es), calls)
  }

  /** Whether no other job starts during a life. */
  predicate OneJobLife(h: Hash, req: Request, d: Disk, env: Env, crash: nat, calls: seq<Call>) {
    forall c :: c in calls && c.Running? ==> After(d, Cut(Run(h, req, d, env).effects, crash)).record.Some?
  }

  /** A record is replaced but never removed. */
  lemma {:induction false} RecordStays(d: Disk, es: seq<Effect>)
    requires d.record.Some?
    ensures After(d, es).record.Some?
    decreases |es|
  {
    if es != [] { RecordStays(Step(d, es[0]), es[1..]); }
  }

  lemma OneJobOn(h: Hash, d: Disk, calls: seq<Call>)
    requires calls != [] && OneJob(d, calls)
    ensures OneJob(After(d, Effects(h, d, calls[0])), calls[1..])
    ensures calls[0].Running? ==> d.record.Some? && Whole(h, d, calls[0]).effects == []
  {
    hide Resume, Cancel;
    if d.record.Some? { RecordStays(d, Effects(h, d, calls[0])); }
  }

  function Writes(es: seq<Effect>, body: string): nat {
    if es == [] then 0 else (if es[0] == Write(body) then 1 else 0) + Writes(es[1..], body)
  }

  lemma {:induction false} WritesAppend(a: seq<Effect>, b: seq<Effect>, body: string)
    ensures Writes(a + b, body) == Writes(a, body) + Writes(b, body)
  {
    if a == [] {
      assert a + b == b;
    } else {
      assert (a + b)[0] == a[0] && (a + b)[1..] == a[1..] + b;
      WritesAppend(a[1..], b, body);
    }
  }

  /** No other text has this text's hash. */
  ghost predicate Unmistakable(h: Hash, body: string) {
    forall s :: h(s) == h(body) ==> s == body
  }

  /** A record that proposes a real edit between two texts the hash tells apart from all others. */
  ghost predicate IsJob(h: Hash, job: JobState) {
    && job.status == Proposed && job.writes == 0
    && job.original != job.patched
    && |job.original| <= MAX_BYTES && |job.patched| <= MAX_BYTES
    && job.beforeHash == h(job.original) && job.afterHash == h(job.patched)
    && Unmistakable(h, job.original) && Unmistakable(h, job.patched)
  }

  predicate SameJob(r: JobState, job: JobState) {
    && r.original == job.original && r.patched == job.patched
    && r.beforeHash == job.beforeHash && r.afterHash == job.afterHash
  }

  /** The disk of a job whose patch has been written n times so far. */
  ghost predicate Inv(job: JobState, d: Disk, n: nat) {
    var untouched := d.fixture == Some(if n == 0 then job.original else job.patched);
    && n <= 1
    && match d.record
       case None => untouched
       case Some(r) =>
         && SameJob(r, job) && r.writes <= n
         && match r.status
            case Proposed => untouched && r.writes == 0
            case Applied => n == 1
            case Verified => d.fixture == Some(job.patched) && r.verifierExit == 0
            case RolledBack => d.fixture == Some(job.original)
            case Cancelled => d.fixture in {Some(job.original), Some(job.patched)}
            case Failed => true
            case _ => false
  }

  function Rank(record: Option<JobState>): nat {
    match record
    case None => 0
    case Some(r) => if r.status == Proposed then 1 else if r.status == Applied then 2 else 3
  }

  /** The invariant holds after every prefix of the effects, and every save moves the status forward. */
  ghost predicate Keeps(job: JobState, d: Disk, n: nat, es: seq<Effect>)
    decreases |es|
  {
    && Inv(job, d, n)
    && (es != [] ==>
          && (es[0].Save? ==> Rank(d.record) < Rank(Some(es[0].st)))
          && Keeps(job, Step(d, es[0]), n + (if es[0] == Write(job.patched) then 1 else 0), es[1..]))
  }

  lemma {:induction false} KeepsAppend(job: JobState, d: Disk, n: nat, a: seq<Effect>, b: seq<Effect>)
    requires Keeps(job, d, n, a) && Keeps(job, After(d, a), n + Writes(a, job.patched), b)
    ensures Keeps(job, d, n, a + b)
    decreases |a|
  {
    if a == [] {
      assert a + b == b;
    } else {
      assert (a + b)[0] == a[0] && (a + b)[1..] == a[1..] + b;
      KeepsAppend(job, Step(d, a[0]), n + (if a[0] == Write(job.patched) then 1 else 0), a[1..], b);
    }
  }

  /** Reading the recursive form at one prefix. */
  lemma {:induction false} KeepsAt(job: JobState, d: Disk, n: nat, es: seq<Effect>, k: nat)
    requires Keeps(job, d, n, es) && k <= |es|
    ensures Keeps(job, d, n, es[..k]) && Inv(job, After(d, es[..k]), n + Writes(es[..k], job.patched))
    ensures Rank(d.record) <= Rank(After(d, es[..k]).record)
    ensures Rank(d.record) == Rank(After(d, es[..k]).record) ==> After(d, es[..k]).record == d.record
    decreases k
  {
    if k > 0 {
      assert es[..k][0] == es[0] && es[..k][1..] == es[1..][..k - 1];
      KeepsAt(job, Step(d, es[0]), n + (if es[0] == Write(job.patched) then 1 else 0), es[1..], k - 1);
    } else {
      assert es[..k] == [];
    }
  }

  /** One effect in front. */
  lemma KeepsCons(job: JobState, d: Disk, n: nat, e: Effect, es: seq<Effect>)
    requires Inv(job, d, n)
    requires e.Save? ==> Rank(d.record) < Rank(Some(e.st))
    requires Keeps(job, Step(d, e), n + (if e == Write(job.patched) then 1 else 0), es)
    ensures Keeps(job, d, n, [e] + es)
  {
    assert ([e] + es)[0] == e && ([e] + es)[1..] == es;
  }

  lemma FinishKeeps(h: Hash, job: JobState, d: Disk, n: nat, st: JobState, env: Env, paused: bool)
    requires Inv(job, d, n) && Inv(job, d.(record := Some(st)), n)
    requires Rank(d.record) < Rank(Some(st))
    ensures Keeps(job, d, n, FinishSaved(st, env, paused).effects)
  {
    hide Dump;
    KeepsCons(job, d, n, TooBig(st), []);
    KeepsCons(job, d, n, Save(st), []);
    assert [Save(st)] == [Save(st)] + [] && [TooBig(st)] == [TooBig(st)] + [];
  }

  lemma VerifyKeeps(h: Hash, job: JobState, d: Disk, st: JobState, env: Env)
    requires IsJob(h, job) && Inv(job, d, 1) && d.record == Some(st) && st.status == Applied
    ensures Keeps(job, d, 1, VerifyAndClose(h, st, env).effects)
  {
    hide Dump, FinishSaved, Keeps, Restores;
    var st1 := st.(verifierExit := env.exit);
    var d1 := Step(d, Verify(env.left));
    if env.exit == 0 && ReadsAs(h, env.left, env.readAfter, st1.afterHash) {
      FinishKeeps(h, job, d1, 1, WithLesson(st1.(status := Verified)), env, false);
      KeepsCons(job, d, 1, Verify(env.left), FinishSaved(WithLesson(st1.(status := Verified)), env, false).effects);
    } else {
      RestoreWrites(h, st1, env);
      var last := if Restores(h, st1, env) then WithLesson(st1.(status := RolledBack)) else st1.(status := Failed);
      var tail := FinishSaved(last, env, false).effects;
      RestoreKeeps(h, job, d1, st1, last, env);
      KeepsCons(job, d, 1, Verify(env.left), RestoreOriginal(st1, env) + tail);
      assert [Verify(env.left)] + RestoreOriginal(st1, env) + tail
          == [Verify(env.left)] + (RestoreOriginal(st1, env) + tail);
    }
  }

  /** Restoring and recording how the job ended. */
  lemma RestoreKeeps(h: Hash, job: JobState, d: Disk, st: JobState, last: JobState, env: Env)
    requires Inv(job, d, 1) && st.original == job.original && job.original != job.patched
    requires var end := if env.restoreWrite then d.(fixture := Some(job.original)) else d;
             Inv(job, end, 1) && Inv(job, end.(record := Some(last)), 1)
    requires Rank(d.record) < Rank(Some(last))
    ensures Keeps(job, d, 1, RestoreOriginal(st, env) + FinishSaved(last, env, false).effects)
  {
    hide Inv, FinishSaved;
    var tail := FinishSaved(last, env, false).effects;
    if env.restoreWrite {
      FinishKeeps(h, job, Step(d, Write(job.original)), 1, last, env, false);
      KeepsCons(job, d, 1, Write(job.original), tail);
    } else {
      FinishKeeps(h, job, d, 1, last, env, false);
      assert [] + tail == tail;
    }
  }

  lemma ContinueAppliedKeeps(h: Hash, job: JobState, d: Disk, st: JobState, env: Env)
    requires IsJob(h, job) && Inv(job, d, 1) && d.record == Some(st) && st.status == Applied
    ensures Keeps(job, d, 1, ContinueApplied(h, st, d.fixture, env).effects)
  {
    hide VerifyAndClose, Dump;
    if ReadsAs(h, d.fixture, env.readApplied, st.afterHash) {
      VerifyKeeps(h, job, d, st, env);
    } else {
      FinishKeeps(h, job, d, 1, st.(status := Failed), env, false);
    }
  }

  /** Once the fixture holds the patch and the record is behind, recording `applied` keeps the invariant. */
  lemma SaveAppliedKeeps(h: Hash, job: JobState, d: Disk, st: JobState, stopAfter: string, env: Env)
    requires IsJob(h, job) && Inv(job, d, 1) && Rank(d.record) < 2
    requires SameJob(st, job) && st.status == Applied && st.writes <= 1
    ensures Keeps(job, d, 1, SaveApplied(h, st, d.fixture, stopAfter, env).effects)
  {
    hide ContinueApplied, FinishSaved, Dump;
    var failed := st.(status := Failed);
    if stopAfter == "applied" {
      FinishKeeps(h, job, d, 1, st, env, true);
    } else if Saves(st, env.saveApplied) {
      var d1 := Step(d, Save(st));
      ContinueAppliedKeeps(h, job, d1, st, env);
      KeepsCons(job, d, 1, Save(st), ContinueApplied(h, st, d.fixture, env).effects);
    } else {
      var tail := FinishSaved(failed, env, false).effects;
      FinishKeeps(h, job, d, 1, failed, env, false);
      KeepsCons(job, d, 1, TooBig(st), tail);
      assert [] + tail == tail;
    }
  }

  /** continue_job, from a saved record or (in `run`) before anything is saved. */
  lemma ContinueKeeps(h: Hash, job: JobState, d: Disk, n: nat, st: JobState, stopAfter: string, env: Env)
    requires IsJob(h, job) && Inv(job, d, n)
    requires SameJob(st, job) && st.writes <= n && (st.status == Proposed ==> st.writes == 0)
    requires st.status == Proposed || st.status == Applied
    requires d.record == Some(st) || (d.record == None && st.status == Proposed)
    ensures Keeps(job, d, n, ContinueJob(h, st, d.fixture, stopAfter, env).effects)
  {
    hide ContinueApplied, SaveApplied, Dump;
    var failed := st.(status := Failed);
    FinishKeeps(h, job, d, n, failed, env, false);
    if ReadAll(d.fixture, env.readNow).Some? {
      if st.status == Applied {
        ContinueAppliedKeeps(h, job, d, st, env);
      } else if n == 1 {
        SaveAppliedKeeps(h, job, d, st.(status := Applied), stopAfter, env);
      } else {
        assert h(d.fixture.value) == st.beforeHash && h(d.fixture.value) != st.afterHash;
        if env.writePatch {
          var d1 := Step(d, Write(job.patched));
          FinishKeeps(h, job, d1, 1, failed, env, false);
          KeepsCons(job, d, 0, Write(job.patched), FinishSaved(failed, env, false).effects);
          var applied := st.(status := Applied, writes := st.writes + 1);
          SaveAppliedKeeps(h, job, d1, applied, stopAfter, env);
          KeepsCons(job, d, 0, Write(job.patched), SaveApplied(h, applied, Some(job.patched), stopAfter, env).effects);
        }
      }
    }
  }

  lemma ResumeKeeps(h: Hash, job: JobState, d: Disk, n: nat, env: Env)
    requires IsJob(h, job) && Inv(job, d, n)
    ensures Keeps(job, d, n, Resume(h, d, env).effects)
  {
    hide ContinueJob;
    if env.load && d.record.Some? && !Terminal(d.record.value.status) {
      ContinueKeeps(h, job, d, n, d.record.value, "", env);
    }
  }

  lemma CancelKeeps(h: Hash, job: JobState, d: Disk, n: nat, env: Env)
    requires IsJob(h, job) && Inv(job, d, n)
    ensures Keeps(job, d, n, Cancel(h, d, env).effects)
  {
    hide Dump;
    if env.load && d.record.Some? && !Terminal(d.record.value.status) {
      var st := d.record.value;
      if st.status == Proposed {
        FinishKeeps(h, job, d, n, st.(status := Cancelled), env, false);
        assert Cancel(h, d, env).effects == FinishSaved(st.(status := Cancelled), env, false).effects;
      } else {
        var last := if Restores(h, st, env) then st.(status := Cancelled) else st.(status := Failed);
        var tail := FinishSaved(last, env, false).effects;
        if env.restoreWrite {
          FinishKeeps(h, job, Step(d, Write(job.original)), n, last, env, false);
          KeepsCons(job, d, n, Write(job.original), tail);
        } else {
          FinishKeeps(h, job, d, n, last, env, false);
          assert RestoreOriginal(st, env) + tail == tail;
        }
      }
    }
  }

  lemma CallKeeps(h: Hash, job: JobState, d: Disk, n: nat, calls: seq<Call>)
    requires IsJob(h, job) && Inv(job, d, n) && calls != [] && OneJob(d, calls)
    ensures Keeps(job, d, n, Whole(h, d, calls[0]).effects)
  {
    hide Resume, Cancel, Run;
    match calls[0]
    case Resuming(env, _) => ResumeKeeps(h, job, d, n, env);
    case Cancelling(env, _) => CancelKeeps(h, job, d, n, env);
    case Running(_, _, _) => OneJobOn(h, d, calls);
  }

  lemma {:induction false} SessionKeeps(h: Hash, job: JobState, d: Disk, n: nat, calls: seq<Call>)
    requires IsJob(h, job) && Inv(job, d, n) && OneJob(d, calls)
    ensures Keeps(job, d, n, Session(h, d, calls))
    decreases |calls|
  {
    hide Whole, OneJob;
    if calls != [] {
      var whole := Whole(h, d, calls[0]).effects;
      CallKeeps(h, job, d, n, calls);
      OneJobOn(h, d, calls);
      var es := Effects(h, d, calls[0]);
      KeepsAt(job, d, n, whole, |es|);
      assert es == whole[..|es|];
      SessionKeeps(h, job, After(d, es), n + Writes(es, job.patched), calls[1..]);
      KeepsAppend(job, d, n, es, Session(h, After(d, es), calls[1..]));
    }
  }

  // ----- at most one patched write, over every life of a job

  lemma {:induction false} ReplacedDiffers(text: string, at: nat, was: string, with: string)
    requires at + |was| <= |text| && text[at..at + |was|] == was && was != with
    ensures Replaced(text, at, was, with) != text
  {
    assert Replaced(text, at, was, with)[at..at + |with|] == with;
  }

  /** The request reaches `proposed`: its authorised edit applies to a readable fixture. */
  predicate Proposes(req: Request, d: Disk, env: Env) {
    && Admits(req, d, env) && req.authorized
    && ReadAll(d.fixture, env.readOriginal).Some? && Patch(req, d.fixture.value).Some?
  }

  ghost predicate HashTells(h: Hash, req: Request, original: string)
    requires Patch(req, original).Some?
  {
    Unmistakable(h, original) && Unmistakable(h, Patch(req, original).value)
  }

  lemma ProposedIsJob(h: Hash, req: Request, original: string)
    requires |original| <= MAX_BYTES && Patch(req, original).Some? && HashTells(h, req, original)
    ensures IsJob(h, ProposedState(h, req, original))
  {
    ReplacedDiffers(original, Find(original, req.oldText, 0), req.oldText, req.newText);
  }

  lemma RunKeeps(h: Hash, req: Request, d: Disk, env: Env)
    requires Proposes(req, d, env) && HashTells(h, req, d.fixture.value)
    ensures var job := ProposedState(h, req, d.fixture.value);
            IsJob(h, job) && Keeps(job, d, 0, Run(h, req, d, env).effects)
  {
    hide ContinueJob, Dump;
    ProposedIsJob(h, req, d.fixture.value);
    var job := ProposedState(h, req, d.fixture.value);
    if req.stopAfter == "proposed" {
      FinishKeeps(h, job, d, 0, job, env, true);
    } else {
      ContinueKeeps(h, job, d, 0, job, req.stopAfter, env);
    }
  }

  lemma LifeKeeps(h: Hash, req: Request, d: Disk, env: Env, crash: nat, calls: seq<Call>)
    requires Proposes(req, d, env) && HashTells(h, req, d.fixture.value)
    requires OneJobLife(h, req, d, env, crash, calls)
    ensures Keeps(ProposedState(h, req, d.fixture.value), d, 0, Life(h, req, d, env, crash, calls))
  {
    hide Run, Session, Inv;
    var job := ProposedState(h, req, d.fixture.value);
    RunKeeps(h, req, d, env);
    var whole := Run(h, req, d, env).effects;
    var es := Cut(whole, crash);
    KeepsAt(job, d, 0, whole, |es|);
    assert es == whole[..|es|];
    SessionKeeps(h, job, After(d, es), Writes(es, job.patched), calls);
    KeepsAppend(job, d, 0, es, Session(h, After(d, es), calls));
  }

  /**
   Between any two moments of a run of effects: the patch is written at most once, the saved count
   never exceeds the real one, and the record only moves forward (so it never returns to
   `proposed`, and a closed record never changes at all).
   */
  ghost predicate AtMostOnce(job: JobState, d: Disk, es: seq<Effect>, k: nat, m: nat)
    requires k <= m <= |es|
  {
    var now, later := After(d, es[..k]).record, After(d, es[..m]).record;
    && Writes(es, job.patched) <= 1
    && (now.Some? ==> now.value.writes <= Writes(es[..k], job.patched) <= 1)
    && Rank(now) <= Rank(later)
    && (now.Some? && Terminal(now.value.status) ==> later == now)
  }

  lemma KeepsMeansAtMostOnce(job: JobState, d: Disk, es: seq<Effect>, k: nat, m: nat)
    requires Keeps(job, d, 0, es) && k <= m <= |es|
    ensures AtMostOnce(job, d, es, k, m)
  {
    KeepsAt(job, d, 0, es, |es|);
    assert es[..|es|] == es;
    KeepsBetween(job, d, 0, es, k, m);
  }

  lemma AtMostOnePatch(h: Hash, req: Request, d: Disk, env: Env, crash: nat, calls: seq<Call>, k: nat, m: nat)
    requires Proposes(req, d, env) && HashTells(h, req, d.fixture.value)
    requires OneJobLife(h, req, d, env, crash, calls)
    requires k <= m <= |Life(h, req, d, env, crash, calls)|
    ensures AtMostOnce(ProposedState(h, req, d.fixture.value), d, Life(h, req, d, env, crash, calls), k, m)
  {
    hide Run, Life, Session, Keeps, AtMostOnce, HashTells, OneJobLife;
    LifeKeeps(h, req, d, env, crash, calls);
    KeepsMeansAtMostOnce(ProposedState(h, req, d.fixture.value), d, Life(h, req, d, env, crash, calls), k, m);
  }

  /** Two points of one run of effects. */
  lemma KeepsBetween(job: JobState, d: Disk, n: nat, es: seq<Effect>, k: nat, m: nat)
    requires Keeps(job, d, n, es) && k <= m <= |es|
    ensures var now, later := After(d, es[..k]), After(d, es[..m]);
            && Inv(job, now, n + Writes(es[..k], job.patched))
            && Rank(now.record) <= Rank(later.record)
            && (Rank(now.record) == Rank(later.record) ==> later.record == now.record)
            && Rank(later.record) <= 3
  {
    hide Inv;
    KeepsAt(job, d, n, es, k);
    KeepsTail(job, d, n, es, k);
    var mid := es[k..m];
    KeepsAt(job, After(d, es[..k]), n + Writes(es[..k], job.patched), es[k..], m - k);
    assert es[k..][..m - k] == mid && es[..m] == es[..k] + mid;
    AfterAppend(d, es[..k], mid);
  }

  lemma {:induction false} KeepsTail(job: JobState, d: Disk, n: nat, es: seq<Effect>, k: nat)
    requires Keeps(job, d, n, es) && k <= |es|
    ensures Keeps(job, After(d, es[..k]), n + Writes(es[..k], job.patched), es[k..])
    decreases k
  {
    if k > 0 {
      assert es[..k][0] == es[0] && es[..k][1..] == es[1..][..k - 1] && es[1..][k - 1..] == es[k..];
      KeepsTail(job, Step(d, es[0]), n + (if es[0] == Write(job.patched) then 1 else 0), es[1..], k - 1);
    } else {
      assert es[..k] == [] && es[k..] == es;
    }
  }

  /** A request that does not reach `proposed` never touches the fixture, in any life. */
  lemma {:induction false} RefusedTouchesNothing(
      h: Hash, req: Request, d: Disk, env: Env, crash: nat, calls: seq<Call>)
    requires d.record.None? && !Proposes(req, d, env) && OneJobLife(h, req, d, env, crash, calls)
    ensures forall e :: e in Life(h, req, d, env, crash, calls) ==> e.TooBig? || (e.Save? && Terminal(e.st.status))
  {
    hide Resume, Cancel, ContinueJob, Dump;
    var es := Cut(Run(h, req, d, env).effects, crash);
    if es == [] {
      IdleSession(h, After(d, es), calls);
    } else {
      assert |es| == 1 && (es[0].TooBig? || (es[0].Save? && Terminal(es[0].st.status)));
      assert es[1..] == [] && After(d, es) == Step(d, es[0]);
      IdleSession(h, After(d, es), calls);
    }
  }

  /** With no record, or a closed one, no call does anything at all. */
  lemma {:induction false} IdleSession(h: Hash, d: Disk, calls: seq<Call>)
    requires d.record.None? || Terminal(d.record.value.status)
    requires OneJob(d, calls)
    ensures Session(h, d, calls) == []
    decreases |calls|
  {
    if calls != [] {
      OneJobOn(h, d, calls);
      IdleSession(h, d, calls[1..]);
    }
  }

  // ----- outcomes tell the truth

  /** The record saved at position i is justified by the effects right before it. */
  predicate Justified(job: JobState, es: seq<Effect>, i: nat)
    requires i < |es|
  {
    es[i].Save? ==>
      && (es[i].st.status == Verified ==>
            i >= 1 && es[i - 1] == Verify(Some(job.patched)) && es[i].st.verifierExit == 0)
      && (es[i].st.status == RolledBack ==>
            i >= 2 && es[i - 1] == Write(job.original) && es[i - 2].Verify?)
  }

  ghost predicate Told(job: JobState, es: seq<Effect>) {
    forall i :: 0 <= i < |es| ==> Justified(job, es, i)
  }

  lemma ToldAppend(job: JobState, a: seq<Effect>, b: seq<Effect>)
    requires Told(job, a) && Told(job, b)
    ensures Told(job, a + b)
  {
    forall i | 0 <= i < |a + b|
      ensures Justified(job, a + b, i)
    {
      if i < |a| {
        assert Justified(job, a, i);
      } else {
        assert Justified(job, b, i - |a|);
      }
    }
  }

  lemma ToldCut(job: JobState, es: seq<Effect>, crash: nat)
    requires Told(job, es)
    ensures Told(job, Cut(es, crash))
  {
    forall i | 0 <= i < |Cut(es, crash)|
      ensures Justified(job, Cut(es, crash), i)
    {
      assert Justified(job, es, i);
    }
  }

  lemma FinishTold(job: JobState, st: JobState, env: Env, paused: bool)
    requires st.status !in {Verified, RolledBack}
    ensures Told(job, FinishSaved(st, env, paused).effects)
  {
    hide Dump;
  }

  lemma CloseTold(h: Hash, job: JobState, st: JobState, env: Env)
    requires IsJob(h, job) && SameJob(st, job)
    ensures Told(job, VerifyAndClose(h, st, env).effects)
  {
    hide Dump;
  }

  lemma ContinueAppliedTold(h: Hash, job: JobState, st: JobState, fixture: Option<string>, env: Env)
    requires IsJob(h, job) && SameJob(st, job)
    ensures Told(job, ContinueApplied(h, st, fixture, env).effects)
  {
    hide VerifyAndClose, FinishSaved;
    CloseTold(h, job, st, env);
    FinishTold(job, st.(status := Failed), env, false);
  }

  lemma SaveAppliedTold(h: Hash, job: JobState, st: JobState, fixture: Option<string>, stopAfter: string, env: Env)
    requires IsJob(h, job) && SameJob(st, job) && st.status == Applied
    ensures Told(job, SaveApplied(h, st, fixture, stopAfter, env).effects)
  {
    hide ContinueApplied, FinishSaved, Dump;
    FinishTold(job, st, env, true);
    FinishTold(job, st.(status := Failed), env, false);
    ContinueAppliedTold(h, job, st, fixture, env);
    ToldAppend(job, SaveTry(st, env.saveApplied), ContinueApplied(h, st, fixture, env).effects);
    ToldAppend(job, SaveTry(st, env.saveApplied), FinishSaved(st.(status := Failed), env, false).effects);
  }

  lemma ContinueTold(h: Hash, job: JobState, st: JobState, fixture: Option<string>, stopAfter: string, env: Env)
    requires IsJob(h, job) && SameJob(st, job)
    ensures Told(job, ContinueJob(h, st, fixture, stopAfter, env).effects)
  {
    hide ContinueApplied, SaveApplied, FinishSaved;
    var failed := FinishSaved(st.(status := Failed), env, false).effects;
    var applied := st.(status := Applied, writes := st.writes + 1);
    FinishTold(job, st.(status := Failed), env, false);
    ToldAppend(job, [Write(st.patched)], failed);
    ContinueAppliedTold(h, job, st, fixture, env);
    SaveAppliedTold(h, job, st.(status := Applied), fixture, stopAfter, env);
    SaveAppliedTold(h, job, applied, Some(st.patched), stopAfter, env);
    ToldAppend(job, [Write(st.patched)], SaveApplied(h, applied, Some(st.patched), stopAfter, env).effects);
  }

  lemma ResumeTold(h: Hash, job: JobState, d: Disk, env: Env)
    requires IsJob(h, job) && (d.record.Some? ==> SameJob(d.record.value, job))
    ensures Told(job, Resume(h, d, env).effects)
  {
    hide ContinueJob, FinishSaved;
    if d.record.Some? {
      ContinueTold(h, job, d.record.value, d.fixture, "", env);
      FinishTold(job, d.record.value.(status := Failed), env, false);
    }
  }

  lemma CancelTold(h: Hash, job: JobState, d: Disk, env: Env)
    requires IsJob(h, job) && (d.record.Some? ==> SameJob(d.record.value, job))
    ensures Told(job, Cancel(h, d, env).effects)
  {
    hide FinishSaved;
    if d.record.Some? {
      var st := d.record.value;
      FinishTold(job, st.(status := Failed), env, false);
      FinishTold(job, st.(status := Cancelled), env, false);
      ToldAppend(job, RestoreOriginal(st, env), FinishSaved(st.(status := Failed), env, false).effects);
      ToldAppend(job, RestoreOriginal(st, env), FinishSaved(st.(status := Cancelled), env, false).effects);
      ToldAppend(job, [], FinishSaved(st.(status := Cancelled), env, false).effects);
    }
  }

  lemma {:induction false} SessionTold(h: Hash, job: JobState, d: Disk, n: nat, calls: seq<Call>)
    requires IsJob(h, job) && Inv(job, d, n) && OneJob(d, calls)
    ensures Told(job, Session(h, d, calls))
    decreases |calls|
  {
    hide Resume, Cancel, Run, OneJob;
    if calls != [] {
      var c := calls[0];
      var whole := Whole(h, d, c).effects;
      CallKeeps(h, job, d, n, calls);
      OneJobOn(h, d, calls);
      match c {
        case Resuming(env, _) => ResumeTold(h, job, d, env);
        case Cancelling(env, _) => CancelTold(h, job, d, env);
        case Running(_, _, _) =>
      }
      var es := Effects(h, d, c);
      ToldCut(job, whole, c.crash);
      KeepsAt(job, d, n, whole, |es|);
      assert es == whole[..|es|];
      SessionTold(h, job, After(d, es), n + Writes(es, job.patched), calls[1..]);
      ToldAppend(job, es, Session(h, After(d, es), calls[1..]));
    }
  }

  /**
   Over a whole life with crashes. Every saved `verified` comes right after a verifier run that
   exited 0 and left exactly the patched text; every saved `rolled_back` right after the original
   was put back behind a verifier run. At every moment, a verified record stands beside the
   patched fixture, a rolled back one beside the original.
   */
  lemma OutcomesTellTheTruth(h: Hash, req: Request, d: Disk, env: Env, crash: nat, calls: seq<Call>, k: nat)
    requires Proposes(req, d, env) && HashTells(h, req, d.fixture.value)
    requires OneJobLife(h, req, d, env, crash, calls)
    requires k <= |Life(h, req, d, env, crash, calls)|
    ensures var job := ProposedState(h, req, d.fixture.value);
            var es := Life(h, req, d, env, crash, calls);
            var now := After(d, es[..k]);
            && Told(job, es)
            && (now.record.Some? && now.record.value.status == Verified ==> now.fixture == Some(job.patched))
            && (now.record.Some? && now.record.value.status == RolledBack ==> now.fixture == Some(job.original))
  {
    hide Run, Session;
    var job := ProposedState(h, req, d.fixture.value);
    LifeKeeps(h, req, d, env, crash, calls);
    KeepsAt(job, d, 0, Life(h, req, d, env, crash, calls), k);
    var whole := Run(h, req, d, env).effects;
    var es := Cut(whole, crash);
    RunKeeps(h, req, d, env);
    RunTold(h, req, d, env);
    ToldCut(job, whole, crash);
    KeepsAt(job, d, 0, whole, |es|);
    assert es == whole[..|es|];
    SessionTold(h, job, After(d, es), Writes(es, job.patched), calls);
    ToldAppend(job, es, Session(h, After(d, es), calls));
  }

  lemma RunTold(h: Hash, req: Request, d: Disk, env: Env)
    requires Proposes(req, d, env) && HashTells(h, req, d.fixture.value)
    ensures Told(ProposedState(h, req, d.fixture.value), Run(h, req, d, env).effects)
  {
    hide ContinueJob, FinishSaved;
    var job := ProposedState(h, req, d.fixture.value);
    ProposedIsJob(h, req, d.fixture.value);
    FinishTold(job, job, env, true);
    ContinueTold(h, job, job, d.fixture, req.stopAfter, env);
  }

  // ----- lives without crashes and without failing saves

  predicate CleanEnv(env: Env) { env.saveApplied && env.saveEnd }

  /** No call has more effects than these, so a cut after them is no crash. */
  const MOST: nat := 5

  predicate Clean(c: Call) { c.crash >= MOST && CleanEnv(c.env) }

  /** What a clean life keeps: every job that ended without success has its original bytes back. */
  ghost predicate CleanInv(job: JobState, d: Disk) {
    && d.record.Some?
    && SameJob(d.record.value, job) && Sized(d.record.value)
    && match d.record.value.status
       case Proposed => d.fixture == Some(job.original) && d.record.value.writes == 0
       case Cancelled => d.fixture == Some(job.original)
       case RolledBack => d.fixture == Some(job.original)
       case Denied => false
       case _ => true
  }

  lemma AfterCons(d: Disk, e: Effect, es: seq<Effect>)
    ensures After(d, [e] + es) == After(Step(d, e), es)
    ensures After(d, [e]) == Step(d, e)
  {
    assert ([e] + es)[1..] == es && [e][1..] == [];
  }

  /** A record with bounded fields is saved whenever the write succeeds. */
  lemma FinishClean(job: JobState, d: Disk, st: JobState, env: Env, paused: bool)
    requires CleanEnv(env) && Sized(st)
    ensures var es := FinishSaved(st, env, paused).effects; |es| == 1 && After(d, es) == d.(record := Some(st))
  {
    hide Dump;
    SizedFits(st);
    AfterCons(d, Save(st), []);
    assert SaveTry(st, env.saveEnd) == [Save(st)];
  }

  lemma CloseClean(h: Hash, job: JobState, d: Disk, st: JobState, env: Env)
    requires IsJob(h, job) && SameJob(st, job) && Sized(st) && CleanEnv(env)
    ensures var es := VerifyAndClose(h, st, env).effects; |es| <= 3 && CleanInv(job, After(d, es))
  {
    hide Dump, FinishSaved;
    var st1 := st.(verifierExit := env.exit);
    var d1 := Step(d, Verify(env.left));
    var last :=
      if env.exit == 0 && ReadsAs(h, env.left, env.readAfter, st1.afterHash) then st1.(status := Verified)
      else if Restores(h, st1, env) then st1.(status := RolledBack) else st1.(status := Failed);
    LessonStaysSized(last);
    var closed := if last.status == Failed then last else WithLesson(last);
    FinishClean(job, d1, closed, env, false);
    FinishClean(job, Step(d1, Write(job.original)), closed, env, false);
    var tail := FinishSaved(closed, env, false).effects;
    AfterCons(d, Verify(env.left), tail);
    AfterCons(d1, Write(job.original), tail);
    AfterCons(d, Verify(env.left), [Write(job.original)] + tail);
    assert [Verify(env.left), Write(job.original)] + tail == [Verify(env.left)] + ([Write(job.original)] + tail);
    assert RestoreOriginal(st1, env) == (if env.restoreWrite then [Write(job.original)] else []);
    assert [Verify(env.left)] + [] == [Verify(env.left)];
    assert [Verify(env.left)] + [Write(job.original)] == [Verify(env.left), Write(job.original)];
  }

  lemma ContinueAppliedClean(h: Hash, job: JobState, d: Disk, st: JobState, env: Env)
    requires IsJob(h, job) && SameJob(st, job) && Sized(st) && CleanEnv(env)
    ensures var es := ContinueApplied(h, st, d.fixture, env).effects; |es| <= 3 && CleanInv(job, After(d, es))
  {
    hide VerifyAndClose, FinishSaved;
    FinishClean(job, d, st.(status := Failed), env, false);
    CloseClean(h, job, d, st, env);
  }

  lemma SaveAppliedClean(h: Hash, job: JobState, d: Disk, st: JobState, stopAfter: string, env: Env)
    requires IsJob(h, job) && SameJob(st, job) && Sized(st) && st.status == Applied && CleanEnv(env)
    ensures var es := SaveApplied(h, st, d.fixture, stopAfter, env).effects; |es| <= 4 && CleanInv(job, After(d, es))
  {
    hide ContinueApplied, FinishSaved, Dump;
    FinishClean(job, d, st, env, true);
    SizedFits(st);
    var d1 := Step(d, Save(st));
    ContinueAppliedClean(h, job, d1, st, env);
    AfterCons(d, Save(st), ContinueApplied(h, st, d.fixture, env).effects);
  }

  lemma ContinueClean(h: Hash, job: JobState, d: Disk, st: JobState, stopAfter: string, env: Env)
    requires IsJob(h, job) && SameJob(st, job) && Sized(st) && CleanEnv(env)
    requires st.status == Proposed || st.status == Applied
    requires st.status == Proposed ==> d.fixture == Some(job.original) && st.writes == 0
    ensures var es := ContinueJob(h, st, d.fixture, stopAfter, env).effects; |es| <= MOST && CleanInv(job, After(d, es))
  {
    hide ContinueApplied, SaveApplied, FinishSaved, Dump;
    var failed := st.(status := Failed);
    var d1 := Step(d, Write(job.patched));
    FinishClean(job, d, failed, env, false);
    FinishClean(job, d1, failed, env, false);
    AfterCons(d, Write(job.patched), FinishSaved(failed, env, false).effects);
    if st.status == Applied {
      ContinueAppliedClean(h, job, d, st, env);
    } else {
      assert h(job.original) != h(job.patched);
      var applied := st.(status := Applied, writes := st.writes + 1);
      SaveAppliedClean(h, job, d1, applied, stopAfter, env);
      AfterCons(d, Write(job.patched), SaveApplied(h, applied, Some(job.patched), stopAfter, env).effects);
    }
  }

  lemma CancelClean(h: Hash, job: JobState, d: Disk, env: Env)
    requires IsJob(h, job) && CleanInv(job, d) && CleanEnv(env)
    ensures var es := Cancel(h, d, env).effects; |es| <= MOST && CleanInv(job, After(d, es))
  {
    hide FinishSaved, Dump, Restores, SaveTry;
    var st := d.record.value;
    var left := st.status == Applied && !Restores(h, st, env);
    var last := if left then st.(status := Failed) else st.(status := Cancelled);
    var tail := FinishSaved(last, env, false).effects;
    FinishClean(job, d, last, env, false);
    FinishClean(job, Step(d, Write(job.original)), last, env, false);
    AfterCons(d, Write(job.original), tail);
    assert [] + tail == tail;
    RestoreWrites(h, st, env);
  }

  lemma RestoreWrites(h: Hash, st: JobState, env: Env)
    ensures Restores(h, st, env) ==> env.restoreWrite
  {}

  lemma CallClean(h: Hash, job: JobState, d: Disk, c: Call)
    requires IsJob(h, job) && CleanInv(job, d) && Clean(c)
    ensures Effects(h, d, c) == Whole(h, d, c).effects && CleanInv(job, After(d, Effects(h, d, c)))
  {
    hide ContinueJob, FinishSaved, Dump, Cancel;
    match c
    case Resuming(env, _) =>
      ContinueFromRecord(h, job, d, env);
    case Cancelling(env, _) =>
      CancelClean(h, job, d, env);
    case Running(_, _, _) =>
  }

  lemma ContinueFromRecord(h: Hash, job: JobState, d: Disk, env: Env)
    requires IsJob(h, job) && CleanInv(job, d) && CleanEnv(env)
    ensures var es := Resume(h, d, env).effects; |es| <= MOST && CleanInv(job, After(d, es))
  {
    hide ContinueJob, FinishSaved;
    var st := d.record.value;
    if !Terminal(st.status) { ContinueClean(h, job, d, st, "", env); }
  }

  lemma {:induction false} SessionClean(h: Hash, job: JobState, d: Disk, calls: seq<Call>)
    requires IsJob(h, job) && CleanInv(job, d)
    requires forall c :: c in calls ==> Clean(c)
    ensures CleanInv(job, After(d, Session(h, d, calls)))
    decreases |calls|
  {
    hide Resume, Cancel, CleanInv;
    if calls != [] {
      CallClean(h, job, d, calls[0]);
      var es := Effects(h, d, calls[0]);
      SessionClean(h, job, After(d, es), calls[1..]);
      AfterAppend(d, es, Session(h, After(d, es), calls[1..]));
    }
  }

  /** The record `run` proposes has bounded fields, so it and every later state fit the state file. */
  lemma ProposedIsSized(h: Hash, req: Request, original: string)
    requires forall s :: |h(s)| == 64
    requires SingleSegment(req.fileName) && SingleSegment(req.verifierName)
    requires |original| <= MAX_BYTES && Patch(req, original).Some?
    ensures Sized(ProposedState(h, req, original))
  {
    var at := Find(original, req.oldText, 0);
    assert |Replaced(original, at, req.oldText, req.newText)| == |original| - |req.oldText| + |req.newText|;
  }

  /** A life with no crash and no failing save: a job that ends `cancelled` or `rolled_back` has its original bytes. */
  lemma CleanLifeRestores(h: Hash, req: Request, d: Disk, env: Env, crash: nat, calls: seq<Call>)
    requires forall s :: |h(s)| == 64
    requires Proposes(req, d, env) && HashTells(h, req, d.fixture.value)
    requires crash >= MOST && CleanEnv(env) && forall c :: c in calls ==> Clean(c)
    ensures var end := After(d, Life(h, req, d, env, crash, calls));
            && end.record.Some?
            && (end.record.value.status in {Cancelled, RolledBack} ==> end.fixture == d.fixture)
  {
    hide ContinueJob, FinishSaved, Dump, Session;
    var job := ProposedState(h, req, d.fixture.value);
    ProposedIsJob(h, req, d.fixture.value);
    ProposedIsSized(h, req, d.fixture.value);
    FinishClean(job, d, job, env, true);
    ContinueClean(h, job, d, job, req.stopAfter, env);
    var es := Cut(Run(h, req, d, env).effects, crash);
    SessionClean(h, job, After(d, es), calls);
    AfterAppend(d, es, Session(h, After(d, es), calls));
  }

  // ----- where the promise of original bytes ends

  /** `cancel` of a saved `proposed` job never restores: with the save succeeding, only the record changes. */
  lemma CancelOfProposed(h: Hash, d: Disk, env: Env)
    requires d.record.Some? && d.record.value.status == Proposed && Sized(d.record.value)
    requires env.load && CleanEnv(env)
    ensures After(d, Cancel(h, d, env).effects) == d.(record := Some(d.record.value.(status := Cancelled)))
  {
    hide Dump, FinishSaved, Restores;
    var last := d.record.value.(status := Cancelled);
    FinishClean(last, d, last, env, false);
    var es := FinishSaved(last, env, false).effects;
    assert [] + es == es;
  }

  /** And such a moment is reached: a crash right after the patch is written, then `cancel`. */
  lemma CancelAfterCrashKeepsPatch(h: Hash, req: Request, d: Disk, env: Env)
    requires forall s :: |h(s)| == 64
    requires Proposes(req, d, env) && HashTells(h, req, d.fixture.value) && req.stopAfter == "proposed"
    requires env.load && env.readNow && env.writePatch && CleanEnv(env)
    ensures var job := ProposedState(h, req, d.fixture.value);
            var end := After(d, Life(h, req, d, env, MOST, [Resuming(env, 1), Cancelling(env, MOST)]));
            end.record == Some(job.(status := Cancelled)) && end.fixture == Some(job.patched)
            && end.fixture != d.fixture
  {
    hide Dump, SaveApplied, FinishSaved, Cancel;
    var job := ProposedState(h, req, d.fixture.value);
    ProposedIsJob(h, req, d.fixture.value);
    ProposedIsSized(h, req, d.fixture.value);
    FinishClean(job, d, job, env, true);
    var d1 := d.(record := Some(job));
    assert h(job.original) != h(job.patched);
    var calls := [Resuming(env, 1), Cancelling(env, MOST)];
    var crashed := Effects(h, d1, calls[0]);
    assert crashed == [Write(job.patched)];
    AfterCons(d1, Write(job.patched), []);
    var d2 := d1.(fixture := Some(job.patched));
    CancelOfProposed(h, d2, env);
    CancelIsShort(h, d2, env);
    var cancelled := Effects(h, d2, calls[1]);
    assert calls[1..][1..] == [] && calls[1..][0] == calls[1];
    assert Session(h, d2, calls[1..]) == cancelled + [] == cancelled;
    assert Session(h, d1, calls) == crashed + cancelled;
    AfterAppend(d1, crashed, cancelled);
    AfterAppend(d, Cut(Run(h, req, d, env).effects, MOST), Session(h, d1, calls));
  }

  lemma CancelIsShort(h: Hash, d: Disk, env: Env)
    ensures |Cancel(h, d, env).effects| <= 2
  {
    hide Dump;
  }

  /** A crash can leave the patch in the fixture with no record beside it. */
  ghost predicate CanOrphan(h: Hash, req: Request, d: Disk, env: Env) {
    exists crash: nat :: var end := After(d, Cut(Run(h, req, d, env).effects, crash));
      end.record.None? && end.fixture != d.fixture
  }

  lemma FinishOrphansNone(d: Disk, st: JobState, env: Env, paused: bool, crash: nat)
    ensures After(d, Cut(FinishSaved(st, env, paused).effects, crash)).fixture == d.fixture
  {
    hide Dump;
    var es := SaveTry(st, env.saveEnd);
    AfterCons(d, Save(st), []);
    AfterCons(d, TooBig(st), []);
    assert Cut(es, crash) == [] || Cut(es, crash) == es;
  }

  /**
   `run` writes the fixture before it saves anything unless it was told to stop at `proposed`: a
   crash can orphan the patch exactly then, if it can read the fixture again and write it.
   */
  lemma OrphanIff(h: Hash, req: Request, d: Disk, env: Env)
    requires Proposes(req, d, env) && HashTells(h, req, d.fixture.value)
    ensures CanOrphan(h, req, d, env) <==> req.stopAfter != "proposed" && env.readNow && env.writePatch
  {
    hide SaveApplied, FinishSaved;
    var job := ProposedState(h, req, d.fixture.value);
    ProposedIsJob(h, req, d.fixture.value);
    var es := Run(h, req, d, env).effects;
    assert h(job.original) != h(job.patched);
    if req.stopAfter != "proposed" && env.readNow && env.writePatch {
      assert es != [] && es[0] == Write(job.patched);
      AfterCons(d, Write(job.patched), []);
      assert Cut(es, 1) == [Write(job.patched)];
      var end := After(d, Cut(es, 1));
      assert end.record.None? && end.fixture != d.fixture;
    } else {
      var paused := req.stopAfter == "proposed";
      var last := if paused then job else job.(status := Failed);
      forall crash: nat ensures After(d, Cut(es, crash)).fixture == d.fixture {
        FinishOrphansNone(d, last, env, paused, crash);
      }
    }
  }

  /** A reported success ends with the record that says so reaching the disk. */
  predicate Backed(r: Result) {
    r.ok ==>
      && r.effects != [] && r.effects[|r.effects| - 1].Save?
      && r.effects[|r.effects| - 1].st.status == r.status
      && r.status in {Proposed, Applied, Verified}
  }

  lemma FinishBacked(st: JobState, env: Env, paused: bool)
    requires paused ==> st.status in {Proposed, Applied, Verified}
    ensures Backed(FinishSaved(st, env, paused))
  {
    hide Dump;
  }

  lemma ThenBacked(es: seq<Effect>, r: Result)
    requires Backed(r)
    ensures Backed(Then(es, r))
  {}

  lemma ContinueAppliedBacked(h: Hash, st: JobState, fixture: Option<string>, env: Env)
    ensures Backed(ContinueApplied(h, st, fixture, env))
  {
    hide FinishSaved, WithLesson, Backed, Then;
    var st1 := st.(verifierExit := env.exit);
    FinishBacked(st.(status := Failed), env, false);
    FinishBacked(st1.(status := Failed), env, false);
    FinishBacked(WithLesson(st1.(status := Verified)), env, false);
    FinishBacked(WithLesson(st1.(status := RolledBack)), env, false);
    ThenBacked([Verify(env.left)], FinishSaved(WithLesson(st1.(status := Verified)), env, false));
    var restore := [Verify(env.left)] + RestoreOriginal(st1, env);
    ThenBacked(restore, FinishSaved(WithLesson(st1.(status := RolledBack)), env, false));
    ThenBacked(restore, FinishSaved(st1.(status := Failed), env, false));
  }

  lemma SaveAppliedBacked(h: Hash, st: JobState, fixture: Option<string>, stopAfter: string, env: Env)
    requires st.status == Applied
    ensures Backed(SaveApplied(h, st, fixture, stopAfter, env))
  {
    hide FinishSaved, ContinueApplied, Backed, Then, Dump;
    FinishBacked(st, env, true);
    FinishBacked(st.(status := Failed), env, false);
    ContinueAppliedBacked(h, st, fixture, env);
    ThenBacked(SaveTry(st, env.saveApplied), ContinueApplied(h, st, fixture, env));
    ThenBacked(SaveTry(st, env.saveApplied), FinishSaved(st.(status := Failed), env, false));
  }

  lemma ContinueBacked(h: Hash, st: JobState, fixture: Option<string>, stopAfter: string, env: Env)
    ensures Backed(ContinueJob(h, st, fixture, stopAfter, env))
  {
    hide FinishSaved, ContinueApplied, SaveApplied, Backed, Then;
    var failed := FinishSaved(st.(status := Failed), env, false);
    var applied := st.(status := Applied, writes := st.writes + 1);
    FinishBacked(st.(status := Failed), env, false);
    ContinueAppliedBacked(h, st, fixture, env);
    SaveAppliedBacked(h, st.(status := Applied), fixture, stopAfter, env);
    SaveAppliedBacked(h, applied, Some(st.patched), stopAfter, env);
    ThenBacked([Write(st.patched)], failed);
    ThenBacked([Write(st.patched)], SaveApplied(h, applied, Some(st.patched), stopAfter, env));
  }

  /** `ok` from `run` or `resume` is never only in memory: the saved record says the same. */
  lemma OkIsOnDisk(h: Hash, req: Request, d: Disk, env: Env)
    ensures Backed(Run(h, req, d, env))
    ensures var r := Resume(h, d, env); r.ok && r.effects == [] ==> d.record.Some? && d.record.value.status == Verified
    ensures var r := Resume(h, d, env); r.effects != [] ==> Backed(r)
  {
    hide ContinueJob;
    RunBacked(h, req, d, env);
    if env.load && d.record.Some? {
      ContinueBacked(h, d.record.value, d.fixture, "", env);
      FinishBacked(d.record.value.(status := Failed), env, false);
    }
  }

  lemma RunBacked(h: Hash, req: Request, d: Disk, env: Env)
    ensures Backed(Run(h, req, d, env))
  {
    hide ContinueJob, FinishSaved;
    if ReadAll(d.fixture, env.readOriginal).Some? {
      var original := d.fixture.value;
      FinishBacked(Opened(h, req, original).(status := Denied), env, false);
      FinishBacked(FailedState(h, req, original), env, false);
      if Patch(req, original).Some? {
        var job := ProposedState(h, req, original);
        FinishBacked(job, env, true);
        ContinueBacked(h, job, d.fixture, req.stopAfter, env);
      }
    }
  }

  /** The names save_state writes under. */
  const RECORD := "jarvis-job.json"

  /**
   Every file replacement goes through `<name>.tmp`. For an admitted fixture name, the files the
   record touches and the files the fixture touches are disjoint except for one name.
   */
  lemma FilesAreDisjointIff(name: string)
    requires SingleSegment(name)
    ensures {RECORD, RECORD + ".tmp"} !! {name, name + ".tmp"} <==> name != RECORD + ".tmp"
  {
    assert RECORD[|RECORD| - 1] != (name + ".tmp")[|name| + 3];
    assert name == (name + ".tmp")[..|name|] && RECORD == (RECORD + ".tmp")[..|RECORD|];
    if name == RECORD + ".tmp" {
      assert name in {RECORD, RECORD + ".tmp"} * {name, name + ".tmp"};
    }
  }
}
