/**
 The image service's job protocol (qwen_image_server.py): one non-blocking generate lock, a
 table of at most eight jobs in order of insertion, and a thread per request. Every step below is
 one atomic action on the shared state; any thread may take the next step.
 */
module ImageServer {
  import opened Text

  const MAX_JOBS: nat := 8

  datatype JobStatus = Running | Done | Failed

  datatype Entry = Entry(id: string, status: JobStatus, note: string)

  // ----- the job table, an insertion-ordered dictionary

  function Index(jobs: seq<Entry>, id: string): (k: int)
    ensures k == -1 ==> forall i :: 0 <= i < |jobs| ==> jobs[i].id != id
    ensures k != -1 ==> 0 <= k < |jobs| && jobs[k].id == id
  {
    if jobs == [] then -1
    else if jobs[|jobs| - 1].id == id then |jobs| - 1
    else Index(jobs[..|jobs| - 1], id)
  }

  /** A new running job at the end; a full table first drops its oldest entry. */
  function Registered(jobs: seq<Entry>, id: string): seq<Entry> {
    (if |jobs| >= MAX_JOBS then jobs[1..] else jobs) + [Entry(id, Running, "")]
  }

  function Updated(jobs: seq<Entry>, id: string, status: JobStatus, note: string): seq<Entry> {
    var k := Index(jobs, id);
    if k == -1 then jobs else jobs[k := Entry(id, status, note)]
  }

  // ----- one request, as it runs

  datatype Reply = Accepted | Busy | Conflict | Image | Error | NoJob | Broken

  datatype Pc =
    | Arrived              // about to try the lock
    | Holding              // lock taken, about to look at the table
    | Duplicate            // id already there, about to release
    | Launching            // registered, about to start its worker
    | StartFailed          // the thread did not start
    | StartFailedMarked    // job marked failed, about to release
    | Working              // run_generation
    | Closing(lost: bool)  // outcome written (or its entry missing), about to release
    | Replying             // a synchronous request about to read its job back
    | Finished(reply: Reply)

  /** `reg` is the number of its registration, `success` the outcome its worker wrote. */
  datatype Flight = Flight(id: string, async: bool, pc: Pc, reg: nat, success: bool, acquired: nat, released: nat)

  /** What the threads share: the lock, the table, every registration so far, and whether a release ever raised. */
  datatype Shared = Shared(locked: bool, jobs: seq<Entry>, history: seq<string>, badRelease: bool)

  datatype State = State(flights: seq<Flight>, m: Shared)

  datatype Action = Arrive(id: string, async: bool) | Act(t: nat, ok: bool, note: string)

  const INITIAL := State([], Shared(false, [], [], false))

  /** GENERATE_LOCK.release(), which raises when the lock is free. */
  function Release(m: Shared, f: Flight, next: Pc): (Shared, Flight) {
    (m.(locked := false, badRelease := m.badRelease || !m.locked), f.(pc := next, released := f.released + 1))
  }

  /** The next atomic action of one request; `ok` and `note` are what the world answers. */
  function Turn(m: Shared, f: Flight, ok: bool, note: string): (Shared, Flight) {
    match f.pc
    case Arrived =>
      if m.locked then (m, f.(pc := Finished(Busy)))
      else (m.(locked := true), f.(pc := Holding, acquired := f.acquired + 1))
    case Holding =>
      if Index(m.jobs, f.id) != -1 then (m, f.(pc := Duplicate))
      else (m.(jobs := Registered(m.jobs, f.id), history := m.history + [f.id]),
            f.(pc := Launching, reg := |m.history|))
    case Duplicate => Release(m, f, Finished(Conflict))
    case Launching => (m, f.(pc := if f.async && !ok then StartFailed else Working))
    case StartFailed =>
      if Index(m.jobs, f.id) == -1 then (m, f.(pc := Finished(Broken)))
      else (m.(jobs := Updated(m.jobs, f.id, Failed, note)), f.(pc := StartFailedMarked))
    case StartFailedMarked => Release(m, f, Finished(Error))
    case Working =>
      if Index(m.jobs, f.id) == -1 then (m, f.(pc := Closing(true)))
      else
        var status := if ok then Done else Failed;
        (m.(jobs := Updated(m.jobs, f.id, status, note)), f.(pc := Closing(false), success := ok))
    case Closing(lost) =>
      Release(m, f, if f.async then Finished(Accepted) else if lost then Finished(Broken) else Replying)
    case Replying =>
      var k := Index(m.jobs, f.id);
      (m, f.(pc := Finished(if k == -1 then NoJob else if m.jobs[k].status == Done then Image else Error)))
    case Finished(_) => (m, f)
  }

  function Step(s: State, a: Action): State {
    match a
    case Arrive(id, async) => s.(flights := s.flights + [Flight(id, async, Arrived, 0, false, 0, 0)])
    case Act(t, ok, note) =>
      if t < |s.flights| then
        var (m, f) := Turn(s.m, s.flights[t], ok, note);
        State(s.flights[t := f], m)
      else s
  }

  function Exec(s: State, actions: seq<Action>): State
    decreases |actions|
  {
    if actions == [] then s else Exec(Step(s, actions[0]), actions[1..])
  }

  // ----- the invariant

  predicate Holds(pc: Pc) {
    || pc.Holding? || pc.Duplicate? || pc.Launching? || pc.StartFailed? || pc.StartFailedMarked?
    || pc.Working? || pc.Closing?
  }

  /** The registered job of this request has no outcome yet. */
  predicate Open(pc: Pc) { pc.Launching? || pc.StartFailed? || pc.Working? }

  predicate Outcome(pc: Pc) { pc.Closing? || pc.Replying? }

  /** Where registration number `reg` stands in the table. */
  function Slot(m: Shared, reg: nat): int { reg - (|m.history| - |m.jobs|) }

  /** What a request knows about the shared state at each point of its run. */
  predicate FlightOk(m: Shared, f: Flight) {
    && f.acquired == (if f.pc.Arrived? || f.pc == Finished(Busy) then 0 else 1)
    && f.released == (if f.pc.Replying? || (f.pc.Finished? && f.pc.reply != Busy) then 1 else 0)
    && f.pc != Closing(true) && f.pc != Finished(Broken)
    && (Holds(f.pc) ==> m.locked)
    && (Open(f.pc) ==>
          && |m.jobs| > 0 && f.reg == |m.history| - 1
          && m.jobs[|m.jobs| - 1].id == f.id && m.jobs[|m.jobs| - 1].status == Running)
    && (Outcome(f.pc) ==>
          && f.reg < |m.history| && m.history[f.reg] == f.id
          && (Slot(m, f.reg) >= 0 ==> m.jobs[Slot(m, f.reg)].status == if f.success then Done else Failed))
  }

  function Ids(jobs: seq<Entry>): seq<string> { seq(|jobs|, i requires 0 <= i < |jobs| => jobs[i].id) }

  ghost predicate Distinct(ids: seq<string>) { forall i, j :: 0 <= i < j < |ids| ==> ids[i] != ids[j] }

  function LastEight(history: seq<string>): seq<string> {
    history[|history| - Min(MAX_JOBS, |history|)..]
  }

  /** The table is the last registrations, at most eight of them, each id once. */
  ghost predicate TableOk(jobs: seq<Entry>, history: seq<string>) {
    Ids(jobs) == LastEight(history) && Distinct(LastEight(history))
  }

  predicate Holder(s: State, t: nat) { t < |s.flights| && Holds(s.flights[t].pc) }

  ghost predicate Inv(s: State) {
    && !s.m.badRelease && TableOk(s.m.jobs, s.m.history)
    && (forall t :: 0 <= t < |s.flights| ==> FlightOk(s.m, s.flights[t]))
    && (forall t: nat, u: nat :: Holder(s, t) && Holder(s, u) ==> t == u)
    && (s.m.locked ==> exists t: nat :: Holder(s, t))
    && OnlyLastRuns(s.m.jobs)
    && (|s.m.jobs| > 0 && s.m.jobs[|s.m.jobs| - 1].status == Running ==>
          exists t: nat :: Holder(s, t) && Open(s.flights[t].pc))
  }

  lemma IndexOf(jobs: seq<Entry>, k: nat)
    requires k < |jobs| && Distinct(Ids(jobs))
    ensures Index(jobs, jobs[k].id) == k
  {
    assert Ids(jobs)[k] == jobs[k].id;
    var i := Index(jobs, jobs[k].id);
    assert Ids(jobs)[i] == jobs[i].id;
  }

  lemma RegisteredOk(jobs: seq<Entry>, history: seq<string>, id: string)
    requires TableOk(jobs, history) && forall i :: 0 <= i < |jobs| ==> jobs[i].id != id
    ensures TableOk(Registered(jobs, id), history + [id])
  {
    var rest := if |jobs| >= MAX_JOBS then jobs[1..] else jobs;
    var ids := LastEight(history);
    var kept := if |jobs| >= MAX_JOBS then ids[1..] else ids;
    assert Ids(rest) == kept;
    assert Ids(Registered(jobs, id)) == kept + [id];
    assert LastEight(history + [id]) == kept + [id];
    assert forall i :: 0 <= i < |ids| ==> ids[i] == jobs[i].id;
  }

  lemma UpdatedOk(jobs: seq<Entry>, id: string, status: JobStatus, note: string)
    ensures Ids(Updated(jobs, id, status, note)) == Ids(jobs)
  {}

  lemma TurnKeepsTable(m: Shared, f: Flight, ok: bool, note: string)
    requires TableOk(m.jobs, m.history)
    ensures var m' := Turn(m, f, ok, note).0; TableOk(m'.jobs, m'.history)
  {
    hide Ids, LastEight, Distinct, Registered, Updated;
    if f.pc.Holding? && Index(m.jobs, f.id) == -1 {
      RegisteredOk(m.jobs, m.history, f.id);
    }
    UpdatedOk(m.jobs, f.id, Failed, note);
    UpdatedOk(m.jobs, f.id, Done, note);
  }

  /** The lock follows its holder. */
  lemma TurnLock(m: Shared, f: Flight, ok: bool, note: string)
    requires FlightOk(m, f) && !m.badRelease
    ensures var (m', f') := Turn(m, f, ok, note);
            && !m'.badRelease
            && (Holds(f'.pc) ==> Holds(f.pc) || !m.locked)
            && (m'.locked <==> Holds(f'.pc) || (m.locked && !Holds(f.pc)))
  {
    hide TableOk, Index;
  }

  lemma RegisteredLast(jobs: seq<Entry>, id: string)
    ensures var jobs' := Registered(jobs, id);
            && |jobs'| == (if |jobs| >= MAX_JOBS then |jobs| else |jobs| + 1)
            && jobs'[|jobs'| - 1] == Entry(id, Running, "")
  {}

  /** An open request's entry is the newest, so that is the one its outcome goes to. */
  lemma OpenEntry(m: Shared, f: Flight, status: JobStatus, note: string)
    requires FlightOk(m, f) && TableOk(m.jobs, m.history) && Open(f.pc)
    ensures Index(m.jobs, f.id) == |m.jobs| - 1
    ensures Updated(m.jobs, f.id, status, note) == m.jobs[|m.jobs| - 1 := Entry(f.id, status, note)]
    ensures |m.history| > 0 && m.history[|m.history| - 1] == f.id
  {
    IndexOf(m.jobs, |m.jobs| - 1);
    assert |Ids(m.jobs)| == |m.jobs| && Ids(m.jobs)[|m.jobs| - 1] == f.id;
  }

  lemma OpenTurnKeepsOwn(m: Shared, f: Flight, ok: bool, note: string)
    requires FlightOk(m, f) && Open(f.pc) && TableOk(m.jobs, m.history)
    ensures var (m', f') := Turn(m, f, ok, note); FlightOk(m', f')
  {
    hide TableOk, Index, Registered, Updated;
    OpenEntry(m, f, Failed, note);
    OpenEntry(m, f, if ok then Done else Failed, note);
  }

  lemma OtherTurnKeepsOwn(m: Shared, f: Flight, ok: bool, note: string)
    requires FlightOk(m, f) && !Open(f.pc) && TableOk(m.jobs, m.history)
    ensures var (m', f') := Turn(m, f, ok, note); FlightOk(m', f')
  {
    hide TableOk, Index, Registered, Updated;
    RegisteredLast(m.jobs, f.id);
  }

  /** One turn keeps the turning request's own claims true. */
  lemma TurnKeepsOwn(m: Shared, f: Flight, ok: bool, note: string)
    requires FlightOk(m, f) && TableOk(m.jobs, m.history)
    ensures var (m', f') := Turn(m, f, ok, note); FlightOk(m', f')
  {
    hide FlightOk, TableOk, Turn;
    if Open(f.pc) { OpenTurnKeepsOwn(m, f, ok, note); } else { OtherTurnKeepsOwn(m, f, ok, note); }
  }

  /** One turn keeps true what the other requests, none of which shares the lock, know. */
  lemma TurnKeepsOther(m: Shared, f: Flight, ok: bool, note: string, g: Flight)
    requires FlightOk(m, f) && FlightOk(m, g) && TableOk(m.jobs, m.history)
    requires Holds(f.pc) ==> !Holds(g.pc)
    ensures FlightOk(Turn(m, f, ok, note).0, g)
  {
    hide Index;
    var m' := Turn(m, f, ok, note).0;
    if Open(f.pc) {
      OpenEntry(m, f, Failed, note);
      OpenEntry(m, f, Done, note);
    }
    if Outcome(g.pc) && Slot(m', g.reg) >= 0 {
      assert m'.jobs[Slot(m', g.reg)].status == m.jobs[Slot(m, g.reg)].status;
    }
  }

  /** Only the newest job can be running. */
  predicate OnlyLastRuns(jobs: seq<Entry>) {
    forall k :: 0 <= k < |jobs| && jobs[k].status == Running ==> k == |jobs| - 1
  }

  lemma TurnRunning(m: Shared, f: Flight, ok: bool, note: string)
    requires FlightOk(m, f) && TableOk(m.jobs, m.history) && OnlyLastRuns(m.jobs)
    requires f.pc.Holding? ==> forall k :: 0 <= k < |m.jobs| ==> m.jobs[k].status != Running
    ensures var (m', f') := Turn(m, f, ok, note);
            && OnlyLastRuns(m'.jobs)
            && (|m'.jobs| > 0 && m'.jobs[|m'.jobs| - 1].status == Running ==>
                  Open(f'.pc) || (!Open(f.pc) && m'.jobs == m.jobs))
  {
    hide TableOk, Index, Updated;
    if Open(f.pc) {
      OpenEntry(m, f, Failed, note);
      OpenEntry(m, f, Done, note);
    }
  }

  lemma StepKeeps(s: State, a: Action)
    requires Inv(s)
    ensures Inv(Step(s, a))
  {
    hide Turn, TableOk, Slot;
    var s' := Step(s, a);
    match a {
      case Arrive(_, _) =>
        forall u: nat ensures Holder(s', u) == Holder(s, u) {}
        forall u | 0 <= u < |s'.flights| ensures FlightOk(s'.m, s'.flights[u]) {
          if u < |s.flights| { assert FlightOk(s.m, s.flights[u]); }
        }
      case Act(t, ok, note) =>
        if t < |s.flights| {
          var f := s.flights[t];
          assert Holder(s, t) == Holds(f.pc) && Holder(s', t) == Holds(s'.flights[t].pc);
          TurnKeepsTable(s.m, f, ok, note);
          TurnLock(s.m, f, ok, note);
          TurnKeepsOwn(s.m, f, ok, note);
          TurnRunning(s.m, f, ok, note);
          forall u: nat | u != t ensures Holder(s', u) == Holder(s, u) {}
          forall u | 0 <= u < |s'.flights| ensures FlightOk(s'.m, s'.flights[u]) {
            if u != t {
              assert Holder(s, u) == Holds(s.flights[u].pc);
              TurnKeepsOther(s.m, f, ok, note, s.flights[u]);
            }
          }
        }
    }
  }

  lemma {:induction false} ExecKeeps(s: State, actions: seq<Action>)
    requires Inv(s)
    ensures Inv(Exec(s, actions))
    decreases |actions|
  {
    hide Step, Inv;
    if actions != [] {
      StepKeeps(s, actions[0]);
      ExecKeeps(Step(s, actions[0]), actions[1..]);
    }
  }

  // ----- what every interleaving satisfies

  function Reached(actions: seq<Action>): State { Exec(INITIAL, actions) }

  lemma InitialOk()
    ensures Inv(INITIAL)
  {
    hide FlightOk, TableOk;
    EmptyTable();
  }

  lemma EmptyTable()
    ensures TableOk([], [])
  {
    assert Ids([]) == LastEight([]) == [];
  }

  lemma ReachedOk(actions: seq<Action>)
    ensures Inv(Reached(actions))
  {
    hide Exec, Inv;
    InitialOk();
    ExecKeeps(INITIAL, actions);
  }

  /**
   In every interleaving of any requests: at most one job is running, and then exactly one request
   holds the lock and that job is its own; the table has at most eight entries; no release ever
   finds the lock free; no worker ever finds its entry gone; a finished request that took the lock
   gave it back exactly once.
   */
  lemma AlwaysSafe(actions: seq<Action>)
    ensures var s := Reached(actions);
            && !s.m.badRelease && |s.m.jobs| <= MAX_JOBS
            && (forall i, j :: 0 <= i < j < |s.m.jobs| ==>
                  s.m.jobs[i].status != Running || s.m.jobs[j].status != Running)
            && (forall k :: 0 <= k < |s.m.jobs| && s.m.jobs[k].status == Running ==>
                  s.m.locked && exists t: nat :: Holder(s, t) && s.flights[t].id == s.m.jobs[k].id)
            && (s.m.locked <==> exists t: nat :: Holder(s, t))
            && (forall t: nat, u: nat :: Holder(s, t) && Holder(s, u) ==> t == u)
            && (forall t :: 0 <= t < |s.flights| ==>
                  && s.flights[t].pc != Closing(true) && s.flights[t].pc != Finished(Broken)
                  && (s.flights[t].pc.Finished? ==> s.flights[t].released == s.flights[t].acquired <= 1))
  {
    ReachedOk(actions);
    var s := Reached(actions);
    forall t | 0 <= t < |s.flights|
      ensures s.flights[t].pc != Closing(true) && s.flights[t].pc != Finished(Broken)
      ensures s.flights[t].pc.Finished? ==> s.flights[t].released == s.flights[t].acquired <= 1
    {
      assert FlightOk(s.m, s.flights[t]);
    }
    forall k | 0 <= k < |s.m.jobs| && s.m.jobs[k].status == Running
      ensures s.m.locked && exists t: nat :: Holder(s, t) && s.flights[t].id == s.m.jobs[k].id
    {
      var t: nat :| Holder(s, t) && Open(s.flights[t].pc);
      assert FlightOk(s.m, s.flights[t]);
    }
  }

  /** Registering at a full table never evicts a running job. */
  lemma EvictionSparesRunning(actions: seq<Action>, t: nat)
    requires var s := Reached(actions);
             t < |s.flights| && s.flights[t].pc == Holding && |s.m.jobs| >= MAX_JOBS
    ensures forall k :: 0 <= k < |Reached(actions).m.jobs| ==> Reached(actions).m.jobs[k].status != Running
  {
    ReachedOk(actions);
    assert Holder(Reached(actions), t);
  }

  /** A job with an outcome keeps exactly that entry for as long as the table keeps its registration. */
  lemma OutcomesStay(actions: seq<Action>, a: Action, reg: nat)
    requires var s := Reached(actions);
             reg < |s.m.history| && Slot(s.m, reg) >= 0 && s.m.jobs[Slot(s.m, reg)].status != Running
    ensures var s, s' := Reached(actions), Step(Reached(actions), a);
            Slot(s'.m, reg) >= 0 ==> s'.m.jobs[Slot(s'.m, reg)] == s.m.jobs[Slot(s.m, reg)]
  {
    var s := Reached(actions);
    ReachedOk(actions);
    if a.Act? && a.t < |s.flights| {
      assert FlightOk(s.m, s.flights[a.t]);
      if |s.m.jobs| > 0 {
        IndexOf(s.m.jobs, |s.m.jobs| - 1);
      }
    }
  }

  /** How many registrations came after registration number `reg`. */
  function Later(s: State, reg: nat): int { |s.m.history| - 1 - reg }

  lemma OwnEntry(s: State, t: nat)
    requires Inv(s) && t < |s.flights| && s.flights[t].pc == Replying
    ensures var f := s.flights[t];
            && (Later(s, f.reg) < MAX_JOBS <==> Slot(s.m, f.reg) >= 0)
            && (Slot(s.m, f.reg) >= 0 ==>
                  && Index(s.m.jobs, f.id) == Slot(s.m, f.reg)
                  && s.m.jobs[Slot(s.m, f.reg)].status == if f.success then Done else Failed)
            && (Index(s.m.jobs, f.id) == -1 <==> f.id !in LastEight(s.m.history))
  {
    var f := s.flights[t];
    assert FlightOk(s.m, f);
    var recent := LastEight(s.m.history);
    assert forall k :: 0 <= k < |s.m.jobs| ==> recent[k] == s.m.jobs[k].id;
    if Slot(s.m, f.reg) >= 0 {
      IndexOf(s.m.jobs, Slot(s.m, f.reg));
    }
  }

  /**
   A synchronous request reads its job back after releasing the lock. It finds its own entry, with
   the outcome its worker wrote, exactly while fewer than eight registrations came after its own;
   it finds nothing, and its handler fails on the missing entry, exactly when its id is not among
   the last eight registered.
   */
  lemma OwnReply(actions: seq<Action>, t: nat, ok: bool, note: string)
    requires var s := Reached(actions); t < |s.flights| && s.flights[t].pc == Replying
    ensures var s := Reached(actions); var f := s.flights[t];
            var reply := Turn(s.m, f, ok, note).1.pc;
            && (Later(s, f.reg) < MAX_JOBS <==> Slot(s.m, f.reg) >= 0)
            && (Later(s, f.reg) < MAX_JOBS ==> reply == Finished(if f.success then Image else Error))
            && (reply == Finished(NoJob) <==> f.id !in LastEight(s.m.history))
  {
    hide Inv;
    ReachedOk(actions);
    OwnEntry(Reached(actions), t);
  }

  /** A whole asynchronous request as the t-th thread, with no one else moving. */
  function OneRequest(t: nat, id: string): seq<Action> {
    var act := Act(t, true, "");
    [Arrive(id, true), act, act, act, act, act]
  }

  lemma ExecCons(s: State, a: Action, rest: seq<Action>)
    ensures Exec(s, [a] + rest) == Exec(Step(s, a), rest)
  {
    assert ([a] + rest)[1..] == rest;
  }

  /** From a free lock and a new id, that request runs to its end and frees the lock again. */
  lemma OneRequestRuns(s: State, id: string)
    requires Inv(s) && !s.m.locked && Index(s.m.jobs, id) == -1
    ensures var s' := Exec(s, OneRequest(|s.flights|, id));
            && !s'.m.locked && s'.m.history == s.m.history + [id]
            && |s'.flights| == |s.flights| + 1 && s'.flights[..|s.flights|] == s.flights
  {
    hide Inv, Registered, Updated, Index;
    var t, act := |s.flights|, Act(|s.flights|, true, "");
    var s1 := Step(s, Arrive(id, true));
    var s2 := Step(s1, act);
    var s3 := Step(s2, act);
    var s4 := Step(s3, act);
    RegisteredLast(s.m.jobs, id);
    var s5, s6 := Step(s4, act), Step(Step(s4, act), act);
    assert s5.flights[t].pc.Closing?;
    ExecCons(s5, act, []);
    ExecCons(s4, act, [act]);
    ExecCons(s3, act, [act, act]);
    ExecCons(s2, act, [act, act, act]);
    ExecCons(s1, act, [act, act, act, act]);
    ExecCons(s, Arrive(id, true), [act, act, act, act, act]);
    assert Exec(s6, []) == s6;
  }

  function Requests(t: nat, ids: seq<string>): seq<Action>
    decreases |ids|
  {
    if ids == [] then [] else OneRequest(t, ids[0]) + Requests(t + 1, ids[1..])
  }

  lemma {:induction false} ExecAppend(s: State, a: seq<Action>, b: seq<Action>)
    ensures Exec(s, a + b) == Exec(Exec(s, a), b)
    decreases |a|
  {
    if a == [] {
      assert a + b == b;
    } else {
      assert (a + b)[0] == a[0] && (a + b)[1..] == a[1..] + b;
      ExecAppend(Step(s, a[0]), a[1..], b);
    }
  }

  lemma NewId(s: State, id: string)
    requires Inv(s) && id !in LastEight(s.m.history)
    ensures Index(s.m.jobs, id) == -1
  {
    assert forall k :: 0 <= k < |s.m.jobs| ==> Ids(s.m.jobs)[k] == s.m.jobs[k].id;
  }

  lemma NewInLonger(history: seq<string>, last: string, id: string)
    requires id !in LastEight(history) && id != last
    ensures id !in LastEight(history + [last])
  {
    var ids := LastEight(history);
    assert LastEight(history + [last]) == (if |ids| == MAX_JOBS then ids[1..] else ids) + [last];
  }

  lemma {:induction false} RequestsRun(s: State, ids: seq<string>)
    requires Inv(s) && !s.m.locked && Distinct(ids)
    requires forall id :: id in ids ==> id !in LastEight(s.m.history)
    ensures var s' := Exec(s, Requests(|s.flights|, ids));
            && Inv(s') && s'.m.history == s.m.history + ids
            && |s'.flights| >= |s.flights| && s'.flights[..|s.flights|] == s.flights
    decreases |ids|
  {
    hide Inv;
    if ids == [] {
      assert s.m.history + ids == s.m.history;
    } else {
      var one := OneRequest(|s.flights|, ids[0]);
      NewId(s, ids[0]);
      OneRequestRuns(s, ids[0]);
      ExecKeeps(s, one);
      var s1 := Exec(s, one);
      forall id | id in ids[1..] ensures id !in LastEight(s1.m.history) {
        var i :| 0 <= i < |ids[1..]| && ids[1..][i] == id;
        assert ids[i + 1] == id && ids[0] != id;
        NewInLonger(s.m.history, ids[0], id);
      }
      RequestsRun(s1, ids[1..]);
      var rest := Requests(|s1.flights|, ids[1..]);
      ExecAppend(s, one, rest);
      var s' := Exec(s1, rest);
      assert s'.flights[..|s.flights|] == s'.flights[..|s1.flights|][..|s.flights|];
      assert s.m.history + [ids[0]] + ids[1..] == s.m.history + ids;
    }
  }

  /**
   The lost reply happens: whenever a synchronous request has released the lock, eight further
   requests with new ids, each run to its end, leave it with no job to read.
   */
  lemma ReplyCanBeLost(actions: seq<Action>, t: nat, ids: seq<string>)
    requires var s := Reached(actions);
             && t < |s.flights| && s.flights[t].pc == Replying && !s.m.locked
             && |ids| == MAX_JOBS && Distinct(ids)
             && s.flights[t].id !in ids && forall id :: id in ids ==> id !in LastEight(s.m.history)
    ensures var more := actions + Requests(|Reached(actions).flights|, ids);
            && t < |Reached(more).flights| && Reached(more).flights[t] == Reached(actions).flights[t]
            && Turn(Reached(more).m, Reached(actions).flights[t], true, "").1.pc == Finished(NoJob)
  {
    hide Inv, Exec;
    var s := Reached(actions);
    ReachedOk(actions);
    RequestsRun(s, ids);
    ExecAppend(INITIAL, actions, Requests(|s.flights|, ids));
    var more := actions + Requests(|s.flights|, ids);
    var s' := Reached(more);
    assert LastEight(s'.m.history) == ids;
    assert s'.flights[..|s.flights|][t] == s.flights[t];
    OwnReply(more, t, true, "");
  }

  // ----- the shared state as the program changes it in place

  class Server {
    var locked: bool
    var jobs: seq<Entry>
    ghost var history: seq<string>
    ghost var badRelease: bool

    ghost function Now(): Shared reads this { Shared(locked, jobs, history, badRelease) }

    constructor ()
      ensures Now() == INITIAL.m
    {
      locked, jobs, history, badRelease := false, [], [], false;
    }

    method TryAcquire() returns (got: bool)
      modifies this
      ensures got == !old(locked) && Now() == old(Now()).(locked := true)
    {
      got := !locked;
      locked := true;
    }

    method ReleaseLock()
      modifies this
      ensures Now() == old(Now()).(locked := false, badRelease := old(badRelease) || !old(locked))
    {
      badRelease := badRelease || !locked;
      locked := false;
    }

    method Register(id: string) returns (duplicate: bool)
      modifies this
      ensures duplicate == (Index(old(jobs), id) != -1)
      ensures Now() == if duplicate then old(Now())
                       else old(Now()).(jobs := Registered(old(jobs), id), history := old(history) + [id])
    {
      duplicate := Index(jobs, id) != -1;
      if !duplicate {
        if |jobs| >= MAX_JOBS {
          jobs := jobs[1..];
        }
        jobs := jobs + [Entry(id, Running, "")];
        history := history + [id];
      }
    }

    /** JOBS[id].update(...), which raises when the entry is gone. */
    method Update(id: string, status: JobStatus, note: string) returns (found: bool)
      modifies this
      ensures found == (Index(old(jobs), id) != -1)
      ensures Now() == old(Now()).(jobs := Updated(old(jobs), id, status, note))
    {
      var k := Index(jobs, id);
      found := k != -1;
      if found {
        jobs := jobs[k := Entry(id, status, note)];
      }
    }

    method Snapshot(id: string) returns (job: Option<Entry>)
      ensures job == var k := Index(jobs, id); if k == -1 then None else Some(jobs[k])
    {
      var k := Index(jobs, id);
      if k == -1 { return None; }
      return Some(jobs[k]);
    }

    /** run_generation, whose work succeeds or raises. */
    method RunGeneration(id: string, ok: bool, note: string)
      modifies this
      ensures var f := Flight(id, false, Working, 0, false, 1, 0);
              var (m, g) := Turn(old(Now()), f, ok, note);
              Now() == Turn(m, g, ok, note).0
    {
      if ok {
        var found := Update(id, Done, note);
        if !found {
          // The missing key raises inside the handler of the first exception too.
          found := Update(id, Failed, note);
        }
      } else {
        var found := Update(id, Failed, note);
      }
      ReleaseLock();
    }

    /**
     do_POST from the lock on, with no other thread moving: the table, the lock and the reply that
     the interleaved model ends in (SoloIs).
     */
    method DoPost(id: string, async: bool, started: bool, ok: bool, note: string) returns (reply: Reply)
      requires Distinct(Ids(jobs)) && !badRelease
      modifies this
      ensures old(locked) ==> reply == Busy && Now() == old(Now())
      ensures !old(locked) ==> !locked && !badRelease
      ensures !old(locked) && Index(old(jobs), id) != -1 ==> reply == Conflict && jobs == old(jobs)
      ensures !old(locked) && Index(old(jobs), id) == -1 ==>
                var status := if ok && (started || !async) then Done else Failed;
                && jobs == Updated(Registered(old(jobs), id), id, status, note)
                && reply == if async then (if started then Accepted else Error) else if ok then Image else Error
    {
      var got := TryAcquire();
      if !got { return Busy; }
      var duplicate := Register(id);
      if duplicate {
        ReleaseLock();
        return Conflict;
      }
      RegisteredLast(old(jobs), id);
      NewestIndex(jobs);
      if async {
        if !started {
          var found := Update(id, Failed, note);
          ReleaseLock();
          return Error;
        }
        RunGeneration(id, ok, note);
        return Accepted;
      }
      RunGeneration(id, ok, note);
      NewestIndex(jobs);
      var job := Snapshot(id);
      if job.None? { return Broken; }
      return if job.value.status == Done then Image else Error;
    }
  }

  // ----- one request of the interleaved model, with no other thread moving

  /** The next n actions of a request; `started` answers the start of its thread and `ok` the rest. */
  function Solo(m: Shared, f: Flight, started: bool, ok: bool, note: string, n: nat): (Shared, Flight)
    decreases n
  {
    if n == 0 then (m, f) else
    var (m', f') := Turn(m, f, if f.pc.Launching? then started else ok, note);
    Solo(m', f', started, ok, note, n - 1)
  }

  lemma SoloOn(m: Shared, f: Flight, started: bool, ok: bool, note: string, n: nat)
    requires n > 0
    ensures var (m', f') := Turn(m, f, if f.pc.Launching? then started else ok, note);
            Solo(m, f, started, ok, note, n) == Solo(m', f', started, ok, note, n - 1)
  {
    hide Turn;
  }

  lemma {:induction false} SoloStays(m: Shared, f: Flight, started: bool, ok: bool, note: string, n: nat)
    requires f.pc.Finished?
    ensures Solo(m, f, started, ok, note, n) == (m, f)
    decreases n
  {
    if n > 0 { SoloStays(m, f, started, ok, note, n - 1); }
  }

  /**
   Left alone, a request of the interleaved model ends in six actions: refused where the lock is held;
   refused with the lock given back where its id is known; and otherwise registered, with its outcome in
   the table and in the reply. A thread that does not start leaves a failed job.
   */
  lemma SoloIs(m: Shared, id: string, async: bool, started: bool, ok: bool, note: string)
    requires !m.badRelease
    ensures var (end, f) := Solo(m, Flight(id, async, Arrived, 0, false, 0, 0), started, ok, note, 6);
            var status := if ok && (started || !async) then Done else Failed;
            && (m.locked ==> end == m && f.pc == Finished(Busy))
            && (!m.locked && Index(m.jobs, id) != -1 ==> end == m && f.pc == Finished(Conflict))
            && (!m.locked && Index(m.jobs, id) == -1 ==>
                  && end == m.(jobs := Updated(Registered(m.jobs, id), id, status, note), history := m.history + [id])
                  && f.pc == Finished(if async then (if started then Accepted else Error)
                                      else if ok then Image else Error))
  {
    hide Solo;
    var f0 := Flight(id, async, Arrived, 0, false, 0, 0);
    SoloOn(m, f0, started, ok, note, 6);
    if m.locked {
      SoloStays(m, f0.(pc := Finished(Busy)), started, ok, note, 5);
    } else {
      var m1, f1 := m.(locked := true), f0.(pc := Holding, acquired := 1);
      SoloOn(m1, f1, started, ok, note, 5);
      if Index(m.jobs, id) != -1 {
        SoloOn(m1, f1.(pc := Duplicate), started, ok, note, 4);
        SoloStays(m, f1.(pc := Finished(Conflict), released := 1), started, ok, note, 3);
      } else {
        SoloRuns(m1.(jobs := Registered(m.jobs, id), history := m.history + [id]),
                 f1.(pc := Launching, reg := |m.history|), started, ok, note);
      }
    }
  }

  lemma SoloRuns(m: Shared, f: Flight, started: bool, ok: bool, note: string)
    requires m.locked && !m.badRelease && f.pc == Launching
    requires |m.jobs| > 0 && m.jobs[|m.jobs| - 1].id == f.id
    ensures var (end, g) := Solo(m, f, started, ok, note, 4);
            var status := if ok && (started || !f.async) then Done else Failed;
            && end == m.(jobs := Updated(m.jobs, f.id, status, note), locked := false)
            && g.pc == Finished(if f.async then (if started then Accepted else Error) else if ok then Image else Error)
  {
    hide Solo, Index;
    var last := |m.jobs| - 1;
    NewestIndex(m.jobs);
    SoloOn(m, f, started, ok, note, 4);
    var status := if ok && (started || !f.async) then Done else Failed;
    var m1 := m.(jobs := m.jobs[last := Entry(f.id, status, note)]);
    NewestIndex(m1.jobs);
    var m2 := m1.(locked := false);
    if f.async && !started {
      SoloOn(m, f.(pc := StartFailed), started, ok, note, 3);
      SoloOn(m1, f.(pc := StartFailedMarked), started, ok, note, 2);
      SoloStays(m2, f.(pc := Finished(Error), released := f.released + 1), started, ok, note, 1);
    } else {
      var g := f.(pc := Closing(false), success := ok);
      SoloOn(m, f.(pc := Working), started, ok, note, 3);
      SoloOn(m1, g, started, ok, note, 2);
      if f.async {
        SoloStays(m2, g.(pc := Finished(Accepted), released := f.released + 1), started, ok, note, 1);
      } else {
        SoloOn(m2, g.(pc := Replying, released := f.released + 1), started, ok, note, 1);
        var reply := if ok then Image else Error;
        SoloStays(m2, g.(pc := Finished(reply), released := f.released + 1), started, ok, note, 0);
      }
    }
  }

  lemma NewestIndex(jobs: seq<Entry>)
    requires |jobs| > 0
    ensures Index(jobs, jobs[|jobs| - 1].id) == |jobs| - 1
  {}
}
