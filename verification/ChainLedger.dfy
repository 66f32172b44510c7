/**
 The task ledger and the generate slot of main.cpp. Each step is one action that is atomic in the
 program: a compare-exchange on the slot, or a read or rewrite of the ledger under its mutex.
 Any thread may take the next step, and a cancel may come between any two.
 */
module ChainLedger {
  import opened Text

  /** The hash and the `continue` command test. */
  datatype Env = Env(hash: string -> string, isContinue: string -> bool)

  datatype Status = Running | Done | Failed | Cancelled

  /** The last-chain row; its goal is cut to 500 bytes, its hash is of the whole goal. */
  datatype Row = Row(id: nat, status: Status, goal: string, goalHash: string)

  type Ledger = Option<Row>

  const GOAL_BYTES: nat := 500

  function Cut(goal: string): string { if |goal| > GOAL_BYTES then goal[..GOAL_BYTES] else goal }

  /** Whether a goal names the task of this row. */
  predicate Names(env: Env, goal: string, row: Row) {
    goal == row.goal || env.isContinue(goal) || env.hash(goal) == row.goalHash
  }

  predicate ChainIsCancelled(env: Env, goal: string, ledger: Ledger) {
    ledger.Some? && ledger.value.status == Cancelled && Names(env, goal, ledger.value)
  }

  predicate SameFlight(ledger: Ledger, id: nat) { ledger.Some? && ledger.value.id == id }

  /** The row is this flight's and cancelled. */
  predicate CancelledFor(ledger: Ledger, id: nat) { SameFlight(ledger, id) && ledger.value.status == Cancelled }

  /** save_chain: a cancelled row of the same flight stays, anything else is replaced. */
  function SaveChain(env: Env, ledger: Ledger, goal: string, id: nat, status: Status): Ledger {
    if CancelledFor(ledger, id) then ledger else
    var continuing := SameFlight(ledger, id) && env.isContinue(goal);
    Some(Row(id, status, Cut(if continuing then ledger.value.goal else goal),
             if continuing then ledger.value.goalHash else env.hash(goal)))
  }

  /** handle_cancel_chain. */
  function CancelChain(ledger: Ledger): Ledger {
    if ledger.Some? && ledger.value.status == Running then Some(ledger.value.(status := Cancelled)) else ledger
  }

  /** A save leaves the ledger cancelled exactly when it was, by a cancel of this very flight. */
  lemma SaveKeepsCancelled(env: Env, ledger: Ledger, goal: string, id: nat, status: Status)
    requires status != Cancelled
    ensures var after := SaveChain(env, ledger, goal, id, status);
            after.Some? && after.value.id == id
            && (after.value.status == Cancelled <==> CancelledFor(ledger, id))
            && (CancelledFor(ledger, id) ==> after == ledger)
            && (!CancelledFor(ledger, id) ==> after.value.status == status)
  {}

  /** A flight's own row always names its goal, even when the stored goal was cut. */
  lemma OwnRowNames(env: Env, ledger: Ledger, goal: string, id: nat, status: Status)
    requires SameFlight(ledger, id) ==> Names(env, goal, ledger.value)
    ensures Names(env, goal, SaveChain(env, ledger, goal, id, status).value)
  {}

  // ----- flights

  datatype Pc =
    | Arrived                    // about to compare-exchange the slot
    | Loading                    // slot held, about to read the ledger for its identity
    | Thinking                   // the model is generating
    | Checking(calls: nat)       // tool calls parsed (0: one legacy batch), about to look for a cancel
    | SavingBefore(calls: nat)   // about to save the `before` row
    | CheckingCall(left: nat)    // about to look for a cancel before the next native call
    | Starting(left: nat)        // past that look, about to start the call
    | StartingBatch              // about to start the legacy batch
    | CheckingAfter              // about to look for a cancel after the native calls
    | SavingAfter                // about to save the `after` row
    | SavingFinal                // about to save the answer
    | Leaving                    // about to free the slot
    | Gone                       // returned, or refused

  /**
   One request. `hops`: it has tool context, so it will save its answer; `rowed`: it has saved a row;
   `told`: a cancel marked its row while it held the slot; `starts` and `late`: tool calls or whole
   legacy batches started, in all and since it was told.
   */
  datatype Flight = Flight(
    goal: string, id: nat, pc: Pc, hops: bool, rowed: bool, told: bool, starts: nat, late: nat)

  /** The slot word, the ledger file, and how many identities were minted: a new one is never an old one. */
  datatype Shared = Shared(slot: Option<nat>, ledger: Ledger, minted: nat)

  datatype State = State(m: Shared, flights: seq<Flight>)

  /** Where a step throws: before it wrote anything, or at the event log after its write or its tool call. */
  datatype Stage = Early | AtLog

  /** What the world decides in a step. */
  datatype Choice =
    | Tools(calls: nat)     // a generation asks for tools
    | Answer(ok: bool)      // or answers; at the last save, whether every hop went well
    | Seeded                // the kernel's own observation gives the flight tool context
    | Empty                 // a legacy batch returns nothing
    | Carry                 // the step goes as it usually does
    | Throws(stage: Stage)

  datatype Action = Arrive(goal: string) | Act(t: nat, choice: Choice) | Cancel

  predicate Holds(pc: Pc) { !pc.Arrived? && !pc.Gone? }

  /** The flight knows its identity and has not yet given up its row. */
  predicate Flying(pc: Pc) { Holds(pc) && !pc.Loading? && !pc.Leaving? }

  /** A save at one of the three places; the event log is only written once the row was. */
  function Saving(env: Env, m: Shared, f: Flight, status: Status, choice: Choice, next: Pc): (Shared, Flight) {
    if choice == Throws(Early) then (m, f.(pc := Leaving))
    else if CancelledFor(m.ledger, f.id) then (m, f.(pc := next))
    else (m.(ledger := SaveChain(env, m.ledger, f.goal, f.id, status)),
          f.(pc := if choice == Throws(AtLog) then Leaving else next, rowed := true))
  }

  /** A look for a cancel, which may fail to read the ledger. */
  function Looking(env: Env, m: Shared, f: Flight, choice: Choice, cancelled: Flight, free: Flight): Flight {
    if choice.Throws? then f.(pc := Leaving)
    else if ChainIsCancelled(env, f.goal, m.ledger) then cancelled
    else free
  }

  /** After the rounds: the answer is saved only if there was any tool context. */
  function Finish(f: Flight): Flight { f.(pc := if f.hops then SavingFinal else Leaving) }

  function Started(f: Flight): Flight {
    f.(starts := f.starts + 1, late := if f.told then f.late + 1 else f.late)
  }

  function Turn(env: Env, m: Shared, f: Flight, t: nat, choice: Choice): (Shared, Flight) {
    match f.pc
    case Arrived =>
      if m.slot.Some? then (m, f.(pc := Gone)) else (m.(slot := Some(t)), f.(pc := Loading))
    case Loading =>
      var m' := m.(minted := m.minted + 1);
      if choice.Throws? then (m', f.(pc := Leaving, id := m.minted))
      else
        var adopt := m.ledger.Some? && m.ledger.value.status == Running && Names(env, f.goal, m.ledger.value);
        (m', f.(pc := Thinking, id := if adopt then m.ledger.value.id else m.minted, hops := choice.Seeded?))
    case Thinking =>
      (m, match choice
          case Tools(calls) => f.(pc := Checking(calls))
          case Throws(_) => f.(pc := Leaving)
          case _ => Finish(f))
    case Checking(calls) => (m, Looking(env, m, f, choice, Finish(f), f.(pc := SavingBefore(calls))))
    case SavingBefore(calls) =>
      Saving(env, m, f, Running, choice, if calls > 0 then CheckingCall(calls) else StartingBatch)
    case CheckingCall(left) =>
      if left == 0 then (m, f.(pc := CheckingAfter))
      else (m, Looking(env, m, f, choice, f.(pc := CheckingAfter), f.(pc := Starting(left))))
    case Starting(left) =>
      (m, Started(f).(pc := if choice.Throws? then Leaving else CheckingCall(if left > 0 then left - 1 else 0)))
    case StartingBatch =>
      (m, if choice.Throws? then Started(f).(pc := Leaving)
          else if choice.Empty? then Finish(Started(f))
          else Started(f).(pc := SavingAfter, hops := true))
    case CheckingAfter => (m, Looking(env, m, f, choice, Finish(f), f.(pc := SavingAfter, hops := true)))
    case SavingAfter => Saving(env, m, f, Running, choice, Thinking)
    case SavingFinal => Saving(env, m, f, if choice == Answer(false) then Failed else Done, choice, Leaving)
    case Leaving => (m.(slot := None), f.(pc := Gone))
    case Gone => (m, f)
  }

  /** A cancel marks the flight whose running row the ledger holds. */
  function Hear(m: Shared, f: Flight): Flight {
    if Holds(f.pc) && !f.pc.Loading? && SameFlight(m.ledger, f.id) && m.ledger.value.status == Running
    then f.(told := true) else f
  }

  function Step(env: Env, s: State, a: Action): State {
    match a
    case Arrive(goal) => s.(flights := s.flights + [Flight(goal, 0, Arrived, false, false, false, 0, 0)])
    case Act(t, choice) =>
      if t >= |s.flights| then s else
      var (m, f) := Turn(env, s.m, s.flights[t], t, choice);
      State(m, s.flights[t := f])
    case Cancel =>
      State(s.m.(ledger := CancelChain(s.m.ledger)),
            seq(|s.flights|, i requires 0 <= i < |s.flights| => Hear(s.m, s.flights[i])))
  }

  function Exec(env: Env, s: State, actions: seq<Action>): State
    decreases |actions|
  {
    if actions == [] then s else Exec(env, Step(env, s, actions[0]), actions[1..])
  }

  /** A start with any ledger left by an earlier process. */
  function Fresh(ledger: Ledger): State {
    State(Shared(None, ledger, if ledger.Some? then ledger.value.id + 1 else 0), [])
  }

  // ----- the invariant

  /** Between a passed check and the start it allows; a cancel here comes too late for that one start. */
  predicate PastCheck(pc: Pc) { pc.Starting? || pc.StartingBatch? || (pc.SavingBefore? && pc.calls == 0) }

  /** What a flight that holds the slot knows about the ledger. */
  ghost predicate RowOk(env: Env, ledger: Ledger, f: Flight) {
    && (SameFlight(ledger, f.id) ==>
          && Names(env, f.goal, ledger.value)
          && (ledger.value.status == Cancelled ==> f.told)
          && (!f.pc.Leaving? ==> ledger.value.status in {Running, Cancelled}))
    && (!f.pc.Leaving? && !SameFlight(ledger, f.id) && ledger.Some? && Names(env, f.goal, ledger.value) ==>
          && ledger.value.status != Running
          && (f.pc.SavingBefore? ==> ledger.value.status != Cancelled))
    && (f.told ==> CancelledFor(ledger, f.id))
    && ((f.rowed || f.starts > 0) && !f.pc.Leaving? ==> SameFlight(ledger, f.id))
  }

  /** What holds of one flight given the shared state. */
  ghost predicate FlightOk(env: Env, m: Shared, f: Flight, t: nat) {
    && (Holds(f.pc) <==> m.slot == Some(t))
    && f.late <= (if PastCheck(f.pc) then 0 else 1)
    && (!f.told ==> f.late == 0)
    && (f.pc in {Arrived, Loading} ==> !f.told && !f.rowed && !f.hops && f.starts == 0)
    && (f.pc.SavingFinal? ==> f.hops)
    && (Holds(f.pc) && !f.pc.Loading? ==> f.id < m.minted && RowOk(env, m.ledger, f))
    && (f.pc.CheckingCall? || f.pc.Starting? || f.pc.StartingBatch? || f.pc.CheckingAfter? || f.pc.SavingAfter? ==>
          SameFlight(m.ledger, f.id))
  }

  ghost predicate Inv(env: Env, s: State) {
    && (forall t :: 0 <= t < |s.flights| ==> FlightOk(env, s.m, s.flights[t], t))
    && (s.m.ledger.Some? ==> s.m.ledger.value.id < s.m.minted)
    && (s.m.slot.Some? ==> s.m.slot.value < |s.flights|)
  }

  lemma SavingOk(env: Env, m: Shared, f: Flight, status: Status, choice: Choice, next: Pc)
    requires Flying(f.pc) && RowOk(env, m.ledger, f) && status != Cancelled
    requires if status == Running then Flying(next) && !next.SavingBefore? else next == Leaving
    ensures var (m', f') := Saving(env, m, f, status, choice, next);
            && RowOk(env, m'.ledger, f')
            && (f'.pc == next && next != Leaving ==> SameFlight(m'.ledger, f.id))
            && (m'.ledger.Some? ==> m'.ledger == m.ledger || m'.ledger.value.id == f.id)
  {
    hide Names, Cut;
    OwnRowNames(env, m.ledger, f.goal, f.id, status);
    SaveKeepsCancelled(env, m.ledger, f.goal, f.id, status);
  }

  predicate AtSave(pc: Pc) { pc.SavingBefore? || pc.SavingAfter? || pc.SavingFinal? }

  /** A save keeps what holds of the flight, wherever it goes on. */
  lemma SavedOk(env: Env, m: Shared, f: Flight, t: nat, status: Status, choice: Choice, next: Pc)
    requires FlightOk(env, m, f, t) && AtSave(f.pc) && status != Cancelled
    requires m.ledger.Some? ==> m.ledger.value.id < m.minted
    requires if status == Running then Flying(next) && !next.SavingBefore? && !next.SavingFinal? else next == Leaving
    requires PastCheck(next) ==> PastCheck(f.pc)
    ensures var (m', f') := Saving(env, m, f, status, choice, next);
            FlightOk(env, m', f', t) && (m'.ledger.Some? ==> m'.ledger.value.id < m'.minted)
  {
    SavingOk(env, m, f, status, choice, next);
    hide RowOk, Names, SaveChain, SameFlight;
  }

  lemma SaveTurnOk(env: Env, m: Shared, f: Flight, t: nat, choice: Choice)
    requires FlightOk(env, m, f, t) && AtSave(f.pc) && (m.ledger.Some? ==> m.ledger.value.id < m.minted)
    ensures var (m', f') := Turn(env, m, f, t, choice);
            FlightOk(env, m', f', t) && (m'.ledger.Some? ==> m'.ledger.value.id < m'.minted)
  {
    hide FlightOk, Saving;
    match f.pc {
      case SavingBefore(calls) =>
        SavedOk(env, m, f, t, Running, choice, if calls > 0 then CheckingCall(calls) else StartingBatch);
      case SavingAfter =>
        SavedOk(env, m, f, t, Running, choice, Thinking);
      case SavingFinal =>
        SavedOk(env, m, f, t, if choice == Answer(false) then Failed else Done, choice, Leaving);
    }
  }

  /** A flight that moves on under the same ledger still knows its row. */
  lemma RowStaysOk(env: Env, ledger: Ledger, f: Flight, g: Flight)
    requires RowOk(env, ledger, f) && !f.pc.Leaving?
    requires g.goal == f.goal && g.id == f.id && g.told == f.told && g.rowed == f.rowed
    requires g.starts > f.starts ==> SameFlight(ledger, f.id)
    requires g.pc.SavingBefore? ==> !ChainIsCancelled(env, f.goal, ledger)
    ensures RowOk(env, ledger, g)
  {
    hide Names;
  }

  lemma LoadTurnOk(env: Env, m: Shared, f: Flight, t: nat, choice: Choice)
    requires FlightOk(env, m, f, t) && !Flying(f.pc) && (m.ledger.Some? ==> m.ledger.value.id < m.minted)
    ensures var (m', f') := Turn(env, m, f, t, choice);
            FlightOk(env, m', f', t) && (m'.ledger.Some? ==> m'.ledger.value.id < m'.minted)
  {
    hide Names;
  }

  predicate AtStart(pc: Pc) { pc.Starting? || pc.StartingBatch? }

  lemma StartTurnOk(env: Env, m: Shared, f: Flight, t: nat, choice: Choice)
    requires FlightOk(env, m, f, t) && AtStart(f.pc)
    ensures var (m', f') := Turn(env, m, f, t, choice); m' == m && FlightOk(env, m, f', t)
  {
    ToldIsSeen(env, m.ledger, f);
    hide RowOk, Names, ChainIsCancelled, SameFlight;
    RowStaysOk(env, m.ledger, f, Turn(env, m, f, t, choice).1);
  }

  lemma CheckCallOk(env: Env, m: Shared, f: Flight, t: nat, choice: Choice)
    requires FlightOk(env, m, f, t) && f.pc.CheckingCall?
    ensures var (m', f') := Turn(env, m, f, t, choice); m' == m && FlightOk(env, m, f', t)
  {
    ToldIsSeen(env, m.ledger, f);
    hide RowOk, Names, ChainIsCancelled, SameFlight;
    RowStaysOk(env, m.ledger, f, Turn(env, m, f, t, choice).1);
  }

  lemma LookTurnOk(env: Env, m: Shared, f: Flight, t: nat, choice: Choice)
    requires FlightOk(env, m, f, t) && (f.pc.Thinking? || f.pc.Checking? || f.pc.CheckingAfter?)
    ensures var (m', f') := Turn(env, m, f, t, choice); m' == m && FlightOk(env, m, f', t)
  {
    ToldIsSeen(env, m.ledger, f);
    hide RowOk, Names, ChainIsCancelled, SameFlight;
    RowStaysOk(env, m.ledger, f, Turn(env, m, f, t, choice).1);
  }

  lemma ToldIsSeen(env: Env, ledger: Ledger, f: Flight)
    requires RowOk(env, ledger, f)
    ensures f.told ==> ChainIsCancelled(env, f.goal, ledger)
  {}

  lemma TurnOk(env: Env, m: Shared, f: Flight, t: nat, choice: Choice)
    requires FlightOk(env, m, f, t) && (m.ledger.Some? ==> m.ledger.value.id < m.minted)
    ensures var (m', f') := Turn(env, m, f, t, choice);
            FlightOk(env, m', f', t) && (m'.ledger.Some? ==> m'.ledger.value.id < m'.minted)
  {
    hide FlightOk, Turn;
    if AtSave(f.pc) {
      SaveTurnOk(env, m, f, t, choice);
    } else if AtStart(f.pc) {
      StartTurnOk(env, m, f, t, choice);
    } else if f.pc.CheckingCall? {
      CheckCallOk(env, m, f, t, choice);
    } else if Flying(f.pc) {
      LookTurnOk(env, m, f, t, choice);
    } else {
      LoadTurnOk(env, m, f, t, choice);
    }
  }

  /** A step by one flight touches neither the slot nor the ledger of another that holds the slot. */
  lemma OthersOk(env: Env, m: Shared, f: Flight, t: nat, choice: Choice, g: Flight, u: nat)
    requires FlightOk(env, m, f, t) && FlightOk(env, m, g, u) && u != t
    ensures FlightOk(env, Turn(env, m, f, t, choice).0, g, u)
  {
    hide Names, SaveChain;
  }

  lemma HearOk(env: Env, m: Shared, f: Flight, t: nat)
    requires FlightOk(env, m, f, t)
    ensures FlightOk(env, m.(ledger := CancelChain(m.ledger)), Hear(m, f), t)
  {}

  lemma StepKeeps(env: Env, s: State, a: Action)
    requires Inv(env, s)
    ensures Inv(env, Step(env, s, a))
  {
    hide FlightOk;
    match a
    case Arrive(goal) => NewOk(env, s.m, Flight(goal, 0, Arrived, false, false, false, 0, 0), |s.flights|);
    case Act(t, choice) =>
      if t < |s.flights| {
        TurnOk(env, s.m, s.flights[t], t, choice);
        forall u | 0 <= u < |s.flights| && u != t ensures FlightOk(env, Step(env, s, a).m, s.flights[u], u) {
          OthersOk(env, s.m, s.flights[t], t, choice, s.flights[u], u);
        }
        assert Turn(env, s.m, s.flights[t], t, choice).0.slot in {s.m.slot, Some(t), None};
      }
    case Cancel =>
      forall t | 0 <= t < |s.flights| ensures FlightOk(env, Step(env, s, a).m, Step(env, s, a).flights[t], t) {
        HearOk(env, s.m, s.flights[t], t);
      }
  }

  lemma NewOk(env: Env, m: Shared, f: Flight, t: nat)
    requires f.pc == Arrived && !f.rowed && !f.told && !f.hops && f.starts == 0 && f.late == 0 && m.slot != Some(t)
    ensures FlightOk(env, m, f, t)
  {}

  lemma {:induction false} ExecKeeps(env: Env, s: State, actions: seq<Action>)
    requires Inv(env, s)
    ensures Inv(env, Exec(env, s, actions))
    decreases |actions|
  {
    hide Inv, Step;
    if actions != [] {
      StepKeeps(env, s, actions[0]);
      ExecKeeps(env, Step(env, s, actions[0]), actions[1..]);
    }
  }

  lemma Reached(env: Env, ledger: Ledger, actions: seq<Action>)
    ensures Inv(env, Exec(env, Fresh(ledger), actions))
  {
    ExecKeeps(env, Fresh(ledger), actions);
  }

  // ----- main results

  /** In every interleaving at most one flight holds the slot, and the slot word names it. */
  lemma OneHolder(env: Env, ledger: Ledger, actions: seq<Action>)
    ensures var s := Exec(env, Fresh(ledger), actions);
            && (forall t :: 0 <= t < |s.flights| ==> (Holds(s.flights[t].pc) <==> s.m.slot == Some(t)))
            && (forall t, u ::
                  0 <= t < |s.flights| && 0 <= u < |s.flights| && Holds(s.flights[t].pc) && Holds(s.flights[u].pc) ==>
                    t == u)
  {
    Reached(env, ledger, actions);
    hide Exec;
    var s := Exec(env, Fresh(ledger), actions);
    forall t | 0 <= t < |s.flights| ensures Holds(s.flights[t].pc) <==> s.m.slot == Some(t) {
      assert FlightOk(env, s.m, s.flights[t], t);
    }
  }

  /**
   Once a cancel has marked a flight's row, the ledger stays cancelled for as long as the flight
   runs, whatever it saves, and at most one start that was already past its check still happens.
   */
  lemma CancelHolds(env: Env, ledger: Ledger, actions: seq<Action>, t: nat)
    requires t < |Exec(env, Fresh(ledger), actions).flights|
    ensures var s := Exec(env, Fresh(ledger), actions);
            var f := s.flights[t];
            f.late <= 1 && (f.told && Holds(f.pc) ==> CancelledFor(s.m.ledger, f.id))
  {
    Reached(env, ledger, actions);
    hide Exec;
    var s := Exec(env, Fresh(ledger), actions);
    assert FlightOk(env, s.m, s.flights[t], t);
  }

  /**
   A cancel marks a flight exactly when the ledger holds the flight's own row. Otherwise it is lost
   on that flight: it does not even change what the flight's own looks for a cancel will see.
   */
  lemma CancelIsHeardIff(env: Env, ledger: Ledger, actions: seq<Action>, t: nat)
    requires t < |Exec(env, Fresh(ledger), actions).flights| && Flying(Exec(env, Fresh(ledger), actions).flights[t].pc)
    ensures var s := Exec(env, Fresh(ledger), actions);
            var f, after := s.flights[t], Step(env, s, Cancel);
            && (after.flights[t].told <==> SameFlight(s.m.ledger, f.id))
            && (after.flights[t].told ==> ChainIsCancelled(env, f.goal, after.m.ledger))
            && (!after.flights[t].told ==>
                  (ChainIsCancelled(env, f.goal, after.m.ledger) <==> ChainIsCancelled(env, f.goal, s.m.ledger)))
            && (f.rowed ==> after.flights[t].told)
  {
    Reached(env, ledger, actions);
    hide Exec;
    var s := Exec(env, Fresh(ledger), actions);
    assert FlightOk(env, s.m, s.flights[t], t);
  }

  /** A marked flight that is not past a check starts nothing more, in any continuation. */
  lemma {:induction false} NothingMoreStarts(env: Env, s: State, actions: seq<Action>, t: nat)
    requires Inv(env, s) && t < |s.flights| && s.flights[t].told && !PastCheck(s.flights[t].pc)
    ensures t < |Exec(env, s, actions).flights| && Exec(env, s, actions).flights[t].starts == s.flights[t].starts
    decreases |actions|
  {
    if actions != [] {
      var next := Step(env, s, actions[0]);
      StepKeeps(env, s, actions[0]);
      StepStartsNone(env, s, actions[0], t);
      hide Inv, Step;
      NothingMoreStarts(env, next, actions[1..], t);
    }
  }

  lemma StepStartsNone(env: Env, s: State, a: Action, t: nat)
    requires Inv(env, s) && t < |s.flights| && s.flights[t].told && !PastCheck(s.flights[t].pc)
    ensures var next := Step(env, s, a);
            t < |next.flights| && next.flights[t].told && !PastCheck(next.flights[t].pc)
            && next.flights[t].starts == s.flights[t].starts
  {
    hide SaveChain, Names;
    assert FlightOk(env, s.m, s.flights[t], t);
  }

  // ----- a row left cancelled

  /** A named goal arrives, or a step that gives no flight the kernel's own observation. */
  predicate Gentle(env: Env, row: Row, a: Action) {
    match a
    case Arrive(goal) => Names(env, goal, row)
    case Act(_, choice) => !choice.Seeded?
    case Cancel => true
  }

  /** A flight under a cancelled row of an earlier one: it names the row's goal and has nothing to save. */
  ghost predicate Stopped(env: Env, row: Row, f: Flight) {
    && (!f.pc.Gone? ==> Names(env, f.goal, row))
    && (Holds(f.pc) ==> (f.pc in {Loading, Thinking, Leaving} || f.pc.Checking?) && !f.hops)
    && (Flying(f.pc) ==> f.id != row.id)
  }

  ghost predicate AllStopped(env: Env, s: State, row: Row) {
    && s.m.ledger == Some(row) && row.status == Cancelled && row.id < s.m.minted
    && forall t :: 0 <= t < |s.flights| ==> Stopped(env, row, s.flights[t])
  }

  lemma StoppedTurn(env: Env, m: Shared, f: Flight, t: nat, choice: Choice, row: Row)
    requires m.ledger == Some(row) && row.status == Cancelled && row.id < m.minted
    requires Stopped(env, row, f) && !choice.Seeded? && (f.pc.Arrived? ==> !f.hops)
    ensures var (m', f') := Turn(env, m, f, t, choice);
            Stopped(env, row, f') && m'.ledger == m.ledger && f'.starts == f.starts && m'.minted >= m.minted
  {
    hide Names;
  }

  lemma StoppedStep(env: Env, s: State, a: Action, row: Row)
    requires Inv(env, s) && AllStopped(env, s, row) && Gentle(env, row, a)
    ensures var next := Step(env, s, a);
            && AllStopped(env, next, row) && |s.flights| <= |next.flights|
            && (forall t :: 0 <= t < |next.flights| ==>
                  next.flights[t].starts == if t < |s.flights| then s.flights[t].starts else 0)
  {
    hide Stopped, Names, Turn;
    match a
    case Arrive(goal) =>
      NewIsStopped(env, goal, row);
    case Act(t, choice) =>
      if t < |s.flights| {
        assert FlightOk(env, s.m, s.flights[t], t);
        StoppedTurn(env, s.m, s.flights[t], t, choice, row);
      }
    case Cancel =>
  }

  lemma NewIsStopped(env: Env, goal: string, row: Row)
    requires Names(env, goal, row)
    ensures Stopped(env, row, Flight(goal, 0, Arrived, false, false, false, 0, 0))
  {}

  lemma {:induction false} StoppedStays(env: Env, s: State, actions: seq<Action>, row: Row)
    requires Inv(env, s) && AllStopped(env, s, row) && forall a :: a in actions ==> Gentle(env, row, a)
    ensures var end := Exec(env, s, actions);
            && end.m.ledger == Some(row) && |s.flights| <= |end.flights|
            && (forall t :: 0 <= t < |end.flights| ==>
                  end.flights[t].starts == if t < |s.flights| then s.flights[t].starts else 0)
    decreases |actions|
  {
    if actions != [] {
      StepKeeps(env, s, actions[0]);
      StoppedStep(env, s, actions[0], row);
      hide Inv, Step, AllStopped, Gentle;
      StoppedStays(env, Step(env, s, actions[0]), actions[1..], row);
    }
  }

  /**
   The look for a cancel goes by goal and not by flight. From a moment when nobody runs, a row left
   cancelled stays and stops every flight that names its goal, however many come: none starts any
   tool, as long as no other goal comes and none is given the kernel's own observation.
   */
  lemma StaleRowBlocks(env: Env, s: State, actions: seq<Action>, row: Row)
    requires Inv(env, s) && s.m.slot == None && s.m.ledger == Some(row) && row.status == Cancelled
    requires forall f :: f in s.flights && f.pc.Arrived? ==> Names(env, f.goal, row)
    requires forall a :: a in actions ==> Gentle(env, row, a)
    ensures var end := Exec(env, s, actions);
            && end.m.ledger == Some(row) && |s.flights| <= |end.flights|
            && (forall t :: 0 <= t < |end.flights| ==>
                  end.flights[t].starts == if t < |s.flights| then s.flights[t].starts else 0)
  {
    hide Names, Exec;
    forall t | 0 <= t < |s.flights| ensures Stopped(env, row, s.flights[t]) {
      assert FlightOk(env, s.m, s.flights[t], t) && s.flights[t] in s.flights;
    }
    StoppedStays(env, s, actions, row);
  }

  /** A successful save by a flight that is not the row's own. */
  predicate Overwrites(s: State, a: Action, row: Row) {
    a.Act? && a.t < |s.flights| && AtSave(s.flights[a.t].pc) && a.choice != Throws(Early) && s.flights[a.t].id != row.id
  }

  /**
   When the block ends: a step replaces a cancelled row if and only if it is a successful save of
   another flight; and that flight either does not name the row's goal, or saves its answer with no
   context but the kernel's own observation.
   */
  lemma BlockEndsIff(env: Env, s: State, a: Action, row: Row)
    requires Inv(env, s) && s.m.ledger == Some(row) && row.status == Cancelled
    ensures Step(env, s, a).m.ledger != Some(row) <==> Overwrites(s, a, row)
    ensures Overwrites(s, a, row) ==>
              var f := s.flights[a.t];
              Names(env, f.goal, row) ==> f.pc.SavingFinal? && f.hops && !f.rowed && f.starts == 0
  {
    hide Names;
    if a.Act? && a.t < |s.flights| {
      var f := s.flights[a.t];
      assert FlightOk(env, s.m, f, a.t);
      SaveKeepsCancelled(env, s.m.ledger, f.goal, f.id, Running);
      SaveKeepsCancelled(env, s.m.ledger, f.goal, f.id, Done);
      SaveKeepsCancelled(env, s.m.ledger, f.goal, f.id, Failed);
    }
  }

  // ----- a goal that is continued

  /** The stored goal is the goal itself up to 500 bytes. */
  lemma CutIs(s: string)
    ensures Cut(s) <= s && |Cut(s)| == Min(|s|, 500)
  {}

  /**
   What a save stores: nothing new over a cancelled row of its own; under a `continue` the goal and hash
   that its own row had, which was cut before; and in any other case the cut goal and the whole goal's hash.
   */
  lemma SaveRemembers(env: Env, ledger: Ledger, goal: string, id: nat, status: Status)
    ensures var saved := SaveChain(env, ledger, goal, id, status);
            if CancelledFor(ledger, id) then saved == ledger
            else
              && saved.Some? && saved.value.id == id && saved.value.status == status
              && if SameFlight(ledger, id) && env.isContinue(goal)
                 then
                   && saved.value.goalHash == ledger.value.goalHash && saved.value.goal == Cut(ledger.value.goal)
                   && (|ledger.value.goal| <= 500 ==> saved.value.goal == ledger.value.goal)
                 else saved.value.goal == Cut(goal) && saved.value.goalHash == env.hash(goal)
  {}

  /** What a flight's save records: that it runs, or, at the last one, how its hops went. */
  lemma TurnSaves(env: Env, m: Shared, f: Flight, t: nat, choice: Choice)
    requires AtSave(f.pc) && choice != Throws(Early) && !CancelledFor(m.ledger, f.id)
    ensures var (m', f') := Turn(env, m, f, t, choice);
            && m'.ledger.Some? && m'.ledger.value.id == f.id && f'.rowed
            && m'.ledger.value.status ==
               if !f.pc.SavingFinal? then Running else if choice == Answer(false) then Failed else Done
  {
    hide Cut;
  }

  /** A goal that can only go on with this task by `continue`, or by being its very goal; or not at all. */
  predicate Faithful(env: Env, row: Row, goal: string) {
    Names(env, goal, row) ==> env.isContinue(goal) || (Cut(goal) == row.goal && env.hash(goal) == row.goalHash)
  }

  predicate SameGoal(ledger: Ledger, row: Row) {
    && |row.goal| <= 500
    && (SameFlight(ledger, row.id) ==> ledger.value.goal == row.goal && ledger.value.goalHash == row.goalHash)
  }

  ghost predicate Remembers(env: Env, m: Shared, row: Row, f: Flight) {
    && (f.pc != Gone ==> Faithful(env, row, f.goal))
    && (Flying(f.pc) && f.id == row.id ==> Names(env, f.goal, row) && SameFlight(m.ledger, row.id))
  }

  ghost predicate AllRemember(env: Env, s: State, row: Row) {
    && s.m.ledger.Some? && row.id < s.m.minted && SameGoal(s.m.ledger, row)
    && forall t :: 0 <= t < |s.flights| ==> Remembers(env, s.m, row, s.flights[t])
  }

  lemma SavingRemembers(env: Env, m: Shared, f: Flight, status: Status, choice: Choice, next: Pc, row: Row)
    requires m.ledger.Some? && SameGoal(m.ledger, row) && Remembers(env, m, row, f) && Flying(f.pc)
    ensures var (m', f') := Saving(env, m, f, status, choice, next);
            && m'.ledger.Some? && SameGoal(m'.ledger, row) && (next != Gone ==> Remembers(env, m', row, f'))
            && m'.minted == m.minted
  {
    hide Cut, Names, Faithful;
    SaveRemembers(env, m.ledger, f.goal, f.id, status);
    if f.id == row.id && !env.isContinue(f.goal) { FaithfulMeans(env, row, f.goal); }
  }

  lemma FaithfulMeans(env: Env, row: Row, goal: string)
    requires Faithful(env, row, goal) && Names(env, goal, row) && !env.isContinue(goal)
    ensures Cut(goal) == row.goal && env.hash(goal) == row.goalHash
  {}

  lemma NamesTheSame(env: Env, ledger: Ledger, row: Row, goal: string)
    requires SameFlight(ledger, row.id) && SameGoal(ledger, row)
    ensures Names(env, goal, ledger.value) <==> Names(env, goal, row)
  {}

  lemma TurnRemembers(env: Env, m: Shared, f: Flight, t: nat, choice: Choice, row: Row)
    requires m.ledger.Some? && row.id < m.minted && SameGoal(m.ledger, row) && Remembers(env, m, row, f)
    ensures var (m', f') := Turn(env, m, f, t, choice);
            m'.ledger.Some? && row.id < m'.minted && SameGoal(m'.ledger, row) && Remembers(env, m', row, f')
  {
    hide Cut, Names, Faithful, SaveChain, ChainIsCancelled;
    if AtSave(f.pc) {
      SaveTurnRemembers(env, m, f, t, choice, row);
    } else if f.pc.Loading? && SameFlight(m.ledger, row.id) {
      NamesTheSame(env, m.ledger, row, f.goal);
    }
  }

  lemma SaveTurnRemembers(env: Env, m: Shared, f: Flight, t: nat, choice: Choice, row: Row)
    requires AtSave(f.pc)
    requires m.ledger.Some? && row.id < m.minted && SameGoal(m.ledger, row) && Remembers(env, m, row, f)
    ensures var (m', f') := Turn(env, m, f, t, choice);
            m'.ledger.Some? && row.id < m'.minted && SameGoal(m'.ledger, row) && Remembers(env, m', row, f')
  {
    hide Cut, Names, Faithful, SaveChain, ChainIsCancelled;
    match f.pc {
      case SavingBefore(calls) =>
        SavingRemembers(env, m, f, Running, choice, if calls > 0 then CheckingCall(calls) else StartingBatch, row);
      case SavingAfter => SavingRemembers(env, m, f, Running, choice, Thinking, row);
      case SavingFinal =>
        SavingRemembers(env, m, f, if choice == Answer(false) then Failed else Done, choice, Leaving, row);
    }
  }

  /** A step of one flight leaves the row of another that is under way. */
  lemma OthersRemember(env: Env, s: State, t: nat, choice: Choice, row: Row, u: nat)
    requires Inv(env, s) && AllRemember(env, s, row) && t < |s.flights| && u < |s.flights| && u != t
    ensures Remembers(env, Turn(env, s.m, s.flights[t], t, choice).0, row, s.flights[u])
  {
    hide Cut, Names, Faithful, SaveChain, RowOk;
    assert FlightOk(env, s.m, s.flights[t], t) && FlightOk(env, s.m, s.flights[u], u);
    assert Remembers(env, s.m, row, s.flights[u]);
  }

  lemma StepRemembers(env: Env, s: State, a: Action, row: Row)
    requires Inv(env, s) && AllRemember(env, s, row)
    requires a.Arrive? ==> Faithful(env, row, a.goal)
    ensures AllRemember(env, Step(env, s, a), row)
  {
    hide Turn, Faithful, Names, Inv;
    if a.Act? && a.t < |s.flights| {
      TurnRemembers(env, s.m, s.flights[a.t], a.t, a.choice, row);
      forall u | 0 <= u < |s.flights| && u != a.t
        ensures Remembers(env, Turn(env, s.m, s.flights[a.t], a.t, a.choice).0, row, s.flights[u])
      {
        OthersRemember(env, s, a.t, a.choice, row, u);
      }
    }
  }

  lemma {:induction false} ExecRemembers(env: Env, s: State, actions: seq<Action>, row: Row)
    requires Inv(env, s) && AllRemember(env, s, row)
    requires forall a :: a in actions && a.Arrive? ==> Faithful(env, row, a.goal)
    ensures AllRemember(env, Exec(env, s, actions), row)
    decreases |actions|
  {
    if actions != [] {
      StepKeeps(env, s, actions[0]);
      StepRemembers(env, s, actions[0], row);
      hide Inv, Step, AllRemember, Faithful;
      ExecRemembers(env, Step(env, s, actions[0]), actions[1..], row);
    }
  }

  /**
   A task keeps its goal: from a moment when nobody runs, however many flights go on with it by `continue`
   or by the goal itself, and whatever they save, a row with its id has its goal and hash, and every goal
   that names the task still does. A stored goal is never longer than 500 bytes.
   */
  lemma GoalIsRemembered(env: Env, s: State, actions: seq<Action>, row: Row)
    requires Inv(env, s) && s.m.slot == None && s.m.ledger == Some(row) && |row.goal| <= 500
    requires forall f :: f in s.flights ==> Faithful(env, row, f.goal)
    requires forall a :: a in actions && a.Arrive? ==> Faithful(env, row, a.goal)
    ensures var ledger := Exec(env, s, actions).m.ledger;
            && ledger.Some?
            && (ledger.value.id == row.id ==>
                  && ledger.value.goal == row.goal && ledger.value.goalHash == row.goalHash
                  && forall goal :: Names(env, goal, row) ==> Names(env, goal, ledger.value))
  {
    hide Faithful, Exec;
    forall t | 0 <= t < |s.flights| ensures Remembers(env, s.m, row, s.flights[t]) {
      assert FlightOk(env, s.m, s.flights[t], t) && s.flights[t] in s.flights;
    }
    ExecRemembers(env, s, actions, row);
  }

  // ----- a cancel that comes too early, run by run

  const IDENTITY := Env((s: string) => s, (s: string) => false)

  function Lone(pc: Pc, ledger: Ledger, rowed: bool, starts: nat): State {
    State(Shared(Some(0), ledger, 1), [Flight("g", 0, pc, false, rowed, false, starts, 0)])
  }

  lemma LostBegins()
    ensures Step(IDENTITY, Step(IDENTITY, Step(IDENTITY, Fresh(None), Arrive("g")), Act(0, Carry)), Act(0, Carry))
            == Lone(Thinking, None, false, 0)
  {}

  lemma LostMiddle()
    ensures var told := Step(IDENTITY, Lone(Thinking, None, false, 0), Cancel);
            Step(IDENTITY, Step(IDENTITY, told, Act(0, Tools(1))), Act(0, Carry))
            == Lone(SavingBefore(1), None, false, 0)
  {}

  lemma LostEnds()
    ensures var go := Act(0, Carry);
            Step(IDENTITY, Step(IDENTITY, Step(IDENTITY, Lone(SavingBefore(1), None, false, 0), go), go), go)
            == Lone(CheckingCall(0), Some(Row(0, Running, "g", "g")), true, 1)
  {}

  /**
   A lost cancel with all that follows: while a flight thinks before its first row, it leaves a
   running row and a started tool.
   */
  lemma CancelBeforeFirstRowIsLost()
    ensures exists actions, s ::
              s == Exec(IDENTITY, Fresh(None), actions)
              && Cancel in actions && |s.flights| == 1 && s.flights[0].starts == 1 && !s.flights[0].told
              && s.m.ledger.Some? && s.m.ledger.value.status == Running
  {
    hide Step, Exec;
    var go, tools := Act(0, Carry), Act(0, Tools(1));
    LostBegins();
    LostMiddle();
    LostEnds();
    var end := Lone(CheckingCall(0), Some(Row(0, Running, "g", "g")), true, 1);
    Three(Lone(SavingBefore(1), None, false, 0), go, go, go, []);
    Three(Lone(Thinking, None, false, 0), Cancel, tools, go, [go, go, go] + []);
    Three(Fresh(None), Arrive("g"), go, go, [Cancel, tools, go] + ([go, go, go] + []));
    var actions := [Arrive("g"), go, go] + ([Cancel, tools, go] + ([go, go, go] + []));
    assert actions[3] == Cancel;
    NoActions(end);
    assert end == Exec(IDENTITY, Fresh(None), actions);
  }

  lemma NoActions(s: State)
    ensures Exec(IDENTITY, s, []) == s
  {}

  lemma Three(s: State, a: Action, b: Action, c: Action, rest: seq<Action>)
    ensures Exec(IDENTITY, s, [a, b, c] + rest) ==
            Exec(IDENTITY, Step(IDENTITY, Step(IDENTITY, Step(IDENTITY, s, a), b), c), rest)
  {
    hide Step;
    One(s, a, [b, c] + rest);
    One(Step(IDENTITY, s, a), b, [c] + rest);
    One(Step(IDENTITY, Step(IDENTITY, s, a), b), c, rest);
    assert [a] + ([b, c] + rest) == [a, b, c] + rest;
    assert [b] + ([c] + rest) == [b, c] + rest;
  }

  lemma One(s: State, a: Action, rest: seq<Action>)
    ensures Exec(IDENTITY, s, [a] + rest) == Exec(IDENTITY, Step(IDENTITY, s, a), rest)
  {
    hide Step;
    assert ([a] + rest)[1..] == rest;
  }

  // ----- the shared objects as the program updates them

  /** Where a rewrite of the ledger fails: up to reading it, while writing it, or at the event log after that. */
  datatype Fault = AtRead | AtFile | AtEvents

  class Kernel {
    /** The slot word: 0 is free, anything else the tick of the last stamp. */
    var word: nat
    var ledger: Ledger

    method TryAcquire(tick: nat) returns (held: bool)
      modifies this`word
      ensures held <==> old(word) == 0
      ensures word == if held then Max(tick, 1) else old(word)
    {
      held := word == 0;
      if held { Stamp(tick); }
    }

    /** A tick of 0 must not free the slot. */
    method Stamp(tick: nat)
      modifies this`word
      ensures word == Max(tick, 1)
    {
      word := if tick == 0 then 1 else tick;
    }

    method Release()
      modifies this`word
      ensures word == 0
    {
      word := 0;
    }

    /**
     save_chain. A throw leaves the old ledger, or, when only the event could not be written, the
     fully saved one; over a row kept cancelled only the read can throw.
     */
    method Save(env: Env, goal: string, id: nat, answer: bool, hopsOk: bool, fault: Option<Fault>) returns (threw: bool)
      modifies this`ledger
      ensures var status := if !answer then Running else if hopsOk then Done else Failed;
              var saved := SaveChain(env, old(ledger), goal, id, status);
              && (threw <==> fault == Some(AtRead) || (fault.Some? && !CancelledFor(old(ledger), id)))
              && ledger == if threw && !fault.value.AtEvents? then old(ledger) else saved
    {
      if fault == Some(AtRead) { return true; }
      var same := ledger.Some? && ledger.value.id == id;
      if same && ledger.value.status == Cancelled { return false; }
      var saved, hash := goal, env.hash(goal);
      if same && env.isContinue(goal) { saved, hash := ledger.value.goal, ledger.value.goalHash; }
      var status := Running;
      if answer { status := if hopsOk then Done else Failed; }
      if fault == Some(AtFile) { return true; }
      ledger := Some(Row(id, status, Cut(saved), hash));
      return fault.Some?;
    }

    /** handle_cancel_chain: a throw at the event log leaves the row cancelled all the same. */
    method CancelNow(fault: Option<Fault>) returns (threw: bool)
      modifies this`ledger
      ensures threw <==>
              fault == Some(AtRead) || (fault.Some? && old(ledger).Some? && old(ledger).value.status == Running)
      ensures ledger == if threw && !fault.value.AtEvents? then old(ledger) else CancelChain(old(ledger))
    {
      if fault == Some(AtRead) { return true; }
      if ledger.None? || ledger.value.status != Running { return false; }
      if fault == Some(AtFile) { return true; }
      ledger := Some(ledger.value.(status := Cancelled));
      return fault.Some?;
    }

    method IsCancelled(env: Env, goal: string) returns (cancelled: bool)
      ensures cancelled == ChainIsCancelled(env, goal, ledger)
    {
      if ledger.None? || ledger.value.status != Cancelled { return false; }
      return goal == ledger.value.goal || env.isContinue(goal) || env.hash(goal) == ledger.value.goalHash;
    }

    /**
     One request with one turn of native calls, with no other thread moving: the slot is taken and
     stamped anew, there is a look for a cancel before anything and before each call, a row before
     and after, and the slot is free again. Nothing is started under a cancelled row.
     */
    method NativeTurn(env: Env, goal: string, id: nat, calls: nat, tick: nat, later: nat)
      returns (busy: bool, started: nat)
      requires SameFlight(ledger, id) ==> Names(env, goal, ledger.value)
      modifies this
      ensures busy <==> old(word) != 0
      ensures word == old(word)
      ensures started == if busy || ChainIsCancelled(env, goal, old(ledger)) then 0 else calls
      ensures ledger == if busy || ChainIsCancelled(env, goal, old(ledger)) then old(ledger)
                        else SaveChain(env, SaveChain(env, old(ledger), goal, id, Running), goal, id, Running)
    {
      hide Names, Cut;
      var held := TryAcquire(tick);
      if !held { return true, 0; }
      Stamp(later);
      busy, started := false, 0;
      var cancelled := IsCancelled(env, goal);
      if cancelled { Release(); return; }
      OwnRowNames(env, ledger, goal, id, Running);
      SaveKeepsCancelled(env, ledger, goal, id, Running);
      var threw := Save(env, goal, id, false, true, None);
      ghost var saved := ledger;
      while started < calls
        invariant started <= calls && ledger == saved
      {
        cancelled := IsCancelled(env, goal);
        if cancelled { break; }
        started := started + 1;
      }
      cancelled := IsCancelled(env, goal);
      if !cancelled { threw := Save(env, goal, id, false, true, None); }
      Release();
    }
  }
}
