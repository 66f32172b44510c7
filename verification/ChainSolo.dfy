/** One round of tools of the kernel's interleaved model, with no other thread moving and nothing failing. */
module ChainSolo {
  import opened Text
  import opened ChainLedger

  /** The next n actions of a flight that holds the slot. */
  function Solo(env: Env, m: Shared, f: Flight, t: nat, n: nat): (Shared, Flight)
    decreases n
  {
    if n == 0 then (m, f) else
    var (m', f') := Turn(env, m, f, t, Carry);
    Solo(env, m', f', t, n - 1)
  }

  lemma SoloOn(env: Env, m: Shared, f: Flight, t: nat, n: nat)
    requires n > 0
    ensures var (m', f') := Turn(env, m, f, t, Carry); Solo(env, m, f, t, n) == Solo(env, m', f', t, n - 1)
  {
    hide Turn;
  }

  /** A save by a flight whose row is not cancelled leaves it running, and its own. */
  lemma SavedRuns(env: Env, ledger: Ledger, goal: string, id: nat)
    requires !CancelledFor(ledger, id)
    ensures var saved := SaveChain(env, ledger, goal, id, Running);
            saved.Some? && saved.value.id == id && saved.value.status == Running
    ensures !ChainIsCancelled(env, goal, SaveChain(env, ledger, goal, id, Running))
  {
    hide Cut, Names;
    SaveRemembers(env, ledger, goal, id, Running);
  }

  /** The native calls that are left, each after its own look, and the save after them. */
  lemma {:induction false} SoloCalls(env: Env, m: Shared, f: Flight, t: nat, left: nat)
    requires f.pc == CheckingCall(left) && SameFlight(m.ledger, f.id) && m.ledger.value.status == Running && !f.told
    ensures Solo(env, m, f, t, 2 * left + 3) ==
            (m.(ledger := SaveChain(env, m.ledger, f.goal, f.id, Running)),
             f.(pc := Thinking, hops := true, rowed := true, starts := f.starts + left))
    decreases left
  {
    hide Solo, Cut, Names, SaveChain;
    SoloOn(env, m, f, t, 2 * left + 3);
    if left > 0 {
      var g := f.(pc := Starting(left));
      SoloOn(env, m, g, t, 2 * left + 2);
      SoloCalls(env, m, g.(pc := CheckingCall(left - 1), starts := f.starts + 1), t, left - 1);
    } else {
      var g := f.(pc := CheckingAfter);
      SoloOn(env, m, g, t, 2);
      SoloOn(env, m, g.(pc := SavingAfter, hops := true), t, 1);
      SoloEnds(env, m.(ledger := SaveChain(env, m.ledger, f.goal, f.id, Running)),
               f.(pc := Thinking, hops := true, rowed := true), t);
    }
  }

  lemma SoloEnds(env: Env, m: Shared, f: Flight, t: nat)
    ensures Solo(env, m, f, t, 0) == (m, f)
  {}

  /** The actions of a round: two before its tools, two for each native call, and three after the last. */
  function Length(calls: nat): nat { if calls == 0 then 4 else 2 + (2 * calls + 3) }

  /**
   A round of tools that nobody disturbs. Under a cancelled row nothing starts, and the flight saves what
   it has or leaves; otherwise every native call is started, or the legacy batch once, with a row saved
   before and after, and the model is asked again.
   */
  lemma RoundAlone(env: Env, m: Shared, f: Flight, t: nat, calls: nat)
    requires f.pc == Checking(calls) && !f.told
    requires SameFlight(m.ledger, f.id) ==> Names(env, f.goal, m.ledger.value)
    ensures if ChainIsCancelled(env, f.goal, m.ledger) then
              Turn(env, m, f, t, Carry) == (m, f.(pc := if f.hops then SavingFinal else Leaving))
            else
              var saved := SaveChain(env, m.ledger, f.goal, f.id, Running);
              Solo(env, m, f, t, Length(calls)) ==
              (m.(ledger := SaveChain(env, saved, f.goal, f.id, Running)),
               f.(pc := Thinking, hops := true, rowed := true, starts := f.starts + if calls == 0 then 1 else calls))
  {
    hide Solo, Cut, Names, SaveChain;
    if !ChainIsCancelled(env, f.goal, m.ledger) {
      SavedRuns(env, m.ledger, f.goal, f.id);
      var m1 := m.(ledger := SaveChain(env, m.ledger, f.goal, f.id, Running));
      var f1 := f.(pc := SavingBefore(calls));
      SoloOn(env, m, f, t, Length(calls));
      SoloOn(env, m, f1, t, Length(calls) - 1);
      if calls > 0 {
        SoloCalls(env, m1, f.(pc := CheckingCall(calls), rowed := true), t, calls);
      } else {
        var f2 := f.(pc := StartingBatch, rowed := true);
        SoloOn(env, m1, f2, t, 2);
        SoloOn(env, m1, f2.(pc := SavingAfter, hops := true, starts := f.starts + 1), t, 1);
        SoloEnds(env, m1.(ledger := SaveChain(env, m1.ledger, f.goal, f.id, Running)),
                 f2.(pc := Thinking, hops := true, starts := f.starts + 1), t);
      }
    }
  }

  /** A flight that holds the slot takes the identity of a running task it names, and otherwise a fresh one. */
  lemma Identity(env: Env, m: Shared, f: Flight, t: nat)
    requires f.pc == Loading
    ensures var (m', f') := Turn(env, m, f, t, Carry);
            && m' == m.(minted := m.minted + 1) && f'.pc == Thinking
            && f'.id == if m.ledger.Some? && m.ledger.value.status == Running && Names(env, f.goal, m.ledger.value)
                        then m.ledger.value.id else m.minted
  {
    hide Names;
  }

  /** A model that answers ends the rounds: what it says is saved where tools gave it context, and the slot is
    * given back. */
  lemma AnswerAlone(env: Env, m: Shared, f: Flight, t: nat, ok: bool)
    requires f.pc == Thinking && m.slot == Some(t)
    ensures var (_, g) := Turn(env, m, f, t, Answer(ok));
            && g.pc == (if f.hops then SavingFinal else Leaving)
            && (f.hops ==> Turn(env, m, g, t, Answer(ok)).1.pc == Leaving)
            && Turn(env, m, g.(pc := Leaving), t, Carry) == (m.(slot := None), g.(pc := Gone))
  {
    hide SaveChain, Names;
  }
}
