/** Exactly when the rounds of an attachment plan fail, for any token counter. */
module AttachmentFailures {
  import opened Text
  import opened WindowSearch
  import opened ReviewPlan
  import opened AttachmentPlan

  // ----- one round

  /** A document without a window is one for which none of the ends tried fits its share. */
  lemma NoWindowIff(env: Env, budget: int, docs: Documents, at: seq<nat>, doc: nat)
    requires Positions(docs, at) && doc in Active(docs, at, |docs|)
    ensures doc < |docs| && at[doc] < |docs[doc]|
    ensures NextWindow(env, docs, at, doc, Allowance(env, budget, |Active(docs, at, |docs|)|)).None? <==>
            NothingFits(env, budget, docs, at, doc)
  {
    hide Allowance, WindowFits, Halves, WindowOf, Search;
    var allowance := Allowance(env, budget, |Active(docs, at, |docs|)|);
    var fitting := AttachmentPlan.Fitting(env, docs, doc, at[doc], allowance);
    GivesUpIff(fitting, at[doc] + 1, |docs[doc]|);
    forall m: nat ensures fitting(m) == WindowFits(env, docs, doc, at[doc], allowance, m) {}
  }

  /** The first of the documents without a window is the one that is named. */
  lemma {:induction false} WindowsFailIff(env: Env, docs: Documents, at: seq<nat>, ids: seq<nat>, allowance: int,
                                          k: nat, f: Failure)
    requires Positions(docs, at) && k <= |ids| && Unfinished(docs, at, ids)
    ensures WindowsFrom(env, docs, at, ids, allowance, k) == NoWindow(f) <==>
            exists j :: k <= j < |ids| && FirstWithout(env, docs, at, ids, allowance, k, j)
                        && f == Failure.CannotFit(ids[j], at[ids[j]] + 1)
    decreases |ids| - k
  {
    hide NextWindow, WindowsFrom;
    WindowsStep(env, docs, at, ids, allowance, k);
    if k < |ids| {
      WindowsFailIff(env, docs, at, ids, allowance, k + 1, f);
      if NextWindow(env, docs, at, ids[k], allowance).None? {
        assert FirstWithout(env, docs, at, ids, allowance, k, k);
      } else {
        forall j | k < j < |ids|
          ensures FirstWithout(env, docs, at, ids, allowance, k, j) <==>
                  FirstWithout(env, docs, at, ids, allowance, k + 1, j) {}
      }
    }
  }

  predicate FirstWithout(env: Env, docs: Documents, at: seq<nat>, ids: seq<nat>, allowance: int, k: nat, j: nat)
    requires Positions(docs, at) && k <= j < |ids| && Unfinished(docs, at, ids)
  {
    && NextWindow(env, docs, at, ids[j], allowance).None?
    && forall i :: k <= i < j ==> NextWindow(env, docs, at, ids[i], allowance).Some?
  }

  /** The first unfinished document for which nothing fits. */
  ghost predicate FirstToFail(env: Env, budget: int, docs: Documents, at: seq<nat>, doc: nat) {
    NothingFits(env, budget, docs, at, doc) && forall i: nat :: i < doc ==> !NothingFits(env, budget, docs, at, i)
  }

  lemma FirstIff(env: Env, budget: int, docs: Documents, at: seq<nat>, j: nat)
    requires Positions(docs, at) && j < |Active(docs, at, |docs|)|
    ensures var ids := Active(docs, at, |docs|);
            && Unfinished(docs, at, ids)
            && (FirstWithout(env, docs, at, ids, Allowance(env, budget, |ids|), 0, j) <==>
                FirstToFail(env, budget, docs, at, ids[j]))
  {
    hide Allowance, NothingFits, NextWindow, Active;
    var ids := Active(docs, at, |docs|);
    ActiveUnfinished(docs, at);
    OnlyActiveStop(env, budget, docs, at);
    forall i | 0 <= i < |ids|
      ensures NextWindow(env, docs, at, ids[i], Allowance(env, budget, |ids|)).None? <==>
              NothingFits(env, budget, docs, at, ids[i])
    {
      NoWindowIff(env, budget, docs, at, ids[i]);
    }
    if FirstWithout(env, docs, at, ids, Allowance(env, budget, |ids|), 0, j) {
      forall i: nat | i < ids[j] ensures !NothingFits(env, budget, docs, at, i) {
        if i in ids {
          var k :| 0 <= k < |ids| && ids[k] == i;
          assert k < j;
        }
      }
    }
  }

  lemma OnlyActiveStop(env: Env, budget: int, docs: Documents, at: seq<nat>)
    requires Positions(docs, at)
    ensures forall i: nat :: NothingFits(env, budget, docs, at, i) ==> i in Active(docs, at, |docs|)
  {}

  /**
   A round names a document and a line exactly when that is the first unfinished document for which
   nothing fits its share; it is refused as a whole exactly when each has a window and they are too much.
   */
  lemma RoundFailsIff(env: Env, budget: int, docs: Documents, at: seq<nat>, doc: nat, line: nat)
    requires Positions(docs, at)
    ensures RoundAt(env, budget, docs, at) == Stuck(Failure.CannotFit(doc, line)) <==>
            FirstToFail(env, budget, docs, at, doc) && line == at[doc] + 1
    ensures RoundAt(env, budget, docs, at) == Stuck(CombinedTooBig) <==>
            var ids := Active(docs, at, |docs|);
            && ids != [] && Unfinished(docs, at, ids)
            && var r := WindowsFrom(env, docs, at, ids, Allowance(env, budget, |ids|), 0);
               r.Windows? && env.count(r.ws) > budget
  {
    hide Allowance, NothingFits, WindowsFrom, RoundAt, FirstWithout, FirstToFail, Unfinished, Active;
    var ids := Active(docs, at, |docs|);
    FinishedIff(env, budget, docs, at);
    NamesActive(env, budget, docs, at, doc);
    if ids != [] {
      RoundIs(env, budget, docs, at);
      var f := Failure.CannotFit(doc, line);
      WindowsFailIff(env, docs, at, ids, Allowance(env, budget, |ids|), 0, f);
      forall j | 0 <= j < |ids|
        ensures FirstWithout(env, docs, at, ids, Allowance(env, budget, |ids|), 0, j) <==>
                FirstToFail(env, budget, docs, at, ids[j])
      {
        FirstIff(env, budget, docs, at, j);
      }
      if FirstToFail(env, budget, docs, at, doc) {
        var j :| 0 <= j < |ids| && ids[j] == doc;
        assert FirstWithout(env, docs, at, ids, Allowance(env, budget, |ids|), 0, j);
      }
    }
  }

  lemma NamesActive(env: Env, budget: int, docs: Documents, at: seq<nat>, doc: nat)
    requires Positions(docs, at)
    ensures FirstToFail(env, budget, docs, at, doc) ==> doc in Active(docs, at, |docs|)
  {
    hide Active;
  }

  // ----- the whole plan

  /** The planner's own rounds lead from one place to another in k steps. */
  ghost predicate Walks(env: Env, budget: int, docs: Documents, at: seq<nat>, to: seq<nat>, k: nat)
    decreases k
  {
    && Positions(docs, at)
    && if k == 0 then at == to
       else
         var turn := RoundAt(env, budget, docs, at);
         turn.Moves? && Walks(env, budget, docs, Advance(at, turn.ws), to, k - 1)
  }

  ghost predicate StuckAt(env: Env, budget: int, docs: Documents, to: seq<nat>, f: Failure) {
    Positions(docs, to) && RoundAt(env, budget, docs, to) == Stuck(f)
  }

  ghost predicate StopsAfter(env: Env, budget: int, docs: Documents, at: seq<nat>, to: seq<nat>, k: nat, f: Failure) {
    Walks(env, budget, docs, at, to, k) && StuckAt(env, budget, docs, to, f)
  }

  /** At most so many of the planner's own rounds lead to a place where the next one fails like this. */
  ghost predicate Stops(env: Env, budget: int, docs: Documents, at: seq<nat>, most: nat, f: Failure) {
    exists k: nat, to: seq<nat> :: k <= most && StopsAfter(env, budget, docs, at, to, k, f)
  }

  /** So many rounds can be made. */
  ghost predicate Long(env: Env, budget: int, docs: Documents, at: seq<nat>, k: nat) {
    exists to: seq<nat> :: Walks(env, budget, docs, at, to, k)
  }

  lemma StopsOn(env: Env, budget: int, docs: Documents, at: seq<nat>, most: nat, f: Failure)
    requires Positions(docs, at)
    ensures var turn := RoundAt(env, budget, docs, at);
            Stops(env, budget, docs, at, most, f) <==>
            turn == Stuck(f)
            || (most > 0 && turn.Moves? && Stops(env, budget, docs, Advance(at, turn.ws), most - 1, f))
  {
    hide RoundAt, Advance, Positions;
    var turn := RoundAt(env, budget, docs, at);
    if Stops(env, budget, docs, at, most, f) {
      var k: nat, to: seq<nat> :| k <= most && StopsAfter(env, budget, docs, at, to, k, f);
      if k > 0 { assert StopsAfter(env, budget, docs, Advance(at, turn.ws), to, k - 1, f); }
    }
    if turn == Stuck(f) { assert StopsAfter(env, budget, docs, at, at, 0, f); }
    if most > 0 && turn.Moves? && Stops(env, budget, docs, Advance(at, turn.ws), most - 1, f) {
      var k: nat, to: seq<nat> :| k <= most - 1 && StopsAfter(env, budget, docs, Advance(at, turn.ws), to, k, f);
      assert StopsAfter(env, budget, docs, at, to, k + 1, f);
    }
  }

  lemma LongOn(env: Env, budget: int, docs: Documents, at: seq<nat>, k: nat)
    requires Positions(docs, at)
    ensures Long(env, budget, docs, at, 0)
    ensures k > 0 ==>
              (Long(env, budget, docs, at, k) <==>
               var turn := RoundAt(env, budget, docs, at);
               turn.Moves? && Long(env, budget, docs, Advance(at, turn.ws), k - 1))
  {
    hide RoundAt, Advance, Positions;
    var turn := RoundAt(env, budget, docs, at);
    assert Walks(env, budget, docs, at, at, 0);
    if k > 0 && Long(env, budget, docs, at, k) {
      var to: seq<nat> :| Walks(env, budget, docs, at, to, k);
      assert Walks(env, budget, docs, Advance(at, turn.ws), to, k - 1);
    }
    if k > 0 && turn.Moves? && Long(env, budget, docs, Advance(at, turn.ws), k - 1) {
      var to: seq<nat> :| Walks(env, budget, docs, Advance(at, turn.ws), to, k - 1);
      assert Walks(env, budget, docs, at, to, k);
    }
  }

  /**
   Exactly when an attachment plan fails: its own rounds, at most 16, lead to a round that fails like
   this; or they number more than 16.
   */
  lemma {:induction false} RoundsFailIff(env: Env, budget: int, docs: Documents, at: seq<nat>, n: nat, f: Failure)
    requires Positions(docs, at) && n <= MAX_PARTS && f != Failure.TooManyParts
    ensures PlanFrom(env, budget, docs, at, n) == Failed(f) <==> Stops(env, budget, docs, at, MAX_PARTS - n, f)
    ensures PlanFrom(env, budget, docs, at, n) == Failed(Failure.TooManyParts) <==>
            Long(env, budget, docs, at, MAX_PARTS + 1 - n)
    decreases Remaining(docs, at, |docs|)
  {
    hide RoundAt, PlanFrom, Advance, Stops, Long, Round, Remaining;
    PlanUnfolds(env, budget, docs, at, n);
    StopsOn(env, budget, docs, at, MAX_PARTS - n, f);
    LongOn(env, budget, docs, at, MAX_PARTS + 1 - n);
    var turn := RoundAt(env, budget, docs, at);
    if turn.Moves? {
      LongOn(env, budget, docs, Advance(at, turn.ws), 0);
      if n < MAX_PARTS { RoundsFailIff(env, budget, docs, Advance(at, turn.ws), n + 1, f); }
    }
  }
}
