/** Interval editing in lyrics_loop.py. Times are seconds as reals; rounding and formatting are left out. */
module LyricsLoop {
  import opened Text

  datatype Seg = Seg(t0: real, t1: real, text: string, locked: bool)

  predicate StartSorted(segs: seq<Seg>) { forall i, j :: 0 <= i < j < |segs| ==> segs[i].t0 <= segs[j].t0 }

  function MaxReal(a: real, b: real): real { if a < b then b else a }

  function MinReal(a: real, b: real): real { if b < a then b else a }

  // ----- grouping unlocked segments into clips

  const GAP := 0.8
  const PAD := 0.25

  /** The groups from an open one on. */
  function Groups(cur: Seg, rest: seq<Seg>): (groups: seq<Seg>)
    ensures groups != []
    decreases |rest|
  {
    if rest == [] then [cur]
    else if rest[0].t0 <= cur.t1 + GAP then Groups(cur.(t1 := MaxReal(cur.t1, rest[0].t1)), rest[1..])
    else [cur] + Groups(rest[0], rest[1..])
  }

  method RedoGroups(unlocked: seq<Seg>) returns (groups: seq<Seg>)
    requires unlocked != []
    ensures groups == Groups(unlocked[0], unlocked[1..])
  {
    groups := [];
    var cur := unlocked[0];
    for k := 1 to |unlocked|
      invariant groups + Groups(cur, unlocked[k..]) == Groups(unlocked[0], unlocked[1..])
    {
      var s := unlocked[k];
      assert unlocked[k..][1..] == unlocked[k + 1..];
      if s.t0 <= cur.t1 + GAP {
        cur := cur.(t1 := MaxReal(cur.t1, s.t1));
      } else {
        assert groups + ([cur] + Groups(s, unlocked[k + 1..])) == groups + [cur] + Groups(s, unlocked[k + 1..]);
        groups := groups + [cur];
        cur := s;
      }
    }
    assert unlocked[|unlocked|..] == [];
    groups := groups + [cur];
  }

  predicate Within(s: Seg, g: Seg) { g.t0 <= s.t0 && s.t1 <= g.t1 }

  ghost predicate Covered(gs: seq<Seg>, s: Seg) { exists g :: g in gs && Within(s, g) }

  /** More than the gap apart, in order. */
  predicate Apart(groups: seq<Seg>) { forall i, j :: 0 <= i < j < |groups| ==> groups[i].t1 + GAP < groups[j].t0 }

  /** The first group keeps its start and no group starts before it; ends only grow. */
  lemma {:induction false} GroupsStart(cur: Seg, rest: seq<Seg>)
    ensures var gs := Groups(cur, rest); gs[0].t0 == cur.t0 && cur.t1 <= gs[0].t1
    decreases |rest|
  {
    if rest != [] && rest[0].t0 <= cur.t1 + GAP {
      GroupsStart(cur.(t1 := MaxReal(cur.t1, rest[0].t1)), rest[1..]);
    }
  }

  lemma {:induction false} GroupsCover(cur: Seg, rest: seq<Seg>, x: Seg)
    requires StartSorted([cur] + rest) && (x == cur || x in rest)
    ensures Covered(Groups(cur, rest), x)
    decreases |rest|
  {
    var gs := Groups(cur, rest);
    GroupsStart(cur, rest);
    assert Within(cur, gs[0]) && gs[0] in gs;
    if rest != [] && x != cur {
      var s := rest[0];
      SortedTail(cur, rest);
      assert x == s || x in rest[1..];
      hide StartSorted;
      if s.t0 > cur.t1 + GAP {
        GroupsCover(s, rest[1..], x);
        CoveredFirst(cur, Groups(s, rest[1..]), x);
      } else {
        var next := cur.(t1 := MaxReal(cur.t1, s.t1));
        if x == s {
          GroupsStart(next, rest[1..]);
          assert Within(s, gs[0]);
        } else {
          GroupsCover(next, rest[1..], x);
        }
      }
    }
  }

  /** Sortedness passes to the next open group, joined or not. */
  lemma SortedTail(cur: Seg, rest: seq<Seg>)
    requires StartSorted([cur] + rest) && rest != []
    ensures forall x: Seg :: x.t0 == cur.t0 || x == rest[0] ==> StartSorted([x] + rest[1..])
    ensures cur.t0 <= rest[0].t0
  {
    var all := [cur] + rest;
    assert all[0].t0 <= all[1].t0;
    forall x: Seg | x.t0 == cur.t0 || x == rest[0] ensures StartSorted([x] + rest[1..]) {
      var xs := [x] + rest[1..];
      forall i, j | 0 <= i < j < |xs| ensures xs[i].t0 <= xs[j].t0 {
        assert xs[j] == all[j + 1];
        if i > 0 {
          assert xs[i] == all[i + 1];
        } else {
          assert all[0].t0 <= all[j + 1].t0 && all[1].t0 <= all[j + 1].t0;
        }
      }
    }
  }

  lemma {:induction false} GroupsApart(cur: Seg, rest: seq<Seg>)
    requires StartSorted([cur] + rest)
    ensures Apart(Groups(cur, rest)) && forall g :: g in Groups(cur, rest) ==> cur.t0 <= g.t0
    decreases |rest|
  {
    if rest != [] {
      var s := rest[0];
      SortedTail(cur, rest);
      if s.t0 <= cur.t1 + GAP {
        GroupsApart(cur.(t1 := MaxReal(cur.t1, s.t1)), rest[1..]);
      } else {
        GroupsApart(s, rest[1..]);
        var more := Groups(s, rest[1..]);
        forall i, j | 0 <= i < j < |[cur] + more| ensures ([cur] + more)[i].t1 + GAP < ([cur] + more)[j].t0 {
          assert more[j - 1] in more;
        }
      }
    }
  }

  /** With sorted segments: each lies in a group, and even the padded clips cut for the groups do not touch. */
  lemma RedoCovers(unlocked: seq<Seg>)
    requires unlocked != [] && StartSorted(unlocked)
    ensures var gs := Groups(unlocked[0], unlocked[1..]);
            && (forall s :: s in unlocked ==> Covered(gs, s))
            && Apart(gs)
            && (forall i, j :: 0 <= i < j < |gs| ==> gs[i].t1 + PAD < MaxReal(0.0, gs[j].t0 - PAD))
  {
    assert [unlocked[0]] + unlocked[1..] == unlocked;
    forall s | s in unlocked ensures Covered(Groups(unlocked[0], unlocked[1..]), s) {
      assert s in [unlocked[0]] + unlocked[1..];
      GroupsCover(unlocked[0], unlocked[1..], s);
    }
    GroupsApart(unlocked[0], unlocked[1..]);
  }

  // ----- what the groups are, apart from the loop

  /** A segment opens a group: every earlier one ended more than the gap before it. */
  predicate Opens(segs: seq<Seg>, k: nat)
    requires k < |segs|
  {
    forall j :: 0 <= j < k ==> segs[j].t1 + GAP < segs[k].t0
  }

  /** The latest end among the first n. */
  function LatestEnd(segs: seq<Seg>, n: nat): real
    requires 0 < n <= |segs|
  {
    if n == 1 then segs[0].t1 else MaxReal(LatestEnd(segs, n - 1), segs[n - 1].t1)
  }

  /** The starts of the openers from n on. */
  function OpenerStarts(segs: seq<Seg>, n: nat): seq<real>
    decreases |segs| - n
  {
    if n >= |segs| then [] else (if Opens(segs, n) then [segs[n].t0] else []) + OpenerStarts(segs, n + 1)
  }

  /** The latest end before each opener from n on, and at the close. */
  function Closes(segs: seq<Seg>, n: nat): seq<real>
    requires 0 < n <= |segs|
    decreases |segs| - n
  {
    if n == |segs| then [LatestEnd(segs, n)]
    else (if Opens(segs, n) then [LatestEnd(segs, n)] else []) + Closes(segs, n + 1)
  }

  function Starts(gs: seq<Seg>): seq<real>
    decreases |gs|
  {
    if gs == [] then [] else [gs[0].t0] + Starts(gs[1..])
  }

  function Ends(gs: seq<Seg>): seq<real>
    decreases |gs|
  {
    if gs == [] then [] else [gs[0].t1] + Ends(gs[1..])
  }

  lemma {:induction false} LatestIsMax(segs: seq<Seg>, n: nat)
    requires 0 < n <= |segs|
    ensures forall j :: 0 <= j < n ==> segs[j].t1 <= LatestEnd(segs, n)
    ensures exists j :: 0 <= j < n && segs[j].t1 == LatestEnd(segs, n)
  {
    if n > 1 { LatestIsMax(segs, n - 1); }
    if n == 1 || LatestEnd(segs, n) == segs[n - 1].t1 { assert segs[n - 1].t1 == LatestEnd(segs, n); }
  }

  lemma {:induction false} GroupsFrom(segs: seq<Seg>, n: nat, cur: Seg)
    requires 0 < n <= |segs| && cur.t1 == LatestEnd(segs, n)
    requires forall s :: s in segs ==> s.t0 <= s.t1
    ensures var gs := Groups(cur, segs[n..]);
            Starts(gs) == [cur.t0] + OpenerStarts(segs, n) && Ends(gs) == Closes(segs, n)
    decreases |segs| - n
  {
    hide Opens, LatestEnd, Groups, Starts, Ends, OpenerStarts, Closes, MaxReal;
    GroupsStep(cur, segs[n..]);
    ClusterStep(segs, n);
    if n < |segs| {
      var s := segs[n];
      assert segs[n..][1..] == segs[n + 1..] && segs[n..][0] == s;
      OpensIff(segs, n);
      assert s in segs;
      if Opens(segs, n) {
        GroupsFrom(segs, n + 1, s);
      } else {
        GroupsFrom(segs, n + 1, cur.(t1 := MaxReal(cur.t1, s.t1)));
      }
    }
  }

  /** One step of the reference. */
  lemma ClusterStep(segs: seq<Seg>, n: nat)
    requires 0 < n <= |segs|
    ensures n == |segs| ==> OpenerStarts(segs, n) == [] && Closes(segs, n) == [LatestEnd(segs, n)]
    ensures n < |segs| && Opens(segs, n) ==>
              && OpenerStarts(segs, n) == [segs[n].t0] + OpenerStarts(segs, n + 1)
              && Closes(segs, n) == [LatestEnd(segs, n)] + Closes(segs, n + 1)
    ensures n < |segs| && !Opens(segs, n) ==>
              OpenerStarts(segs, n) == OpenerStarts(segs, n + 1) && Closes(segs, n) == Closes(segs, n + 1)
  {
    hide Opens, LatestEnd;
  }

  /** One step of the grouping, in starts and ends. */
  lemma GroupsStep(cur: Seg, rest: seq<Seg>)
    ensures rest == [] ==> Starts(Groups(cur, rest)) == [cur.t0] && Ends(Groups(cur, rest)) == [cur.t1]
    ensures rest != [] && cur.t1 + GAP < rest[0].t0 ==>
              && Starts(Groups(cur, rest)) == [cur.t0] + Starts(Groups(rest[0], rest[1..]))
              && Ends(Groups(cur, rest)) == [cur.t1] + Ends(Groups(rest[0], rest[1..]))
    ensures rest != [] && rest[0].t0 <= cur.t1 + GAP ==>
              Groups(cur, rest) == Groups(cur.(t1 := MaxReal(cur.t1, rest[0].t1)), rest[1..])
  {
    if rest == [] {
      assert [cur][1..] == [];
    } else {
      var more := Groups(rest[0], rest[1..]);
      assert ([cur] + more)[1..] == more;
    }
  }

  lemma OpensIff(segs: seq<Seg>, n: nat)
    requires 0 < n < |segs|
    ensures Opens(segs, n) <==> LatestEnd(segs, n) + GAP < segs[n].t0
    ensures LatestEnd(segs, n + 1) == MaxReal(LatestEnd(segs, n), segs[n].t1)
    ensures Opens(segs, n) && segs[n].t0 <= segs[n].t1 ==> LatestEnd(segs, n + 1) == segs[n].t1
  {
    LatestIsMax(segs, n);
  }

  /**
   The groups start exactly where openers start and end at the latest end before the next opener;
   sorting is not needed for this.
   */
  lemma GroupsAreClusters(segs: seq<Seg>)
    requires segs != [] && forall s :: s in segs ==> s.t0 <= s.t1
    ensures var gs := Groups(segs[0], segs[1..]);
            Starts(gs) == OpenerStarts(segs, 0) && Ends(gs) == Closes(segs, 1)
  {
    GroupsFrom(segs, 1, segs[0]);
    assert Opens(segs, 0);
  }

  // ----- segments in any order

  /** The group that the loop puts rest[k] into. */
  function GroupOf(cur: Seg, rest: seq<Seg>, k: nat): nat
    requires k < |rest|
    decreases |rest|
  {
    var joined := rest[0].t0 <= cur.t1 + GAP;
    if k == 0 then if joined then 0 else 1
    else if joined then GroupOf(cur.(t1 := MaxReal(cur.t1, rest[0].t1)), rest[1..], k - 1)
    else 1 + GroupOf(rest[0], rest[1..], k - 1)
  }

  /** A segment's group always reaches to its end; it holds the segment exactly when it does not start later. */
  lemma {:induction false} GroupReaches(cur: Seg, rest: seq<Seg>, k: nat)
    requires k < |rest|
    ensures var gs, g := Groups(cur, rest), GroupOf(cur, rest, k);
            g < |gs| && rest[k].t1 <= gs[g].t1 && (Within(rest[k], gs[g]) <==> gs[g].t0 <= rest[k].t0)
    decreases |rest|
  {
    var s := rest[0];
    if s.t0 <= cur.t1 + GAP {
      var next := cur.(t1 := MaxReal(cur.t1, s.t1));
      GroupsStart(next, rest[1..]);
      if k > 0 { GroupReaches(next, rest[1..], k - 1); }
    } else {
      GroupsStart(s, rest[1..]);
      if k > 0 { GroupReaches(s, rest[1..], k - 1); }
    }
  }

  /** The first opener from n on, or the number of segments. */
  function NextOpener(segs: seq<Seg>, n: nat): (o: nat)
    requires n <= |segs|
    ensures n <= o <= |segs|
    decreases |segs| - n
  {
    if n == |segs| || Opens(segs, n) then n else NextOpener(segs, n + 1)
  }

  /** Some opener from n on starts no later than s, and its group reaches to the end of s. */
  ghost predicate Reached(segs: seq<Seg>, n: nat, s: Seg) {
    exists o :: n <= o < |segs| && Opens(segs, o) && Holds(segs, segs[o].t0, o + 1, s)
  }

  /** A group with this start, whose next segment is n, holds s. */
  predicate Holds(segs: seq<Seg>, start: real, n: nat, s: Seg)
    requires 0 < n <= |segs|
  {
    start <= s.t0 && s.t1 <= LatestEnd(segs, NextOpener(segs, n))
  }

  lemma ReachedOn(segs: seq<Seg>, n: nat, s: Seg)
    requires 0 < n < |segs|
    ensures Reached(segs, n, s) <==>
            Reached(segs, n + 1, s) || (Opens(segs, n) && Holds(segs, segs[n].t0, n + 1, s))
  {
    hide Opens, Holds;
  }

  lemma {:induction false} CoveredFrom(segs: seq<Seg>, n: nat, cur: Seg, s: Seg)
    requires 0 < n <= |segs| && cur.t1 == LatestEnd(segs, n)
    requires forall x :: x in segs ==> x.t0 <= x.t1
    ensures Covered(Groups(cur, segs[n..]), s) <==> Holds(segs, cur.t0, n, s) || Reached(segs, n, s)
    decreases |segs| - n
  {
    hide Opens, LatestEnd, MaxReal, Covered, Reached;
    if n == |segs| {
      OneCovers(cur, s);
      NoneReached(segs, s);
    } else {
      var x := segs[n];
      assert segs[n..][1..] == segs[n + 1..] && segs[n..][0] == x && x in segs;
      OpensIff(segs, n);
      ReachedOn(segs, n, s);
      if Opens(segs, n) {
        CoveredFrom(segs, n + 1, x, s);
        CoveredFirst(cur, Groups(x, segs[n + 1..]), s);
      } else {
        CoveredFrom(segs, n + 1, cur.(t1 := MaxReal(cur.t1, x.t1)), s);
      }
    }
  }

  lemma OneCovers(g: Seg, s: Seg)
    ensures Covered([g], s) <==> Within(s, g)
  {
    assert g in [g];
  }

  lemma NoneReached(segs: seq<Seg>, s: Seg)
    ensures !Reached(segs, |segs|, s)
  {}

  lemma CoveredFirst(g: Seg, more: seq<Seg>, s: Seg)
    ensures Covered([g] + more, s) <==> Within(s, g) || Covered(more, s)
  {
    assert ([g] + more)[0] == g;
    if Covered(more, s) {
      var h :| h in more && Within(s, h);
      assert h in [g] + more;
    }
  }

  /**
   Exactly when some group holds a segment, in any order: an opener starts no later, and its group
   reaches to the end.
   */
  lemma CoveredIff(segs: seq<Seg>, s: Seg)
    requires segs != [] && forall x :: x in segs ==> x.t0 <= x.t1
    ensures Covered(Groups(segs[0], segs[1..]), s) <==> Reached(segs, 0, s)
  {
    hide Covered, Holds;
    CoveredFrom(segs, 1, segs[0], s);
    assert Opens(segs, 0);
  }

  /** The last opener up to k. */
  function OpenerOf(segs: seq<Seg>, k: nat): (o: nat)
    requires k < |segs|
    ensures o <= k && Opens(segs, o) && forall j :: o < j <= k ==> !Opens(segs, j)
  {
    if Opens(segs, k) then k else OpenerOf(segs, k - 1)
  }

  lemma {:induction false} OwnGroupFrom(segs: seq<Seg>, n: nat, cur: Seg, opener: nat, k: nat)
    requires 0 < n <= k < |segs| && cur.t1 == LatestEnd(segs, n)
    requires forall x :: x in segs ==> x.t0 <= x.t1
    requires opener < n && Opens(segs, opener) && cur.t0 == segs[opener].t0
    requires forall j :: opener < j < n ==> !Opens(segs, j)
    ensures var gs, g := Groups(cur, segs[n..]), GroupOf(cur, segs[n..], k - n);
            g < |gs| && gs[g].t0 == segs[OpenerOf(segs, k)].t0
    decreases |segs| - n
  {
    hide Opens, LatestEnd, MaxReal;
    var x := segs[n];
    assert segs[n..][1..] == segs[n + 1..] && segs[n..][0] == x && x in segs;
    OpensIff(segs, n);
    var next := if Opens(segs, n) then x else cur.(t1 := MaxReal(cur.t1, x.t1));
    var from := if Opens(segs, n) then n else opener;
    GroupsStart(next, segs[n + 1..]);
    if k > n {
      OwnGroupFrom(segs, n + 1, next, from, k);
    } else {
      OneOpener(segs, k, from);
    }
  }

  lemma OneOpener(segs: seq<Seg>, k: nat, o: nat)
    requires o <= k < |segs| && Opens(segs, o) && forall j :: o < j <= k ==> !Opens(segs, j)
    ensures OpenerOf(segs, k) == o
  {
    hide Opens, OpenerOf;
    assert OpenerOf(segs, k) <= k;
  }

  /** Exactly when a segment lies in its own group, in any order: the segment that opened the group starts no later. */
  lemma HeldIff(segs: seq<Seg>, k: nat)
    requires 0 < k < |segs| && forall x :: x in segs ==> x.t0 <= x.t1
    ensures var gs, g := Groups(segs[0], segs[1..]), GroupOf(segs[0], segs[1..], k - 1);
            g < |gs| && (Within(segs[k], gs[g]) <==> segs[OpenerOf(segs, k)].t0 <= segs[k].t0)
  {
    assert Opens(segs, 0);
    GroupReaches(segs[0], segs[1..], k - 1);
    OwnGroupFrom(segs, 1, segs[0], 0, k);
  }

  /** Without sorting a segment can be lost: its group does not reach back to it. */
  lemma UnsortedIsNotCovered()
    ensures var segs := [Seg(10.0, 12.0, "a", false), Seg(5.0, 6.0, "b", false)];
            forall g :: g in Groups(segs[0], segs[1..]) ==> !Within(segs[1], g)
  {
    var a, b := Seg(10.0, 12.0, "a", false), Seg(5.0, 6.0, "b", false);
    assert [a, b][1..] == [b] && [b][1..] == [];
    assert Groups(a, [b]) == Groups(a, []);
  }

  // ----- the rebuilt list

  function Kept(segs: seq<Seg>, locked: bool): seq<Seg>
    decreases |segs|
  {
    if segs == [] then [] else (if segs[0].locked == locked then [segs[0]] else []) + Kept(segs[1..], locked)
  }

  /** Python's stable sort by start. */
  function Insert(s: Seg, sorted: seq<Seg>): seq<Seg>
    decreases |sorted|
  {
    if sorted == [] || s.t0 <= sorted[0].t0 then [s] + sorted else [sorted[0]] + Insert(s, sorted[1..])
  }

  function SortByStart(segs: seq<Seg>): seq<Seg>
    decreases |segs|
  {
    if segs == [] then [] else Insert(segs[0], SortByStart(segs[1..]))
  }

  function Rebuilt(segs: seq<Seg>, remade: seq<Seg>): seq<Seg> { SortByStart(Kept(segs, true) + remade) }

  lemma {:induction false} InsertCounts(s: Seg, sorted: seq<Seg>)
    ensures multiset(Insert(s, sorted)) == multiset(sorted) + multiset{s}
    decreases |sorted|
  {
    if sorted != [] && sorted[0].t0 < s.t0 {
      assert sorted == [sorted[0]] + sorted[1..];
      InsertCounts(s, sorted[1..]);
    }
  }

  lemma {:induction false} InsertSorts(s: Seg, sorted: seq<Seg>)
    requires StartSorted(sorted)
    ensures StartSorted(Insert(s, sorted))
    ensures Insert(s, sorted)[0] == if sorted == [] || s.t0 <= sorted[0].t0 then s else sorted[0]
    decreases |sorted|
  {
    if sorted != [] && sorted[0].t0 < s.t0 {
      InsertSorts(s, sorted[1..]);
      InFront(sorted[0], Insert(s, sorted[1..]));
    } else {
      InFront(s, sorted);
    }
  }

  lemma InFront(s: Seg, sorted: seq<Seg>)
    requires StartSorted(sorted) && (sorted != [] ==> s.t0 <= sorted[0].t0)
    ensures StartSorted([s] + sorted)
  {}

  lemma {:induction false} SortIs(segs: seq<Seg>)
    ensures StartSorted(SortByStart(segs)) && multiset(SortByStart(segs)) == multiset(segs)
    decreases |segs|
  {
    if segs != [] {
      hide Insert, StartSorted;
      SortIs(segs[1..]);
      InsertSorts(segs[0], SortByStart(segs[1..]));
      InsertCounts(segs[0], SortByStart(segs[1..]));
      assert segs == [segs[0]] + segs[1..];
    }
  }

  /** Segments that start at t, in order. */
  function StartingAt(segs: seq<Seg>, t: real): seq<Seg>
    decreases |segs|
  {
    if segs == [] then [] else (if segs[0].t0 == t then [segs[0]] else []) + StartingAt(segs[1..], t)
  }

  lemma {:induction false} InsertIsStable(s: Seg, sorted: seq<Seg>, t: real)
    ensures StartingAt(Insert(s, sorted), t) == if s.t0 == t then [s] + StartingAt(sorted, t) else StartingAt(sorted, t)
    decreases |sorted|
  {
    hide StartingAt;
    if sorted == [] || s.t0 <= sorted[0].t0 {
      StartingInFront(s, sorted, t);
    } else {
      InsertIsStable(s, sorted[1..], t);
      StartingInFront(sorted[0], Insert(s, sorted[1..]), t);
      StartingInFront(sorted[0], sorted[1..], t);
      assert [sorted[0]] + sorted[1..] == sorted;
    }
  }

  lemma StartingInFront(s: Seg, segs: seq<Seg>, t: real)
    ensures StartingAt([s] + segs, t) == if s.t0 == t then [s] + StartingAt(segs, t) else StartingAt(segs, t)
  {
    assert ([s] + segs)[1..] == segs;
  }

  /** Equal starts keep their order. */
  lemma {:induction false} SortIsStable(segs: seq<Seg>, t: real)
    ensures StartingAt(SortByStart(segs), t) == StartingAt(segs, t)
    decreases |segs|
  {
    if segs != [] {
      hide Insert;
      SortIsStable(segs[1..], t);
      InsertIsStable(segs[0], SortByStart(segs[1..]), t);
    }
  }

  lemma {:induction false} KeptIs(segs: seq<Seg>, locked: bool)
    ensures forall s: Seg :: multiset(Kept(segs, locked))[s] == if s.locked == locked then multiset(segs)[s] else 0
    decreases |segs|
  {
    if segs != [] {
      KeptIs(segs[1..], locked);
      assert segs == [segs[0]] + segs[1..];
    }
  }

  /**
   The rebuilt list is sorted; each locked segment is there as often as before and as it is new,
   each old unlocked one only as it is new.
   */
  lemma RebuiltKeepsLocked(segs: seq<Seg>, remade: seq<Seg>)
    ensures var r := Rebuilt(segs, remade);
            StartSorted(r)
            && forall s: Seg :: multiset(r)[s] == (if s.locked then multiset(segs)[s] else 0) + multiset(remade)[s]
  {
    SortIs(Kept(segs, true) + remade);
    KeptIs(segs, true);
  }

  // ----- subtitles

  datatype Cue = Cue(number: nat, from: real, to: real, text: string)

  /** A segment shifted by the lead-in and clipped to the song; None where nothing is left. */
  function Clipped(s: Seg, preroll: real, song: Option<real>): (c: Option<(real, real)>)
    ensures c.Some? ==> 0.0 <= c.value.0 < c.value.1
  {
    var t1 := s.t1 - preroll;
    if t1 <= 0.0 then None else
    var t0 := MaxReal(0.0, s.t0 - preroll);
    if song.Some? && t0 >= song.value then None else
    var end := if song.Some? then MinReal(t1, song.value) else t1;
    if end <= t0 then None else Some((t0, end))
  }

  /** The cues of the segments, from the end of the last cue and the number of cues so far. */
  function Cues(segs: seq<Seg>, preroll: real, song: Option<real>, prevEnd: real, n: nat): seq<Cue>
    decreases |segs|
  {
    if segs == [] then [] else
    var c := Clipped(segs[0], preroll, song);
    if c.None? || c.value.1 <= MaxReal(c.value.0, prevEnd) then Cues(segs[1..], preroll, song, prevEnd, n)
    else [Cue(n + 1, MaxReal(c.value.0, prevEnd), c.value.1, segs[0].text)]
         + Cues(segs[1..], preroll, song, c.value.1, n + 1)
  }

  /** What a segment still shows after the end of the last cue. */
  function Span(s: Seg, preroll: real, song: Option<real>, prevEnd: real): Option<(real, real)> {
    var c := Clipped(s, preroll, song);
    if c.None? || c.value.1 <= MaxReal(c.value.0, prevEnd) then None else Some((MaxReal(c.value.0, prevEnd), c.value.1))
  }

  lemma CuesStep(segs: seq<Seg>, preroll: real, song: Option<real>, prevEnd: real, n: nat)
    requires segs != []
    ensures var span := Span(segs[0], preroll, song, prevEnd);
            Cues(segs, preroll, song, prevEnd, n) ==
            if span.None? then Cues(segs[1..], preroll, song, prevEnd, n)
            else [Cue(n + 1, span.value.0, span.value.1, segs[0].text)]
                 + Cues(segs[1..], preroll, song, span.value.1, n + 1)
  {
    hide Clipped, MaxReal;
  }

  /** One turn of the loop. */
  lemma CuesTurn(cues: seq<Cue>, segs: seq<Seg>, k: nat, preroll: real, song: Option<real>, prevEnd: real, n: nat)
    requires k < |segs|
    ensures var span := Span(segs[k], preroll, song, prevEnd);
            cues + Cues(segs[k..], preroll, song, prevEnd, n) ==
            if span.None? then cues + Cues(segs[k + 1..], preroll, song, prevEnd, n)
            else cues + [Cue(n + 1, span.value.0, span.value.1, segs[k].text)]
                 + Cues(segs[k + 1..], preroll, song, span.value.1, n + 1)
  {
    hide Span, Cues;
    CuesStep(segs[k..], preroll, song, prevEnd, n);
    assert segs[k..][1..] == segs[k + 1..];
    var span := Span(segs[k], preroll, song, prevEnd);
    if span.Some? {
      var cue := Cue(n + 1, span.value.0, span.value.1, segs[k].text);
      var more := Cues(segs[k + 1..], preroll, song, span.value.1, n + 1);
      assert cues + ([cue] + more) == cues + [cue] + more;
    }
  }

  lemma NoCues(preroll: real, song: Option<real>)
    ensures forall prevEnd, n :: Cues([], preroll, song, prevEnd, n) == []
  {}

  method WriteSrt(segs: seq<Seg>, song: Option<real>, preroll: real) returns (cues: seq<Cue>)
    ensures cues == Cues(segs, preroll, song, -1.0, 0)
  {
    hide Cues;
    cues := [];
    var prevEnd, n := -1.0, 0;
    NoCues(preroll, song);
    for k := 0 to |segs|
      invariant cues + Cues(segs[k..], preroll, song, prevEnd, n) == Cues(segs, preroll, song, -1.0, 0)
    {
      var s := segs[k];
      CuesTurn(cues, segs, k, preroll, song, prevEnd, n);
      var t0, t1 := s.t0 - preroll, s.t1 - preroll;
      if t1 <= 0.0 { continue; }
      t0 := MaxReal(0.0, t0);
      if song.Some? {
        if t0 >= song.value { continue; }
        t1 := MinReal(t1, song.value);
      }
      if t1 <= t0 { continue; }
      if t0 < prevEnd { t0 := prevEnd; }
      if t1 <= t0 { continue; }
      n := n + 1;
      cues := cues + [Cue(n, t0, t1, s.text)];
      prevEnd := t1;
    }
    assert segs[|segs|..] == [] && cues + [] == cues;
  }

  /** A time a cue shows, and one a segment is sung at. */
  predicate Shows(c: Cue, x: real) { c.from <= x < c.to }

  predicate Sung(s: Seg, preroll: real, song: Option<real>, x: real) {
    && 0.0 <= x && s.t0 - preroll <= x < s.t1 - preroll && (song.Some? ==> x < song.value)
  }

  ghost predicate Shown(cues: seq<Cue>, x: real) { exists c :: c in cues && Shows(c, x) }

  ghost predicate SungAt(segs: seq<Seg>, preroll: real, song: Option<real>, x: real) {
    exists s :: s in segs && Sung(s, preroll, song, x)
  }

  lemma ClippedIsSung(s: Seg, preroll: real, song: Option<real>, x: real)
    ensures Sung(s, preroll, song, x) <==>
            var c := Clipped(s, preroll, song); c.Some? && c.value.0 <= x < c.value.1
  {}

  /** Cues are numbered on, are not empty, begin no earlier than the last end and do not overlap. */
  predicate InOrder(cues: seq<Cue>, prevEnd: real, n: nat) {
    && (forall i :: 0 <= i < |cues| ==> cues[i].number == n + 1 + i && 0.0 <= cues[i].from < cues[i].to)
    && (forall i :: 0 <= i < |cues| ==> prevEnd <= cues[i].from)
    && (forall i, j :: 0 <= i < j < |cues| ==> cues[i].to <= cues[j].from)
  }

  lemma {:induction false} CuesInOrder(segs: seq<Seg>, preroll: real, song: Option<real>, prevEnd: real, n: nat)
    ensures InOrder(Cues(segs, preroll, song, prevEnd, n), prevEnd, n)
    decreases |segs|
  {
    if segs != [] {
      var c := Clipped(segs[0], preroll, song);
      if c.None? || c.value.1 <= MaxReal(c.value.0, prevEnd) {
        CuesInOrder(segs[1..], preroll, song, prevEnd, n);
      } else {
        CuesInOrder(segs[1..], preroll, song, c.value.1, n + 1);
      }
    }
  }

  /** Segment k is sung at x, after the last cue and after all that any earlier segment leaves to show. */
  predicate Heard(segs: seq<Seg>, preroll: real, song: Option<real>, prevEnd: real, k: nat, x: real)
    requires k < |segs|
  {
    && prevEnd <= x && Sung(segs[k], preroll, song, x)
    && forall j :: 0 <= j < k ==> var c := Clipped(segs[j], preroll, song); c.Some? ==> c.value.1 <= x
  }

  ghost predicate HeardAt(segs: seq<Seg>, preroll: real, song: Option<real>, prevEnd: real, x: real) {
    exists k :: 0 <= k < |segs| && Heard(segs, preroll, song, prevEnd, k, x)
  }

  /** One segment, and then those after it. */
  lemma HeardOn(segs: seq<Seg>, preroll: real, song: Option<real>, prevEnd: real, x: real)
    requires segs != []
    ensures var c := Clipped(segs[0], preroll, song);
            HeardAt(segs, preroll, song, prevEnd, x) <==>
              || (prevEnd <= x && Sung(segs[0], preroll, song, x))
              || ((c.Some? ==> c.value.1 <= x) && HeardAt(segs[1..], preroll, song, prevEnd, x))
  {
    hide Clipped, Sung;
    if HeardAt(segs, preroll, song, prevEnd, x) {
      var k :| 0 <= k < |segs| && Heard(segs, preroll, song, prevEnd, k, x);
      if k > 0 {
        forall j | 0 <= j < k - 1
          ensures var c := Clipped(segs[1..][j], preroll, song); c.Some? ==> c.value.1 <= x
        {
          assert segs[1..][j] == segs[j + 1];
        }
        assert Heard(segs[1..], preroll, song, prevEnd, k - 1, x);
      }
    }
    if prevEnd <= x && Sung(segs[0], preroll, song, x) { assert Heard(segs, preroll, song, prevEnd, 0, x); }
    var c := Clipped(segs[0], preroll, song);
    if (c.Some? ==> c.value.1 <= x) && HeardAt(segs[1..], preroll, song, prevEnd, x) {
      var k :| 0 <= k < |segs[1..]| && Heard(segs[1..], preroll, song, prevEnd, k, x);
      forall j | 0 <= j < k + 1 ensures var d := Clipped(segs[j], preroll, song); d.Some? ==> d.value.1 <= x {
        if j > 0 { assert segs[1..][j - 1] == segs[j]; }
      }
      assert Heard(segs, preroll, song, prevEnd, k + 1, x);
    }
  }

  lemma ShownFirst(cue: Cue, more: seq<Cue>, x: real)
    ensures Shown([cue] + more, x) <==> Shows(cue, x) || Shown(more, x)
  {
    assert ([cue] + more)[0] == cue;
    if Shown(more, x) {
      var c :| c in more && Shows(c, x);
      assert c in [cue] + more;
    }
  }

  /** Exactly the times that are shown, for segments in any order. */
  lemma {:induction false} ShownIff(segs: seq<Seg>, preroll: real, song: Option<real>, prevEnd: real, n: nat, x: real)
    ensures Shown(Cues(segs, preroll, song, prevEnd, n), x) <==> HeardAt(segs, preroll, song, prevEnd, x)
    decreases |segs|
  {
    assert !Shown(Cues([], preroll, song, prevEnd, n), x) && !HeardAt([], preroll, song, prevEnd, x);
    hide Cues, HeardAt, Shown, Clipped, Sung;
    if segs != [] {
      var c := Clipped(segs[0], preroll, song);
      CuesStep(segs, preroll, song, prevEnd, n);
      HeardOn(segs, preroll, song, prevEnd, x);
      ClippedIsSung(segs[0], preroll, song, x);
      if c.None? || c.value.1 <= MaxReal(c.value.0, prevEnd) {
        ShownIff(segs[1..], preroll, song, prevEnd, n, x);
        HeardLater(segs[1..], preroll, song, prevEnd, prevEnd, x);
      } else {
        var end := c.value.1;
        ShownIff(segs[1..], preroll, song, end, n + 1, x);
        HeardLater(segs[1..], preroll, song, prevEnd, end, x);
        ShownFirst(Cue(n + 1, MaxReal(c.value.0, prevEnd), end, segs[0].text),
                   Cues(segs[1..], preroll, song, end, n + 1), x);
      }
    }
  }

  /** A later last end only asks that the time be no earlier. */
  lemma HeardLater(segs: seq<Seg>, preroll: real, song: Option<real>, prevEnd: real, end: real, x: real)
    requires prevEnd <= end
    ensures HeardAt(segs, preroll, song, end, x) <==> end <= x && HeardAt(segs, preroll, song, prevEnd, x)
  {
    hide Clipped, Sung;
    if HeardAt(segs, preroll, song, end, x) {
      var k :| 0 <= k < |segs| && Heard(segs, preroll, song, end, k, x);
      assert Heard(segs, preroll, song, prevEnd, k, x);
    }
    if end <= x && HeardAt(segs, preroll, song, prevEnd, x) {
      var k :| 0 <= k < |segs| && Heard(segs, preroll, song, prevEnd, k, x);
      assert Heard(segs, preroll, song, end, k, x);
    }
  }

  /** With sorted segments what is sung is heard: the first segment sung at x comes after none that ends later. */
  lemma {:induction false} SungIsHeard(segs: seq<Seg>, preroll: real, song: Option<real>, prevEnd: real, x: real)
    requires StartSorted(segs) && prevEnd <= x
    ensures HeardAt(segs, preroll, song, prevEnd, x) <==> SungAt(segs, preroll, song, x)
    decreases |segs|
  {
    hide Sung;
    if segs != [] {
      hide Clipped;
      HeardOn(segs, preroll, song, prevEnd, x);
      SungIsHeard(segs[1..], preroll, song, prevEnd, x);
      SungOn(segs, preroll, song, x);
      if SungAt(segs[1..], preroll, song, x) {
        var s :| s in segs[1..] && Sung(s, preroll, song, x);
        assert segs[0].t0 <= s.t0;
        StartedIsOver(segs[0], s, preroll, song, x);
      }
    }
  }

  lemma SungOn(segs: seq<Seg>, preroll: real, song: Option<real>, x: real)
    requires segs != []
    ensures SungAt(segs, preroll, song, x) <==> Sung(segs[0], preroll, song, x) || SungAt(segs[1..], preroll, song, x)
  {
    hide Sung;
    if SungAt(segs[1..], preroll, song, x) {
      var s :| s in segs[1..] && Sung(s, preroll, song, x);
      assert s in segs;
    }
  }

  /** A segment that starts no later than one sung at x is sung at x too, or over. */
  lemma StartedIsOver(a: Seg, s: Seg, preroll: real, song: Option<real>, x: real)
    requires a.t0 <= s.t0 && Sung(s, preroll, song, x)
    ensures Sung(a, preroll, song, x) || (var c := Clipped(a, preroll, song); c.Some? ==> c.value.1 <= x)
  {}

  /** The subtitles of sorted segments show exactly the times that are sung, in numbered cues that never overlap. */
  lemma SubtitlesShowWhatIsSung(segs: seq<Seg>, preroll: real, song: Option<real>)
    requires StartSorted(segs)
    ensures var cues := Cues(segs, preroll, song, -1.0, 0);
            InOrder(cues, -1.0, 0) && forall x :: Shown(cues, x) <==> SungAt(segs, preroll, song, x)
  {
    var cues := Cues(segs, preroll, song, -1.0, 0);
    CuesInOrder(segs, preroll, song, -1.0, 0);
    forall x ensures Shown(cues, x) <==> SungAt(segs, preroll, song, x) {
      ShownIff(segs, preroll, song, -1.0, 0, x);
      if x >= 0.0 { SungIsHeard(segs, preroll, song, -1.0, x); }
    }
  }

  /**
   Segments in any order: the cues are still numbered and never overlap, and exactly those times are
   shown at which a segment is sung that stands behind none ending later.
   */
  lemma SubtitlesInAnyOrder(segs: seq<Seg>, preroll: real, song: Option<real>)
    ensures var cues := Cues(segs, preroll, song, -1.0, 0);
            InOrder(cues, -1.0, 0) && forall x :: Shown(cues, x) <==> HeardAt(segs, preroll, song, -1.0, x)
  {
    CuesInOrder(segs, preroll, song, -1.0, 0);
    forall x ensures Shown(Cues(segs, preroll, song, -1.0, 0), x) <==> HeardAt(segs, preroll, song, -1.0, x) {
      ShownIff(segs, preroll, song, -1.0, 0, x);
    }
  }

  /** The segment heard at x says this. */
  ghost predicate Says(segs: seq<Seg>, preroll: real, song: Option<real>, prevEnd: real, x: real, text: string) {
    exists k :: 0 <= k < |segs| && Heard(segs, preroll, song, prevEnd, k, x) && segs[k].text == text
  }

  /** What is heard of the later segments, once the first is over. */
  lemma SaysLater(segs: seq<Seg>, preroll: real, song: Option<real>, prevEnd: real, end: real, x: real, text: string)
    requires segs != [] && prevEnd <= end && Says(segs[1..], preroll, song, end, x, text)
    requires var c := Clipped(segs[0], preroll, song); c.Some? ==> c.value.1 <= x
    ensures Says(segs, preroll, song, prevEnd, x, text)
  {
    hide Clipped, Sung;
    var k :| 0 <= k < |segs[1..]| && Heard(segs[1..], preroll, song, end, k, x) && segs[1..][k].text == text;
    forall j | 0 <= j < k + 1 ensures var d := Clipped(segs[j], preroll, song); d.Some? ==> d.value.1 <= x {
      if j > 0 { assert segs[1..][j - 1] == segs[j]; }
    }
    assert segs[1..][k] == segs[k + 1] && Heard(segs, preroll, song, prevEnd, k + 1, x);
  }

  /** A cue shows the text of the segment that is heard. */
  lemma {:induction false} CueSays(segs: seq<Seg>, preroll: real, song: Option<real>, prevEnd: real, n: nat, c: Cue,
                                   x: real)
    requires c in Cues(segs, preroll, song, prevEnd, n) && Shows(c, x)
    ensures Says(segs, preroll, song, prevEnd, x, c.text) && prevEnd <= x
    decreases |segs|
  {
    hide Cues, Says, Clipped, Sung;
    if segs == [] {
      assert false by { NoCues(preroll, song); }
    } else {
      CuesStep(segs, preroll, song, prevEnd, n);
      ClippedIsSung(segs[0], preroll, song, x);
      var d := Clipped(segs[0], preroll, song);
      var span := Span(segs[0], preroll, song, prevEnd);
      if span.None? {
        CueSays(segs[1..], preroll, song, prevEnd, n, c, x);
        SaysLater(segs, preroll, song, prevEnd, prevEnd, x, c.text);
      } else if c == Cue(n + 1, span.value.0, span.value.1, segs[0].text) {
        FirstSays(segs, preroll, song, prevEnd, x);
      } else {
        CueSays(segs[1..], preroll, song, span.value.1, n + 1, c, x);
        SaysLater(segs, preroll, song, prevEnd, span.value.1, x, c.text);
      }
    }
  }

  lemma FirstSays(segs: seq<Seg>, preroll: real, song: Option<real>, prevEnd: real, x: real)
    requires segs != [] && prevEnd <= x && Sung(segs[0], preroll, song, x)
    ensures Says(segs, preroll, song, prevEnd, x, segs[0].text)
  {
    hide Sung;
    assert Heard(segs, preroll, song, prevEnd, 0, x);
  }

  /** Without sorting a whole segment can be lost: one that is over before the last cue ends. */
  lemma UnsortedIsNotShown()
    ensures var segs := [Seg(10.0, 12.0, "a", true), Seg(5.0, 6.0, "b", true)];
            SungAt(segs, 0.0, None, 5.5) && !Shown(Cues(segs, 0.0, None, -1.0, 0), 5.5)
  {
    var a, b := Seg(10.0, 12.0, "a", true), Seg(5.0, 6.0, "b", true);
    assert [a, b][1..] == [b] && [b][1..] == [];
    assert Sung([a, b][1], 0.0, None, 5.5);
    assert Cues([], 0.0, None, 12.0, 1) == [];
    assert Cues([b], 0.0, None, 12.0, 1) == [];
    assert Cues([a, b], 0.0, None, -1.0, 0) == [Cue(1, 10.0, 12.0, "a")];
  }
}
