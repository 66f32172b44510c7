/** preserve_locks in lyrics_loop.py: lines the operator locked are put onto a new list of segments. */
module PreserveLocks {
  import opened LyricsLoop

  /** More than 0.2 seconds in common. */
  predicate Hits(n: Seg, old': Seg) { MaxReal(0.0, MinReal(n.t1, old'.t1) - MaxReal(n.t0, old'.t0)) > 0.2 }

  function Crown(n: Seg, old': Seg): Seg { if Hits(n, old') then n.(locked := true, text := old'.text) else n }

  function CrownEach(segs: seq<Seg>, old': Seg): (r: seq<Seg>)
    ensures |r| == |segs| && forall k :: 0 <= k < |r| ==> r[k] == Crown(segs[k], old')
    decreases |segs|
  {
    if segs == [] then [] else [Crown(segs[0], old')] + CrownEach(segs[1..], old')
  }

  predicate AnyHit(segs: seq<Seg>, old': Seg) { exists k :: 0 <= k < |segs| && Hits(segs[k], old') }

  /** One old line: on every segment it overlaps, or else as a line of its own. */
  function Put(segs: seq<Seg>, old': Seg): seq<Seg> {
    CrownEach(segs, old') + if AnyHit(segs, old') then [] else [old']
  }

  function PutAll(segs: seq<Seg>, olds: seq<Seg>): seq<Seg>
    decreases |olds|
  {
    if olds == [] then segs else PutAll(Put(segs, olds[0]), olds[1..])
  }

  method Preserve(new': seq<Seg>, olds: seq<Seg>) returns (r: seq<Seg>)
    ensures r == SortByStart(PutAll(new', olds))
  {
    hide Hits, SortByStart;
    var out := new';
    for i := 0 to |olds|
      invariant PutAll(out, olds[i..]) == PutAll(new', olds)
    {
      assert olds[i..][1..] == olds[i + 1..];
      out := PutInPlace(out, olds[i]);
    }
    assert olds[|olds|..] == [];
    return SortByStart(out);
  }

  /** The inner loop for one old line. */
  method PutInPlace(segs: seq<Seg>, old': Seg) returns (out: seq<Seg>)
    ensures out == Put(segs, old')
  {
    hide Hits;
    var hit := false;
    out := segs;
    for k := 0 to |segs|
      invariant |out| == |segs|
      invariant forall j :: 0 <= j < |segs| ==> out[j] == if j < k then Crown(segs[j], old') else segs[j]
      invariant hit <==> exists j :: 0 <= j < k && Hits(segs[j], old')
    {
      if Hits(out[k], old') {
        out := out[k := out[k].(locked := true, text := old'.text)];
        hit := true;
      }
    }
    assert out == CrownEach(segs, old');
    if !hit { out := out + [old']; }
  }

  /** The last of the old lines that hits a segment; -1 for none. */
  function LastHit(n: Seg, olds: seq<Seg>): (i: int)
    ensures -1 <= i < |olds|
    ensures i >= 0 ==> Hits(n, olds[i])
    ensures forall j :: i < j < |olds| && 0 <= j ==> !Hits(n, olds[j])
    decreases |olds|
  {
    if olds == [] then -1
    else if Hits(n, olds[|olds| - 1]) then |olds| - 1
    else LastHit(n, olds[..|olds| - 1])
  }

  /** What becomes of one segment: the last old line that hits it has the say, its times stay. */
  function Settled(n: Seg, olds: seq<Seg>): Seg {
    var i := LastHit(n, olds);
    if i < 0 then n else n.(locked := true, text := olds[i].text)
  }

  /** Only the times of a segment decide which lines hit it. */
  lemma {:induction false} LastHitByTimes(n: Seg, m: Seg, olds: seq<Seg>)
    requires n.t0 == m.t0 && n.t1 == m.t1
    ensures LastHit(n, olds) == LastHit(m, olds)
    decreases |olds|
  {
    if olds != [] { LastHitByTimes(n, m, olds[..|olds| - 1]); }
  }

  lemma {:induction false} LastHitFromFront(n: Seg, olds: seq<Seg>)
    requires olds != []
    ensures var j := LastHit(n, olds[1..]);
            LastHit(n, olds) == if j >= 0 then j + 1 else if Hits(n, olds[0]) then 0 else -1
    decreases |olds|
  {
    if |olds| > 1 {
      var last := |olds| - 1;
      assert olds[1..][last - 1] == olds[last];
      if !Hits(n, olds[last]) {
        LastHitFromFront(n, olds[..last]);
        assert olds[..last][1..] == olds[1..][..last - 1];
      }
    }
  }

  lemma SettleFirst(n: Seg, olds: seq<Seg>)
    requires olds != []
    ensures Settled(Crown(n, olds[0]), olds[1..]) == Settled(n, olds)
  {
    LastHitFromFront(n, olds);
    LastHitByTimes(n, Crown(n, olds[0]), olds[1..]);
  }

  /** Every segment keeps its place and settles; lines of their own come behind. */
  lemma {:induction false} AllSettle(segs: seq<Seg>, olds: seq<Seg>)
    ensures var r := PutAll(segs, olds);
            |segs| <= |r| && forall k :: 0 <= k < |segs| ==> r[k] == Settled(segs[k], olds)
    decreases |olds|
  {
    if olds != [] {
      var next := Put(segs, olds[0]);
      AllSettle(next, olds[1..]);
      forall k | 0 <= k < |segs| ensures PutAll(segs, olds)[k] == Settled(segs[k], olds) {
        assert next[k] == Crown(segs[k], olds[0]);
        SettleFirst(segs[k], olds);
      }
    }
  }

  lemma {:induction false} PutAppend(segs: seq<Seg>, a: seq<Seg>, b: seq<Seg>)
    ensures PutAll(segs, a + b) == PutAll(PutAll(segs, a), b)
    decreases |a|
  {
    if a == [] {
      assert a + b == b;
    } else {
      assert (a + b)[1..] == a[1..] + b;
      PutAppend(Put(segs, a[0]), a[1..], b);
    }
  }

  /** The lines old line i was put on, before any later one was looked at. */
  ghost predicate PutOn(new': seq<Seg>, olds: seq<Seg>, i: nat, k: nat)
    requires i < |olds|
  {
    var before := PutAll(new', olds[..i]);
    var after := Put(before, olds[i]);
    k < |after| && (if k < |before| then Hits(before[k], olds[i]) else true)
  }

  /**
   An old line is always put somewhere; there it stays if and only if no later old line hits that
   place, or the last that does says the same.
   */
  lemma OldLineStays(new': seq<Seg>, olds: seq<Seg>, i: nat, k: nat)
    requires i < |olds| && PutOn(new', olds, i, k)
    ensures var after := Put(PutAll(new', olds[..i]), olds[i]);
            var end := PutAll(new', olds);
            var last := LastHit(after[k], olds[i + 1..]);
            && k < |end| && after[k].text == olds[i].text
            && end[k].t0 == after[k].t0 && end[k].t1 == after[k].t1
            && (end[k].text == olds[i].text <==> last < 0 || olds[i + 1..][last].text == olds[i].text)
  {
    var before := PutAll(new', olds[..i]);
    var after := Put(before, olds[i]);
    assert olds == olds[..i] + olds[i..] && olds[i..][1..] == olds[i + 1..];
    PutAppend(new', olds[..i], olds[i..]);
    AllSettle(after, olds[i + 1..]);
  }

  lemma SomewherePut(new': seq<Seg>, olds: seq<Seg>, i: nat)
    requires i < |olds|
    ensures exists k: nat :: PutOn(new', olds, i, k)
  {
    var before := PutAll(new', olds[..i]);
    if AnyHit(before, olds[i]) {
      var k :| 0 <= k < |before| && Hits(before[k], olds[i]);
      assert PutOn(new', olds, i, k);
    } else {
      assert PutOn(new', olds, i, |before|);
    }
  }

  /** Two locked lines on one new segment: the first one's text is gone. */
  lemma FirstOfTwoIsLost(t: string, u: string)
    requires t != u
    ensures var olds := [Seg(0.0, 4.0, t, true), Seg(5.0, 9.0, u, true)];
            forall s :: s in PutAll([Seg(0.0, 9.0, "x", false)], olds) ==> s.text == u
  {
    var n, a, b := Seg(0.0, 9.0, "x", false), Seg(0.0, 4.0, t, true), Seg(5.0, 9.0, u, true);
    var m := n.(locked := true, text := t);
    assert [n][1..] == [] && [m][1..] == [] && [a, b][1..] == [b] && [b][1..] == [];
    assert Hits([n][0], a) && Hits([m][0], b);
    assert Put([n], a) == [m];
    assert Put([m], b) == [m.(text := u)];
    assert PutAll([m], [b]) == PutAll([m.(text := u)], []);
  }
}
