/** The repeat detector of main.cpp: a block of 6 to 32 characters three times in a row. */
module NgramLoop {
  import opened Text

  const SHORTEST: nat := 6
  const LONGEST: nat := 32

  /** The block of n characters at i stands again k blocks further. */
  predicate Again(text: string, i: nat, n: nat, k: nat) {
    i + (k + 1) * n <= |text| && text[i..i + n] == text[i + k * n..i + (k + 1) * n]
  }

  /** A block of n characters three times in a row from i. */
  predicate Triple(text: string, i: nat, n: nat) {
    i + 3 * n <= |text| && text[i..i + n] == text[i + n..i + 2 * n] == text[i + 2 * n..i + 3 * n]
  }

  /** No block of a length from 6 to `longest` stands three times in a row. */
  ghost predicate NoTriple(text: string, longest: nat) {
    forall n: nat, i: nat :: SHORTEST <= n <= longest ==> !Triple(text, i, n)
  }

  /** Exactly k copies of the block at i, one after the other, and not a further one. */
  ghost predicate Copies(text: string, i: nat, n: nat, k: nat) {
    (forall j :: 0 < j < k ==> Again(text, i, n, j)) && !Again(text, i, n, k)
  }

  /** What the detector reports: the shortest length, then the leftmost place, and all copies there. */
  ghost predicate Reports(text: string, at: nat, unit: nat, copies: nat) {
    && SHORTEST <= unit <= LONGEST && Triple(text, at, unit)
    && (forall n: nat, i: nat :: SHORTEST <= n < unit ==> !Triple(text, i, n))
    && (forall i: nat :: i < at ==> !Triple(text, i, unit))
    && copies >= 3 && Copies(text, at, unit, copies)
  }

  /** A triple is the text w + w + w for some block w. */
  lemma TripleIsThreeBlocks(text: string, i: nat, n: nat)
    ensures Triple(text, i, n) <==>
            i + 3 * n <= |text| && exists w: string :: |w| == n && text[i..i + 3 * n] == w + w + w
  {
    if i + 3 * n <= |text| {
      var s := text[i..i + 3 * n];
      assert s == text[i..i + n] + text[i + n..i + 2 * n] + text[i + 2 * n..i + 3 * n];
      if Triple(text, i, n) {
        var w := text[i..i + n];
        assert |w| == n && s == w + w + w;
      }
      if w: string :| |w| == n && s == w + w + w {
        assert text[i..i + n] == s[..n] == w;
        assert text[i + n..i + 2 * n] == s[n..2 * n] == w;
        assert text[i + 2 * n..i + 3 * n] == s[2 * n..] == w;
      }
    }
  }

  /** Two reports on one text agree. */
  lemma ReportIsUnique(text: string, a: nat, n: nat, k: nat, b: nat, m: nat, l: nat)
    requires Reports(text, a, n, k) && Reports(text, b, m, l)
    ensures a == b && n == m && k == l
  {}

  method FindNgramLoop(text: string) returns (found: bool, at: nat, unit: nat, copies: nat)
    ensures found <==> !NoTriple(text, LONGEST)
    ensures found ==> Reports(text, at, unit, copies)
  {
    assert forall n: nat, i: nat :: i + 3 * n > |text| ==> !Triple(text, i, n);
    hide Triple, Again;
    at, unit, copies := 0, 0, 0;
    if |text| < SHORTEST * 3 {
      return false, at, unit, copies;
    }
    for n := SHORTEST to LONGEST + 1
      invariant forall m: nat, i: nat :: SHORTEST <= m < n ==> !Triple(text, i, m)
    {
      found, at := FirstTriple(text, n);
      if found {
        copies := CountCopies(text, at, n);
        return true, at, n, copies;
      }
    }
    return false, at, unit, copies;
  }

  method FirstTriple(text: string, n: nat) returns (found: bool, at: nat)
    requires n > 0
    ensures found ==> Triple(text, at, n) && forall i: nat :: i < at ==> !Triple(text, i, n)
    ensures !found ==> forall i: nat :: !Triple(text, i, n)
  {
    at := 0;
    while at + 3 * n <= |text|
      invariant forall i: nat :: i < at ==> !Triple(text, i, n)
      decreases |text| - at
    {
      if text[at..at + n] == text[at + n..at + 2 * n] && text[at..at + n] == text[at + 2 * n..at + 3 * n] {
        return true, at;
      }
      at := at + 1;
    }
    return false, at;
  }

  method CountCopies(text: string, at: nat, n: nat) returns (k: nat)
    requires n > 0 && Triple(text, at, n)
    ensures k >= 3 && Copies(text, at, n, k)
  {
    k := 3;
    TripleCopies(text, at, n);
    while at + (k + 1) * n <= |text| && text[at..at + n] == text[at + k * n..at + (k + 1) * n]
      invariant k >= 3 && forall j :: 0 < j < k ==> Again(text, at, n, j)
      decreases |text| - k
    {
      CopyFits(k, n);
      k := k + 1;
    }
  }

  lemma TripleCopies(text: string, at: nat, n: nat)
    requires Triple(text, at, n)
    ensures Again(text, at, n, 1) && Again(text, at, n, 2)
  {
    assert (1 + 1) * n == 2 * n && (2 + 1) * n == 3 * n;
  }

  lemma CopyFits(k: nat, n: nat)
    requires n > 0
    ensures (k + 1) * n >= k + 1
  {}

  // ----- trimming

  function TrimRight(s: string): string
    decreases |s|
  {
    if s != "" && IsSpace(s[|s| - 1]) then TrimRight(s[..|s| - 1]) else s
  }

  function TrimCopy(s: string): string { TrimRight(TrimLeft(s)) }

  lemma {:induction false} TrimLeftIsSuffix(s: string)
    ensures exists k: nat :: k <= |s| && TrimLeft(s) == s[k..]
    decreases |s|
  {
    if s != "" && IsSpace(s[0]) {
      TrimLeftIsSuffix(s[1..]);
      var k: nat :| k <= |s| - 1 && TrimLeft(s[1..]) == s[1..][k..];
      assert s[1..][k..] == s[k + 1..];
    } else {
      assert s == s[0..];
    }
  }

  lemma {:induction false} TrimRightIsPrefix(s: string)
    ensures exists k: nat :: k <= |s| && TrimRight(s) == s[..k]
    decreases |s|
  {
    if s != "" && IsSpace(s[|s| - 1]) {
      TrimRightIsPrefix(s[..|s| - 1]);
      var k: nat :| k <= |s| - 1 && TrimRight(s[..|s| - 1]) == s[..|s| - 1][..k];
      assert s[..|s| - 1][..k] == s[..k];
    } else {
      assert s == s[..|s|];
    }
  }

  lemma {:induction false} TrimRightStops(s: string)
    ensures var t := TrimRight(s); t != "" ==> !IsSpace(t[|t| - 1]) && t[0] == s[0]
    decreases |s|
  {
    if s != "" && IsSpace(s[|s| - 1]) { TrimRightStops(s[..|s| - 1]); }
  }

  /** Trimming once is enough. */
  lemma TrimTwice(s: string)
    ensures TrimCopy(TrimCopy(s)) == TrimCopy(s)
  {
    TrimRightStops(TrimLeft(s));
  }

  /** The triples of a part of a text are those of the text that lie in it. */
  lemma TripleInPart(text: string, a: nat, b: nat, i: nat, n: nat)
    requires a <= b <= |text|
    ensures Triple(text[a..b], i, n) <==> a + i + 3 * n <= b && Triple(text, a + i, n)
  {
    if a + i + 3 * n <= b {
      SliceOfSlice(text, a, b, i, i + n);
      SliceOfSlice(text, a, b, i + n, i + 2 * n);
      SliceOfSlice(text, a, b, i + 2 * n, i + 3 * n);
    }
  }

  lemma SliceOfSlice(s: string, a: nat, b: nat, x: nat, y: nat)
    requires a <= b <= |s| && x <= y <= b - a
    ensures s[a..b][x..y] == s[a + x..a + y]
  {
    var u, v := s[a..b][x..y], s[a + x..a + y];
    forall k | 0 <= k < y - x ensures u[k] == v[k] {
      assert u[k] == s[a..b][x + k] == s[a + x + k];
    }
    assert u == v;
  }

  /** Where the part that trimming keeps begins and ends. */
  function KeptFrom(s: string): nat { |s| - |TrimLeft(s)| }

  function KeptTo(s: string): nat { KeptFrom(s) + |TrimCopy(s)| }

  lemma TrimIsPart(s: string)
    ensures KeptTo(s) <= |s| && TrimCopy(s) == s[KeptFrom(s)..KeptTo(s)]
  {
    TrimLeftIsSuffix(s);
    var a: nat :| a <= |s| && TrimLeft(s) == s[a..];
    TrimRightIsPrefix(s[a..]);
    var k: nat :| k <= |s| - a && TrimRight(s[a..]) == s[a..][..k];
    assert s[a..][..k] == s[a..a + k];
  }

  /** The triples of the text that is left after a cut and a trim, in terms of the text itself. */
  lemma TripleAfterTrim(text: string, cut: nat, i: nat, n: nat)
    requires cut <= |text|
    ensures var head := text[..cut];
            Triple(TrimCopy(head), i, n) <==>
            KeptFrom(head) + i + 3 * n <= KeptTo(head) && Triple(text, KeptFrom(head) + i, n)
  {
    hide Triple, TrimCopy, KeptFrom, KeptTo;
    var head := text[..cut];
    TrimIsPart(head);
    KeptInOrder(head);
    TripleInPart(head, KeptFrom(head), KeptTo(head), i, n);
    assert head == text[0..cut];
    TripleInPart(text, 0, cut, KeptFrom(head) + i, n);
  }

  lemma KeptInOrder(s: string)
    ensures KeptFrom(s) <= KeptTo(s)
  {}

  /** Cutting after the first copy and trimming leaves no triple of the reported length or a shorter one in range. */
  lemma CutLeavesNone(text: string, at: nat, unit: nat, copies: nat)
    requires Reports(text, at, unit, copies)
    ensures NoTriple(TrimCopy(text[..at + unit]), unit)
  {
    hide Triple, TrimCopy, Copies, KeptFrom, KeptTo;
    ReportFits(text, at, unit, copies);
    var head := text[..at + unit];
    KeptInOrder(head);
    TrimIsPart(head);
    forall n: nat, i: nat | SHORTEST <= n <= unit ensures !Triple(TrimCopy(head), i, n) {
      TripleAfterTrim(text, at + unit, i, n);
    }
  }

  /** A longer repeat of the text lies within what the cut and the trim keep. */
  ghost predicate LongerKept(text: string, cut: nat, unit: nat)
    requires cut <= |text|
  {
    exists n: nat, i: nat ::
      && unit < n <= LONGEST && Triple(text, i, n)
      && KeptFrom(text[..cut]) <= i && i + 3 * n <= KeptTo(text[..cut])
  }

  /** Exactly when one trim is enough: no longer repeat lies within what it keeps. */
  lemma TrimIsEnoughIff(text: string, at: nat, unit: nat, copies: nat)
    requires Reports(text, at, unit, copies)
    ensures at + unit <= |text|
    ensures NoTriple(TrimCopy(text[..at + unit]), LONGEST) <==> !LongerKept(text, at + unit, unit)
  {
    hide Triple, TrimCopy, Copies, KeptFrom, KeptTo;
    ReportFits(text, at, unit, copies);
    CutLeavesNone(text, at, unit, copies);
    var cut := at + unit;
    var r, from := TrimCopy(text[..cut]), KeptFrom(text[..cut]);
    if LongerKept(text, cut, unit) {
      var n: nat, i: nat :|
        && unit < n <= LONGEST && Triple(text, i, n)
        && from <= i && i + 3 * n <= KeptTo(text[..cut]);
      TripleAfterTrim(text, cut, i - from, n);
      assert Triple(r, i - from, n);
    } else {
      forall n: nat, i: nat | SHORTEST <= n <= LONGEST ensures !Triple(r, i, n) {
        if n > unit { TripleAfterTrim(text, cut, i, n); }
      }
    }
  }

  lemma ReportFits(text: string, at: nat, unit: nat, copies: nat)
    requires Reports(text, at, unit, copies)
    ensures unit > 0 && at + 3 * unit <= |text|
  {}

  /** trim_ngram_loop. */
  method TrimNgramLoop(text: string) returns (r: string)
    ensures NoTriple(text, LONGEST) ==> r == text
    ensures forall at: nat, unit: nat, copies: nat :: Reports(text, at, unit, copies) ==>
              && at + unit <= |text| && r == TrimCopy(text[..at + unit]) && NoTriple(r, unit)
              && (NoTriple(r, LONGEST) <==> !LongerKept(text, at + unit, unit))
  {
    hide Triple, Copies, TrimCopy, LongerKept;
    var found, at, unit, copies := FindNgramLoop(text);
    if !found { return text; }
    CutLeavesNone(text, at, unit, copies);
    TrimIsEnoughIff(text, at, unit, copies);
    r := TrimCopy(text[..at + unit]);
    forall a: nat, n: nat, k: nat | Reports(text, a, n, k) ensures a == at && n == unit && k == copies {
      ReportIsUnique(text, a, n, k, at, unit, copies);
    }
  }

  // ----- what a trim can leave: three sevens before three sixes

  function Sample(): (s: string)
    ensures |s| == 39
    ensures forall i :: 0 <= i < 21 ==> s[i] == ('a' as int + i % 7) as char
    ensures forall i :: 21 <= i < 39 ==> s[i] == ('n' as int + (i - 21) % 6) as char
  {
    seq(39, i requires 0 <= i < 39 =>
      if i < 21 then ('a' as int + i % 7) as char else ('n' as int + (i - 21) % 6) as char)
  }

  /** A text for which one trim is not enough: a longer repeat stands before the reported one. */
  lemma TrimMayLeaveLonger()
    ensures exists at: nat, copies: nat :: Reports(Sample(), at, 6, copies) && Triple(Sample()[..at + 6], 0, 7)
  {
    var s := Sample();
    SampleTriples();
    forall i: nat | i < 21 ensures !Triple(s, i, 6) { NoSixBefore(i); }
    NoSevenCopies();
    assert Reports(s, 21, 6, 3);
    assert Triple(s[..21 + 6], 0, 7) by { SevenKept(); }
  }

  lemma SampleTriples()
    ensures Triple(Sample(), 21, 6)
  {
    var s := Sample();
    assert s[21..27] == s[27..33] == s[33..39];
  }

  lemma SevenKept()
    ensures Triple(Sample()[..27], 0, 7)
  {
    var s := Sample()[..27];
    forall k | 0 <= k < 7 ensures s[0..7][k] == s[7..14][k] == s[14..21][k] {
      assert s[0..7][k] == Sample()[k] && s[7..14][k] == Sample()[7 + k] && s[14..21][k] == Sample()[14 + k];
    }
    assert s[0..7] == s[7..14] == s[14..21];
  }

  lemma NoSixBefore(i: nat)
    requires i < 21
    ensures !Triple(Sample(), i, 6)
  {
    var s := Sample();
    if i + 18 <= 39 {
      var k := if i < 15 then 0 else 20 - i;
      assert s[i..i + 6][k] == s[i + k];
      assert s[i + 6..i + 12][k] == s[i + 6 + k];
      assert s[i + k] != s[i + 6 + k];
    }
  }

  lemma NoSevenCopies()
    ensures Copies(Sample(), 21, 6, 3)
  {
    var s := Sample();
    SampleTriples();
    TripleCopies(s, 21, 6);
  }
}
