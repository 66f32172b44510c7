/** Python's str.splitlines(keepends=True), the unit in which desk_review_plan.py covers a source. */
module SourceLines {
  import opened Text

  predicate IsBreak(c: char) {
    || c == '\n' || c == '\r' || c == '\U{000B}' || c == '\U{000C}' || c == '\U{001C}' || c == '\U{001D}'
    || c == '\U{001E}' || c == '\U{0085}' || c == '\U{2028}' || c == '\U{2029}'
  }

  /** Length of the first line, its break included; CR LF is one break. */
  function LineLen(s: string): (n: nat)
    requires s != ""
    ensures 0 < n <= |s|
    decreases |s|
  {
    if IsBreak(s[0]) then
      if s[0] == '\r' && |s| > 1 && s[1] == '\n' then 2 else 1
    else if |s| == 1 then 1
    else 1 + LineLen(s[1..])
  }

  function SplitLines(s: string): seq<string>
    decreases |s|
  {
    if s == "" then [] else [s[..LineLen(s)]] + SplitLines(s[LineLen(s)..])
  }

  /** The lines put together are the text. */
  lemma {:induction false} LinesJoin(s: string)
    ensures Join(SplitLines(s)) == s
    ensures SplitLines(s) == [] <==> s == ""
    decreases |s|
  {
    if s != "" {
      LinesJoin(s[LineLen(s)..]);
      assert s == s[..LineLen(s)] + s[LineLen(s)..];
    }
  }

  /** No line break is torn between the two. */
  predicate Apart(x: string, y: string) { y == "" || !(x != "" && x[|x| - 1] == '\r' && y[0] == '\n') }

  /** Exactly one line, with its break unless it may be the last. */
  predicate OneLine(x: string, last: bool) {
    x != "" && LineLen(x) == |x| && (last || IsBreak(x[|x| - 1]))
  }

  /** What a split looks like: one line each, and no break torn between neighbours. */
  predicate Cut(lines: seq<string>) {
    && (forall i :: 0 <= i < |lines| ==> OneLine(lines[i], i == |lines| - 1))
    && (forall i :: 0 < i < |lines| ==> Apart(lines[i - 1], lines[i]))
  }

  lemma {:induction false} LineLenAppend(x: string, y: string)
    requires OneLine(x, false) && Apart(x, y)
    ensures LineLen(x + y) == |x|
    decreases |x|
  {
    if !IsBreak(x[0]) {
      assert (x + y)[1..] == x[1..] + y;
      LineLenAppend(x[1..], y);
    }
  }

  lemma {:induction false} FirstLine(s: string)
    requires s != ""
    ensures var n := LineLen(s); OneLine(s[..n], n == |s|) && Apart(s[..n], s[n..])
    decreases |s|
  {
    var n := LineLen(s);
    if !IsBreak(s[0]) && |s| > 1 {
      FirstLine(s[1..]);
      assert s[..n][1..] == s[1..][..n - 1] && s[n..] == s[1..][n - 1..];
    }
  }

  lemma {:induction false} SplitIsCut(s: string)
    ensures Cut(SplitLines(s))
    decreases |s|
  {
    hide LineLen;
    if s != "" {
      var n := LineLen(s);
      var rest := SplitLines(s[n..]);
      FirstLine(s);
      SplitIsCut(s[n..]);
      if rest != [] {
        assert rest[0][0] == s[n..][0];
      }
      var lines := SplitLines(s);
      assert lines == [s[..n]] + rest;
      forall i | 0 <= i < |lines| ensures OneLine(lines[i], i == |lines| - 1) {
        if i > 0 { assert lines[i] == rest[i - 1]; }
      }
    }
  }

  /** Lines cut from one text split again exactly as they were. */
  lemma {:induction false} CutSplits(lines: seq<string>)
    requires Cut(lines)
    ensures SplitLines(Join(lines)) == lines
    decreases |lines|
  {
    if lines != [] {
      var rest := lines[1..];
      forall i | 0 <= i < |rest| ensures OneLine(rest[i], i == |rest| - 1) {
        assert OneLine(lines[i + 1], i + 1 == |lines| - 1);
      }
      CutSplits(rest);
      assert OneLine(lines[0], |lines| == 1);
      if rest == [] {
        assert lines[0] + "" == lines[0];
      } else {
        assert Apart(lines[0], lines[1]) && OneLine(rest[0], |rest| == 1);
        assert Join(rest)[0] == rest[0][0];
        LineLenAppend(lines[0], Join(rest));
      }
    }
  }

  /** Any run of a text's lines, joined and split again, is the same run: a part can be renumbered from its own text. */
  lemma PartSplits(s: string, first: nat, end: nat)
    requires first <= end <= |SplitLines(s)|
    ensures SplitLines(Join(SplitLines(s)[first..end])) == SplitLines(s)[first..end]
  {
    var lines := SplitLines(s);
    SplitIsCut(s);
    var part := lines[first..end];
    forall i | 0 <= i < |part| ensures OneLine(part[i], i == |part| - 1) {
      assert OneLine(lines[first + i], first + i == |lines| - 1);
    }
    forall i | 0 < i < |part| ensures Apart(part[i - 1], part[i]) {
      assert Apart(lines[first + i - 1], lines[first + i]);
    }
    CutSplits(part);
  }

  // ----- counting line feeds

  function Feeds(s: string): nat
    decreases |s|
  {
    if s == "" then 0 else (if s[|s| - 1] == '\n' then 1 else 0) + Feeds(s[..|s| - 1])
  }

  lemma {:induction false} FeedsAppend(x: string, y: string)
    ensures Feeds(x + y) == Feeds(x) + Feeds(y)
    decreases |y|
  {
    if y == "" {
      assert x + y == x;
    } else {
      FeedsAppend(x, y[..|y| - 1]);
      assert (x + y)[..|x + y| - 1] == x + y[..|y| - 1];
    }
  }

  /** The line feeds before a place in a text are fewer than its lines. */
  lemma {:induction false} FeedsBelowLines(s: string, p: nat)
    requires p < |s|
    ensures Feeds(s[..p]) < |SplitLines(s)|
    decreases |s|
  {
    var n := LineLen(s);
    FeedsInLine(s);
    if p < n {
      FeedsPrefix(s, p, n - 1);
    } else {
      assert s[..p] == s[..n] + s[n..][..p - n];
      FeedsAppend(s[..n], s[n..][..p - n]);
      assert s[..n] == s[..n - 1] + [s[n - 1]];
      FeedsAppend(s[..n - 1], [s[n - 1]]);
      FeedsBelowLines(s[n..], p - n);
    }
  }

  lemma {:induction false} FeedsInLine(s: string)
    requires s != ""
    ensures Feeds(s[..LineLen(s) - 1]) == 0
    decreases |s|
  {
    var n := LineLen(s);
    if !IsBreak(s[0]) && |s| > 1 {
      FeedsInLine(s[1..]);
      assert s[..n - 1] == [s[0]] + s[1..][..n - 2];
      FeedsAppend([s[0]], s[1..][..n - 2]);
    }
  }

  lemma FeedsPrefix(s: string, p: nat, q: nat)
    requires p <= q <= |s|
    ensures Feeds(s[..p]) <= Feeds(s[..q])
  {
    assert s[..q] == s[..p] + s[p..q];
    FeedsAppend(s[..p], s[p..q]);
  }
}
