/** What parse_apply_blocks of local_edit.cpp takes for a block, for its path and for its texts, on any text. */
module BlockReading {
  import opened Text
  import opened ApplyBlocks

  ghost predicate Marked(text: string, marks: set<string>, i: int) { exists m :: m in marks && IsAt(text, m, i) }

  /** The first place from `from` on where one of the marks stands. */
  ghost predicate FirstAt(text: string, marks: set<string>, from: nat, i: int) {
    from <= i && Marked(text, marks, i) && forall j :: from <= j < i ==> !Marked(text, marks, j)
  }

  ghost predicate NoneFrom(text: string, marks: set<string>, from: nat) {
    forall j :: from <= j ==> !Marked(text, marks, j)
  }

  const OPENERS := {"*** APPLY", "***APPLY"}

  const CLOSERS := {"*** END", "***END"}

  lemma FindIsFirst(text: string, from: nat, m: string)
    ensures var at := Find(text, m, from);
            if at == -1 then NoneFrom(text, {m}, from) else FirstAt(text, {m}, from, at)
  {
    hide Find, IsAt;
    var at := Find(text, m, from);
    if at != -1 { assert m in {m} && Marked(text, {m}, at); }
  }

  lemma FindMarkerIsFirst(text: string, from: nat, spaced: string, tight: string)
    ensures var at := FindMarker(text, from, spaced, tight);
            if at == -1 then NoneFrom(text, {spaced, tight}, from) else FirstAt(text, {spaced, tight}, from, at)
  {
    hide Find, IsAt;
    var marks, at := {spaced, tight}, FindMarker(text, from, spaced, tight);
    assert spaced in marks && tight in marks;
    if at != -1 { assert Marked(text, marks, at); }
  }

  /**
   The next block begins at the first opener and stops at the first closer after it, or, where no closer
   comes, after the first `>>>>`.
   */
  lemma NextBlockIs(text: string, pos: nat)
    ensures match NextBlock(text, pos)
            case Some((start, stop)) =>
              && FirstAt(text, OPENERS, pos, start)
              && (FirstAt(text, CLOSERS, start, stop)
                  || (NoneFrom(text, CLOSERS, start) && FirstAt(text, {">>>>"}, start, stop - 4)))
            case None =>
              || NoneFrom(text, OPENERS, pos)
              || exists start ::
                   FirstAt(text, OPENERS, pos, start)
                   && NoneFrom(text, CLOSERS, start) && NoneFrom(text, {">>>>"}, start)
  {
    hide Find, FindMarker, Marked, FirstAt, NoneFrom;
    FindMarkerIsFirst(text, pos, "*** APPLY", "***APPLY");
    var start := FindMarker(text, pos, "*** APPLY", "***APPLY");
    if start != -1 {
      FindMarkerIsFirst(text, start, "*** END", "***END");
      FindIsFirst(text, start, ">>>>");
    }
  }

  // ----- the path

  const FRONT := {'`', '\"', '\'', ' ', '\t'}

  const BACK := {'`', '\"', '\'', ' ', '\t', '\r'}

  /** What stays of s between quotes and blanks: from a to b. */
  predicate Core(s: string, a: nat, b: nat) {
    && a <= b <= |s|
    && (forall i :: 0 <= i < a ==> s[i] in FRONT) && (forall i :: b <= i < |s| ==> s[i] in BACK)
    && (a < |s| ==> s[a] !in FRONT) && (a < b ==> s[b - 1] !in BACK)
  }

  predicate CoreIs(s: string, t: string, a: nat, b: nat) {
    Core(s, a, b) && |t| == b - a && forall i :: 0 <= i < |t| ==> t[i] == if s[a + i] == '/' then '\\' else s[a + i]
  }

  /** The core of s, with backslashes. */
  ghost predicate Token(s: string, t: string) { exists a: nat, b: nat :: CoreIs(s, t, a, b) }

  lemma {:induction false} FrontIs(s: string)
    ensures var t := TrimFront(s);
            var a := |s| - |t|;
            0 <= a && t == s[a..] && (forall i :: 0 <= i < a ==> s[i] in FRONT) && (a < |s| ==> s[a] !in FRONT)
    decreases |s|
  {
    if s != "" && FrontJunk(s[0]) {
      FrontIs(s[1..]);
      var a := |s| - |TrimFront(s)|;
      forall i | 0 <= i < a ensures s[i] in FRONT { assert i > 0 ==> s[1..][i - 1] == s[i]; }
    }
  }

  lemma {:induction false} BackIs(s: string)
    ensures var t := TrimBack(s);
            t <= s && (forall i :: |t| <= i < |s| ==> s[i] in BACK) && (t != "" ==> t[|t| - 1] !in BACK)
    decreases |s|
  {
    if s != "" && BackJunk(s[|s| - 1]) { BackIs(s[..|s| - 1]); }
  }

  lemma TokenIs(s: string)
    ensures Token(s, TrimPathToken(s))
  {
    hide TrimFront, TrimBack;
    FrontIs(s);
    BackIs(TrimFront(s));
    var a := |s| - |TrimFront(s)|;
    var b := a + |TrimBack(TrimFront(s))|;
    assert forall i :: b <= i < |s| ==> s[i] == TrimFront(s)[i - a];
    assert CoreIs(s, TrimPathToken(s), a, b);
  }

  /** Blanks before it make no difference to a token. */
  lemma TokenAfterBlanks(s: string, k: nat, t: string)
    requires k <= |s| && (forall i :: 0 <= i < k ==> s[i] in {' ', '\t'}) && Token(s[k..], t)
    ensures Token(s, t)
  {
    var a: nat, b: nat :| CoreIs(s[k..], t, a, b);
    forall i | 0 <= i < k + a ensures s[i] in FRONT { assert i >= k ==> s[i] == s[k..][i - k]; }
    forall i: nat | k + b <= i < |s| ensures s[i] in BACK { assert s[i] == s[k..][i - k]; }
    assert CoreIs(s, t, k + a, k + b);
  }

  predicate Breaks(c: char) { c == '\r' || c == '\n' }

  /** The line that goes on at `from` ends at `end`. */
  predicate EndsLine(s: string, from: nat, end: nat) {
    from <= end <= |s| && (forall i :: from <= i < end ==> !Breaks(s[i])) && (end < |s| ==> Breaks(s[end]))
  }

  lemma {:induction false} BlanksAre(s: string, from: nat)
    requires from <= |s|
    ensures forall i :: from <= i < SkipBlanks(s, from) ==> s[i] in {' ', '\t'}
    decreases |s| - from
  {
    if from < |s| && (s[from] == ' ' || s[from] == '\t') { BlanksAre(s, from + 1); }
  }

  lemma {:induction false} LineEndIsFirst(s: string, from: nat)
    requires from <= |s|
    ensures EndsLine(s, from, LineEnd(s, from))
    decreases |s| - from
  {
    if from < |s| && !Breaks(s[from]) { LineEndIsFirst(s, from + 1); }
  }

  ghost predicate PathAt(block: string, path: string, at: nat, end: nat) {
    FirstAt(block, {"path:"}, 0, at) && EndsLine(block, at + 5, end) && Token(block[at + 5..end], path)
  }

  /** The path is what stands after the first `path:`, up to the end of the line, trimmed and with backslashes. */
  ghost predicate PathStands(block: string, path: string) {
    exists at: nat, end: nat :: PathAt(block, path, at, end)
  }

  lemma PathIs(block: string)
    ensures match PathIn(block) case None => NoneFrom(block, {"path:"}, 0) case Some(path) => PathStands(block, path)
  {
    hide Find, FirstAt, NoneFrom, SkipBlanks, LineEnd, TrimPathToken, Token;
    FindIsFirst(block, 0, "path:");
    var at := Find(block, "path:", 0);
    if at != -1 {
      var line := SkipBlanks(block, at + 5);
      var end := LineEnd(block, line);
      BlanksAre(block, at + 5);
      LineEndIsFirst(block, line);
      TokenIs(block[line..end]);
      var s := block[at + 5..end];
      assert s[line - (at + 5)..] == block[line..end];
      TokenAfterBlanks(s, line - (at + 5), TrimPathToken(block[line..end]));
      assert PathAt(block, TrimPathToken(block[line..end]), at, end);
    }
  }

  // ----- the texts

  /** t is s without the one line break it may begin with: CR LF, or either alone. */
  predicate Unbroken(s: string, t: string) {
    if s != "" && s[0] == '\r' then
      if |s| > 1 && s[1] == '\n' then s == "\r\n" + t else s == "\r" + t
    else if s != "" && s[0] == '\n' then s == "\n" + t else s == t
  }

  lemma DropBreakIs(s: string)
    ensures Unbroken(s, DropBreak(s))
  {}

  /** The texts stand between the first `<<<<`, the first `====` after it and the first `>>>>` after that. */
  ghost predicate TextsStand(block: string, oldText: string, newText: string) {
    exists i: nat, j: nat, k: nat ::
      && FirstAt(block, {"<<<<"}, 0, i) && FirstAt(block, {"===="}, i, j) && FirstAt(block, {">>>>"}, j, k)
      && i + 4 <= j && j + 4 <= k <= |block|
      && Unbroken(block[i + 4..j], oldText) && Unbroken(block[j + 4..k], newText)
  }

  ghost predicate MarkMissing(block: string) {
    || NoneFrom(block, {"<<<<"}, 0)
    || exists i: nat ::
         && FirstAt(block, {"<<<<"}, 0, i)
         && (NoneFrom(block, {"===="}, i)
             || exists j: nat :: FirstAt(block, {"===="}, i, j) && NoneFrom(block, {">>>>"}, j))
  }

  lemma TextsAre(block: string)
    ensures match TextsIn(block)
            case None => MarkMissing(block)
            case Some((oldText, newText)) => TextsStand(block, oldText, newText)
  {
    hide Find, FirstAt, NoneFrom, DropBreak, Unbroken;
    FindIsFirst(block, 0, "<<<<");
    var i := Find(block, "<<<<", 0);
    if i != -1 {
      FindIsFirst(block, i, "====");
      var j := Find(block, "====", i);
      if j != -1 {
        FindIsFirst(block, j, ">>>>");
        var k := Find(block, ">>>>", j);
        if k != -1 {
          MarkersApart(block, i, j, k);
          DropBreakIs(block[i + 4..j]);
          DropBreakIs(block[j + 4..k]);
        }
      }
    }
  }

  /** A block is read as the path and the texts that stand in it; not at all without its path or one of its marks. */
  lemma BlockIs(block: string)
    ensures match BlockHunk(block)
            case Some(h) => h.path != "" && PathStands(block, h.path) && TextsStand(block, h.oldText, h.newText)
            case None => NoneFrom(block, {"path:"}, 0) || PathStands(block, "") || MarkMissing(block)
  {
    hide PathIn, TextsIn, PathStands, TextsStand, MarkMissing, NoneFrom;
    PathIs(block);
    TextsAre(block);
  }
}
