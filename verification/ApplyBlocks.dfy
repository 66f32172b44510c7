/** The apply-block parser of local_edit.cpp, with the printer whose output it reads back. */
module ApplyBlocks {
  import opened Text

  datatype Hunk = Hunk(path: string, oldText: string, newText: string)

  const MAX_HUNKS: nat := 6

  /** The earlier of two spellings of a marker. */
  function FindMarker(text: string, from: nat, spaced: string, tight: string): (at: int)
    ensures at == -1 || from <= at <= |text|
  {
    var a, b := Find(text, spaced, from), Find(text, tight, from);
    if a == -1 then b else if b == -1 then a else Min(a, b)
  }

  predicate FrontJunk(c: char) { c in {'`', '\"', '\'', ' ', '\t'} }

  predicate BackJunk(c: char) { FrontJunk(c) || c == '\r' }

  function TrimFront(s: string): string {
    if s != "" && FrontJunk(s[0]) then TrimFront(s[1..]) else s
  }

  function TrimBack(s: string): string {
    if s != "" && BackJunk(s[|s| - 1]) then TrimBack(s[..|s| - 1]) else s
  }

  function BackSlashes(s: string): string {
    seq(|s|, i requires 0 <= i < |s| => if s[i] == '/' then '\\' else s[i])
  }

  function TrimPathToken(path: string): string { BackSlashes(TrimBack(TrimFront(path))) }

  function SkipBlanks(s: string, from: nat): (k: nat)
    requires from <= |s|
    ensures from <= k <= |s|
    decreases |s| - from
  {
    if from < |s| && (s[from] == ' ' || s[from] == '\t') then SkipBlanks(s, from + 1) else from
  }

  function LineEnd(s: string, from: nat): (k: nat)
    requires from <= |s|
    ensures from <= k <= |s|
    decreases |s| - from
  {
    if from < |s| && s[from] != '\r' && s[from] != '\n' then LineEnd(s, from + 1) else from
  }

  /** One leading line break, CR LF or either alone. */
  function DropBreak(s: string): string {
    var t := if s != "" && s[0] == '\r' then s[1..] else s;
    if t != "" && t[0] == '\n' then t[1..] else t
  }

  /** The text after `path:` on its line, trimmed. */
  function PathIn(block: string): Option<string> {
    var pathAt := Find(block, "path:", 0);
    if pathAt == -1 then None else
    var line := SkipBlanks(block, pathAt + 5);
    Some(TrimPathToken(block[line..LineEnd(block, line)]))
  }

  /** The old and the new text between the three inner markers. */
  function TextsIn(block: string): Option<(string, string)> {
    var oldAt := Find(block, "<<<<", 0);
    if oldAt == -1 then None else
    var midAt := Find(block, "====", oldAt);
    if midAt == -1 then None else
    var newAt := Find(block, ">>>>", midAt);
    if newAt == -1 then None else
    MarkersApart(block, oldAt, midAt, newAt);
    Some((DropBreak(block[oldAt + 4..midAt]), DropBreak(block[midAt + 4..newAt])))
  }

  /** The hunk a block holds, if its path and its three inner markers are there. */
  function BlockHunk(block: string): Option<Hunk> {
    match (PathIn(block), TextsIn(block))
    case (Some(path), Some((oldText, newText))) => if path == "" then None else Some(Hunk(path, oldText, newText))
    case _ => None
  }

  lemma MarkersApart(block: string, oldAt: nat, midAt: nat, newAt: nat)
    requires IsAt(block, "<<<<", oldAt) && IsAt(block, "====", midAt) && IsAt(block, ">>>>", newAt)
    requires oldAt <= midAt <= newAt
    ensures oldAt + 4 <= midAt && midAt + 4 <= newAt <= |block|
  {
    CharAt(block, "====", midAt, 0);
    CharAt(block, ">>>>", newAt, 0);
    CharAt(block, "<<<<", oldAt, Min(3, midAt - oldAt));
    CharAt(block, "====", midAt, Min(3, newAt - midAt));
  }

  /** Where the next block starts and stops; a block without an end marker stops after `>>>>`. */
  function NextBlock(text: string, pos: nat): (r: Option<(nat, nat)>)
    ensures r.Some? ==> pos <= r.value.0 <= r.value.1 <= |text|
  {
    var start := FindMarker(text, pos, "*** APPLY", "***APPLY");
    if start == -1 then None else
    var stop := FindMarker(text, start, "*** END", "***END");
    if stop != -1 then Some((start, stop)) else
    var gt := Find(text, ">>>>", start);
    if gt == -1 then None else Some((start, gt + 4))
  }

  function Parse(text: string, pos: nat, room: nat): seq<Hunk>
    decreases |text| - pos
  {
    if room == 0 then [] else
    match NextBlock(text, pos)
    case None => []
    case Some((start, stop)) =>
      match BlockHunk(text[start..stop])
      case None => Parse(text, stop + 6, room)
      case Some(hunk) => [hunk] + Parse(text, stop + 6, room - 1)
  }

  /** All blocks from a place on, each between its markers, well formed or not. */
  function Blocks(text: string, pos: nat): seq<string>
    decreases |text| - pos
  {
    match NextBlock(text, pos)
    case None => []
    case Some((start, stop)) => [text[start..stop]] + Blocks(text, stop + 6)
  }

  /** The hunks of those that are well formed. */
  function Hunks(blocks: seq<string>): seq<Hunk>
    decreases |blocks|
  {
    if blocks == [] then []
    else (if BlockHunk(blocks[0]).Some? then [BlockHunk(blocks[0]).value] else []) + Hunks(blocks[1..])
  }

  /** A malformed block is passed over and does not count: what is parsed are the first of all well-formed blocks. */
  lemma {:induction false} MalformedIsPassedOver(text: string, pos: nat, room: nat)
    ensures var hunks := Hunks(Blocks(text, pos)); Parse(text, pos, room) == hunks[..Min(room, |hunks|)]
    decreases |text| - pos
  {
    hide BlockHunk, NextBlock;
    ParseUnfolds(text, pos, room);
    match NextBlock(text, pos) {
      case None =>
      case Some((start, stop)) =>
        NextInside(text, pos);
        var block, more := text[start..stop], Blocks(text, stop + 6);
        assert ([block] + more)[1..] == more;
        if room > 0 {
          MalformedIsPassedOver(text, stop + 6, if BlockHunk(block).Some? then room - 1 else room);
        }
    }
  }

  lemma NextInside(text: string, pos: nat)
    requires NextBlock(text, pos).Some?
    ensures var (start, stop) := NextBlock(text, pos).value; start <= stop <= |text| && stop + 6 > pos
  {}

  lemma ParseUnfolds(text: string, pos: nat, room: nat)
    ensures Parse(text, pos, room) ==
            if room == 0 then [] else
            match NextBlock(text, pos)
            case None => []
            case Some((start, stop)) =>
              match BlockHunk(text[start..stop])
              case None => Parse(text, stop + 6, room)
              case Some(hunk) => [hunk] + Parse(text, stop + 6, room - 1)
  {}

  /** parse_apply_blocks as the program runs it: a position that only moves forward. */
  method ParseApplyBlocks(text: string) returns (hunks: seq<Hunk>)
    ensures hunks == Parse(text, 0, MAX_HUNKS)
  {
    hide BlockHunk, NextBlock, Parse;
    hunks := [];
    var pos := 0;
    while |hunks| < MAX_HUNKS
      invariant |hunks| <= MAX_HUNKS
      invariant Parse(text, 0, MAX_HUNKS) == hunks + Parse(text, pos, MAX_HUNKS - |hunks|)
      decreases |text| - pos
    {
      ParseUnfolds(text, pos, MAX_HUNKS - |hunks|);
      var bounds := LocateBlock(text, pos);
      if bounds.None? { return; }
      var (start, stop) := bounds.value;
      var hunk := ReadBlock(text[start..stop]);
      if hunk.Some? {
        ghost var rest := Parse(text, stop + 6, MAX_HUNKS - |hunks| - 1);
        assert hunks + ([hunk.value] + rest) == hunks + [hunk.value] + rest;
        hunks := hunks + [hunk.value];
      }
      pos := stop + 6;
    }
    ParseUnfolds(text, pos, 0);
  }

  method LocateBlock(text: string, pos: nat) returns (bounds: Option<(nat, nat)>)
    ensures bounds == NextBlock(text, pos)
  {
    var start := FindMarker(text, pos, "*** APPLY", "***APPLY");
    if start == -1 { return None; }
    var stop := FindMarker(text, start, "*** END", "***END");
    if stop == -1 {
      var gt := Find(text, ">>>>", start);
      if gt == -1 { return None; }
      stop := gt + 4;
    }
    return Some((start, stop));
  }

  method ReadBlock(block: string) returns (hunk: Option<Hunk>)
    ensures hunk == BlockHunk(block)
  {
    hide TextsIn;
    var pathAt := Find(block, "path:", 0);
    if pathAt == -1 { return None; }
    var line := pathAt + 5;
    while line < |block| && (block[line] == ' ' || block[line] == '\t')
      invariant pathAt + 5 <= line <= |block|
      invariant SkipBlanks(block, line) == SkipBlanks(block, pathAt + 5)
    {
      line := line + 1;
    }
    var path := TrimPathToken(block[line..LineEnd(block, line)]);
    var texts := ReadTexts(block);
    if texts.None? || path == "" { return None; }
    return Some(Hunk(path, texts.value.0, texts.value.1));
  }

  method ReadTexts(block: string) returns (texts: Option<(string, string)>)
    ensures texts == TextsIn(block)
  {
    hide Find, DropBreak, IsAt;
    var oldAt := Find(block, "<<<<", 0);
    var midAt := Find(block, "====", if oldAt == -1 then 0 else oldAt);
    var newAt := Find(block, ">>>>", if midAt == -1 then 0 else midAt);
    if oldAt == -1 || midAt == -1 || newAt == -1 { return None; }
    MarkersApart(block, oldAt, midAt, newAt);
    var oldText, newText := block[oldAt + 4..midAt], block[midAt + 4..newAt];
    oldText := DropBreak(oldText);
    newText := DropBreak(newText);
    return Some((oldText, newText));
  }

  // ----- the printer

  function Head(h: Hunk): string { "*** APPLY\n" + ("path: " + (h.path + "\n")) }

  function Body(h: Hunk): string { Head(h) + (("<<<<\n" + h.oldText) + (("====\n" + h.newText) + ">>>>\n")) }

  function Print(h: Hunk): string { Body(h) + "*** END\n" }

  function PrintAll(hunks: seq<Hunk>): string {
    if hunks == [] then "" else Print(hunks[0]) + PrintAll(hunks[1..])
  }

  /** Made of whole lines. */
  predicate Closed(s: string) { s == "" || s[|s| - 1] == '\n' }

  ghost predicate MarkerFree(s: string, markers: set<string>) {
    forall m :: m in markers ==> !Contains(s, m)
  }

  const ENDS: set<string> := {"*** END", "***END"}

  /** A hunk the block format can carry: a trimmed one-line path with backslashes, texts of whole lines. */
  ghost predicate WellFormed(h: Hunk) {
    && h.path != "" && !FrontJunk(h.path[0]) && !BackJunk(h.path[|h.path| - 1])
    && (forall c :: c in h.path ==> c != '\n' && c != '\r' && c != '/')
    && Closed(h.oldText) && Closed(h.newText)
    && MarkerFree(h.path, ENDS + {"<<<<"})
    && MarkerFree(h.oldText, ENDS + {"===="})
    && MarkerFree(h.newText, ENDS + {">>>>"})
  }

  // ----- where a one-line pattern can stand in joined lines

  /** A one-line pattern that stands in a concatenation after whole lines stands in one of the two parts. */
  lemma NoStraddle(x: string, y: string, m: string, i: nat)
    requires Closed(x) && '\n' !in m && m != ""
    ensures IsAt(x + y, m, i) ==> IsAt(x, m, i) || (i >= |x| && IsAt(y, m, i - |x|))
  {
    if i + |m| <= |x| {
      AtPrefix(x, y, m, i);
    } else if i >= |x| {
      AtShift(x, y, m, i);
    } else if i + |m| <= |x + y| {
      assert (x + y)[i..i + |m|][|x| - 1 - i] == '\n';
    }
  }

  lemma ClosedAppend(x: string, y: string)
    requires Closed(x) && Closed(y)
    ensures Closed(x + y)
  {}

  lemma FreeAppend(x: string, y: string, m: string)
    requires Closed(x) && '\n' !in m && m != "" && !Contains(x, m) && !Contains(y, m)
    ensures !Contains(x + y, m)
  {
    forall i ensures !IsAt(x + y, m, i) {
      if i >= 0 { NoStraddle(x, y, m, i); }
    }
  }

  lemma FreeMissing(x: string, m: string, k: nat)
    requires k < |m| && m[k] !in x
    ensures !Contains(x, m)
  {
    forall i ensures !IsAt(x, m, i) {
      if 0 <= i && i + |m| <= |x| {
        assert x[i..i + |m|][k] == x[i + k];
      }
    }
  }

  /** A prefix without the pattern's first character adds no occurrence. */
  lemma FreePrefix(x: string, y: string, m: string)
    requires m != "" && m[0] !in x && !Contains(y, m)
    ensures !Contains(x + y, m)
  {
    forall i ensures !IsAt(x + y, m, i) {
      if i >= |x| {
        AtShift(x, y, m, i);
      } else if 0 <= i && i + |m| <= |x + y| {
        assert (x + y)[i..i + |m|][0] == x[i];
      }
    }
  }

  /** Neither does a final line break. */
  lemma FreeLine(x: string, m: string)
    requires '\n' !in m && m != "" && !Contains(x, m)
    ensures !Contains(x + "\n", m)
  {
    forall i ensures !IsAt(x + "\n", m, i) {
      if 0 <= i && i + |m| <= |x| {
        AtPrefix(x, "\n", m, i);
      } else if 0 <= i && i + |m| == |x| + 1 {
        assert (x + "\n")[i..i + |m|][|m| - 1] == '\n';
      }
    }
  }

  /** Whole lines without the pattern come before its first occurrence. */
  lemma NoneBefore(x: string, y: string, m: string)
    requires Closed(x) && '\n' !in m && m != "" && !Contains(x, m)
    ensures forall i :: 0 <= i < |x| ==> !IsAt(x + y, m, i)
    ensures var at := Find(x + y, m, 0); at == -1 || at >= |x|
    ensures IsAt(y, m, 0) ==> Find(x + y, m, 0) == |x|
  {
    hide IsAt;
    forall i | 0 <= i < |x| ensures !IsAt(x + y, m, i) {
      NoStraddle(x, y, m, i);
    }
    AtShift(x, y, m, |x|);
    if IsAt(y, m, 0) {
      FindIs(x + y, m, 0, |x|);
    }
  }

  // ----- reading back what the printer wrote

  lemma HeadFree(h: Hunk, m: string)
    requires WellFormed(h) && m in ENDS + {"<<<<"}
    ensures Closed(Head(h)) && !Contains(Head(h), m)
  {
    FreeLine(h.path, m);
    FreePrefix("path: ", h.path + "\n", m);
    FreeMissing("*** APPLY\n", m, if m == "<<<<" then 0 else |m| - 1);
    FreeAppend("*** APPLY\n", "path: " + (h.path + "\n"), m);
  }

  lemma BodyFree(h: Hunk, m: string)
    requires WellFormed(h) && m in ENDS
    ensures Closed(Body(h)) && !Contains(Body(h), m)
  {
    HeadFree(h, m);
    FreeMissing("<<<<\n", m, 0);
    FreeMissing("====\n", m, 0);
    FreeMissing(">>>>\n", m, 0);
    var o, n := "<<<<\n" + h.oldText, "====\n" + h.newText;
    FreeAppend("<<<<\n", h.oldText, m);
    FreeAppend("====\n", h.newText, m);
    FreeAppend(n, ">>>>\n", m);
    FreeAppend(o, n + ">>>>\n", m);
    FreeAppend(Head(h), o + (n + ">>>>\n"), m);
  }

  lemma {:induction false} LineEndIs(s: string, from: nat, to: nat)
    requires from <= to < |s| && s[to] == '\n' && forall i :: from <= i < to ==> s[i] != '\n' && s[i] != '\r'
    ensures LineEnd(s, from) == to
    decreases |s| - from
  {
    if from < to {
      LineEndIs(s, from + 1, to);
    }
  }

  lemma TrimKeeps(path: string)
    requires path != "" && !FrontJunk(path[0]) && !BackJunk(path[|path| - 1])
    requires '/' !in path
    ensures TrimPathToken(path) == path
  {
    assert forall i :: 0 <= i < |path| ==> path[i] in path;
    assert BackSlashes(path) == path;
  }

  lemma PathReadsBack(h: Hunk)
    requires WellFormed(h)
    ensures Find(Body(h), "path:", 0) == 10
    ensures SkipBlanks(Body(h), 15) == 16 && LineEnd(Body(h), 16) == 16 + |h.path|
    ensures TrimPathToken(Body(h)[16..16 + |h.path|]) == h.path
  {
    var b, x := Body(h), "*** APPLY\n";
    var y := "path: " + (h.path + ("\n" + b[|Head(h)|..]));
    assert b == x + y;
    assert y[..5] == "path:";
    assert IsAt(y, "path:", 0);
    FreeMissing(x, "path:", 0);
    NoneBefore(x, y, "path:");
    assert b[15] == y[5] && b[16] == y[6] == h.path[0];
    assert b[16..16 + |h.path|] == h.path;
    TrimKeeps(h.path);
    forall i | 16 <= i < 16 + |h.path| ensures b[i] != '\n' && b[i] != '\r' {
      assert b[i] == h.path[i - 16] && h.path[i - 16] in h.path;
    }
    assert b[16 + |h.path|] == '\n';
    LineEndIs(b, 16, 16 + |h.path|);
  }

  /** A pattern absent from whole lines is found where the next part begins with it. */
  lemma Joint(pre: string, x: string, y: string, m: string)
    requires Closed(x) && '\n' !in m && m != "" && !Contains(x, m) && IsAt(y, m, 0)
    ensures Find(pre + (x + y), m, |pre|) == |pre| + |x|
  {
    hide IsAt, Find;
    NoneBefore(x, y, m);
    FindShift(pre, x + y, m);
  }

  lemma OldMarkerFound(h: Hunk, rest: string)
    requires WellFormed(h) && IsAt(rest, "<<<<", 0)
    ensures Find(Head(h) + rest, "<<<<", 0) == |Head(h)|
  {
    HeadFree(h, "<<<<");
    hide IsAt, Find, Head;
    Joint("", Head(h), rest, "<<<<");
    assert "" + (Head(h) + rest) == Head(h) + rest;
  }

  /** The marker after a text is found behind it, wherever the text starts. */
  lemma NextMarkerFound(pre: string, marker: string, text: string, rest: string, next: string)
    requires Closed(marker) && Closed(text) && '\n' !in next && next != "" && next[0] !in marker
    requires !Contains(text, next) && IsAt(rest, next, 0)
    ensures Find(pre + ((marker + text) + rest), next, |pre|) == |pre| + |marker| + |text|
  {
    hide IsAt, Find, Contains, Closed;
    ClosedAppend(marker, text);
    FreeMissing(marker, next, 0);
    FreeAppend(marker, text, next);
    Joint(pre, marker + text, rest, next);
  }

  /** A line of four marks begins with them, whatever follows. */
  lemma MarksFirst(c: char, rest: string)
    ensures IsAt([c, c, c, c, '\n'] + rest, [c, c, c, c], 0)
  {
    assert ([c, c, c, c, '\n'] + rest)[0..4] == [c, c, c, c];
  }

  lemma MarkersReadBack(h: Hunk)
    requires WellFormed(h)
    ensures var b, oldAt := Body(h), |Head(h)|;
            var midAt := oldAt + 5 + |h.oldText|; var newAt := midAt + 5 + |h.newText|;
            Find(b, "<<<<", 0) == oldAt && Find(b, "====", oldAt) == midAt && Find(b, ">>>>", midAt) == newAt
  {
    hide IsAt, Find, Head;
    var o, n := "<<<<\n" + h.oldText, "====\n" + h.newText;
    var tail := n + ">>>>\n";
    assert o + tail == "<<<<\n" + (h.oldText + tail);
    assert tail == "====\n" + (h.newText + ">>>>\n") && ">>>>\n" + "" == ">>>>\n";
    MarksFirst('<', h.oldText + tail);
    MarksFirst('=', h.newText + ">>>>\n");
    MarksFirst('>', "");
    OldMarkerFound(h, o + tail);
    NextMarkerFound(Head(h), "<<<<\n", h.oldText, tail, "====");
    assert (Head(h) + o) + tail == Body(h);
    NextMarkerFound(Head(h) + o, "====\n", h.newText, ">>>>\n", ">>>>");
  }

  lemma TextsReadBack(h: Hunk)
    ensures var b, oldAt := Body(h), |Head(h)|;
            var midAt := oldAt + 5 + |h.oldText|; var newAt := midAt + 5 + |h.newText|;
            && newAt <= |b|
            && DropBreak(b[oldAt + 4..midAt]) == h.oldText && DropBreak(b[midAt + 4..newAt]) == h.newText
  {
    var b, oldAt := Body(h), |Head(h)|;
    var midAt := oldAt + 5 + |h.oldText|;
    assert b[oldAt + 4..midAt] == "\n" + h.oldText;
    assert b[midAt + 4..midAt + 5 + |h.newText|] == "\n" + h.newText;
  }

  lemma PathInBody(h: Hunk)
    requires WellFormed(h)
    ensures PathIn(Body(h)) == Some(h.path)
  {
    hide Find, Body, TrimPathToken, SkipBlanks, LineEnd, WellFormed, IsAt;
    PathReadsBack(h);
  }

  lemma TextsInBody(h: Hunk)
    requires WellFormed(h)
    ensures TextsIn(Body(h)) == Some((h.oldText, h.newText))
  {
    hide Find, Body, Head, DropBreak, IsAt, WellFormed;
    MarkersReadBack(h);
    TextsReadBack(h);
  }

  lemma BlockReadsBack(h: Hunk)
    requires WellFormed(h)
    ensures BlockHunk(Body(h)) == Some(h)
  {
    assert h.path != "";
    hide PathIn, TextsIn, Body, WellFormed;
    PathInBody(h);
    TextsInBody(h);
  }

  /** What may stand between two blocks where the parser resumes: nothing, or the end of `END`. */
  predicate Gap(s: string) { s == "" || s == "D\n" }

  lemma StartIsFound(pre: string, gap: string, rest: string)
    requires Gap(gap) && |rest| >= 9 && rest[..9] == "*** APPLY"
    ensures FindMarker(pre + (gap + rest), |pre|, "*** APPLY", "***APPLY") == |pre| + |gap|
  {
    assert IsAt(rest, "*** APPLY", 0);
    FreeMissing(gap, "*** APPLY", 0);
    FreeMissing(gap, "***APPLY", 0);
    hide IsAt;
    NoneBefore(gap, rest, "*** APPLY");
    NoneBefore(gap, rest, "***APPLY");
    FindShift(pre, gap + rest, "*** APPLY");
    FindShift(pre, gap + rest, "***APPLY");
  }

  lemma StopIsFound(pre: string, h: Hunk, post: string)
    requires WellFormed(h)
    ensures FindMarker(pre + (Print(h) + post), |pre|, "*** END", "***END") == |pre| + |Body(h)|
  {
    var after := "*** END\n" + post;
    assert after[..7] == "*** END";
    assert IsAt(after, "*** END", 0);
    assert Print(h) + post == Body(h) + after;
    hide IsAt, Body, Print;
    BodyFree(h, "*** END");
    BodyFree(h, "***END");
    NoneBefore(Body(h), after, "*** END");
    NoneBefore(Body(h), after, "***END");
    FindShift(pre, Body(h) + after, "*** END");
    FindShift(pre, Body(h) + after, "***END");
  }

  lemma PrintStarts(h: Hunk, post: string)
    ensures var rest := Print(h) + post; |rest| >= 9 && rest[..9] == "*** APPLY"
  {
    assert "*** APPLY\n"[..9] == "*** APPLY";
    assert (Print(h) + post)[..10] == "*** APPLY\n";
    assert (Print(h) + post)[..9] == (Print(h) + post)[..10][..9];
  }

  lemma NoNextBlock(pre: string, gap: string)
    requires Gap(gap)
    ensures NextBlock(pre + gap, |pre|) == None
  {
    FreeMissing(gap, "*** APPLY", 0);
    FreeMissing(gap, "***APPLY", 0);
    hide IsAt, Find;
    FindNone(gap, "*** APPLY", 0);
    FindNone(gap, "***APPLY", 0);
    FindShift(pre, gap, "*** APPLY");
    FindShift(pre, gap, "***APPLY");
  }

  /** The next block of printed text is found where it stands. */
  lemma NextIsFirst(pre: string, gap: string, h: Hunk, post: string)
    requires WellFormed(h) && Gap(gap)
    ensures var text := pre + (gap + (Print(h) + post));
            NextBlock(text, |pre|) == Some((|pre| + |gap|, |pre| + |gap| + |Body(h)|))
  {
    var rest := Print(h) + post;
    hide FindMarker, Body, Print, WellFormed;
    PrintStarts(h, post);
    StartIsFound(pre, gap, rest);
    StopIsFound(pre + gap, h, post);
    assert pre + (gap + rest) == (pre + gap) + rest;
  }

  lemma PrintFirst(hunks: seq<Hunk>)
    requires hunks != []
    ensures PrintAll(hunks) == Print(hunks[0]) + PrintAll(hunks[1..])
  {
    hide Print;
  }

  /** Text whose next block is h, seen from the block and from the end of its closing marker. */
  lemma AroundBlock(pre: string, gap: string, h: Hunk, post: string)
    ensures var text, start := pre + (gap + (Print(h) + post)), |pre| + |gap|;
            var stop := start + |Body(h)|;
            && stop + 6 <= |text| && text[start..stop] == Body(h)
            && text == pre + gap + Body(h) + "*** EN" + ("D\n" + post)
  {
    hide Body;
    assert "*** END\n" == "*** EN" + "D\n";
  }

  lemma {:induction false} ParseReadsBack(pre: string, gap: string, hunks: seq<Hunk>, room: nat)
    requires Gap(gap) && forall h :: h in hunks ==> WellFormed(h)
    ensures Parse(pre + (gap + PrintAll(hunks)), |pre|, room) == hunks[..Min(room, |hunks|)]
    decreases |hunks|
  {
    hide BlockHunk, NextBlock, Body, IsAt, Print, PrintAll, Parse, WellFormed, Gap;
    var text := pre + (gap + PrintAll(hunks));
    ParseUnfolds(text, |pre|, room);
    if room == 0 {
    } else if hunks == [] {
      NoNextBlock(pre, gap);
      NothingPrinted();
      assert gap + "" == gap;
    } else {
      var h, post := hunks[0], PrintAll(hunks[1..]);
      PrintFirst(hunks);
      NextIsFirst(pre, gap, h, post);
      AroundBlock(pre, gap, h, post);
      BlockReadsBack(h);
      NewlineIsGap();
      ParseReadsBack(pre + gap + Body(h) + "*** EN", "D\n", hunks[1..], room - 1);
      assert hunks[..Min(room, |hunks|)] == [h] + hunks[1..][..Min(room - 1, |hunks| - 1)];
    }
  }

  lemma NothingPrinted()
    ensures PrintAll([]) == ""
  {}

  /** What follows the closing marker that was found is a gap. */
  lemma NewlineIsGap()
    ensures Gap("D\n")
  {}

  /** Printing well-formed hunks and parsing the text returns them in order; of more than six, the first six. */
  lemma RoundTrip(hunks: seq<Hunk>)
    requires forall h :: h in hunks ==> WellFormed(h)
    ensures Parse(PrintAll(hunks), 0, MAX_HUNKS) == hunks[..Min(MAX_HUNKS, |hunks|)]
  {
    ParseReadsBack("", "", hunks, MAX_HUNKS);
    assert "" + ("" + PrintAll(hunks)) == PrintAll(hunks);
  }

  /** One trimmed line with backslashes. */
  predicate UsablePath(path: string) {
    && path != "" && !FrontJunk(path[0]) && !BackJunk(path[|path| - 1])
    && '/' !in path && '\r' !in path && '\n' !in path
  }

  /** On any text at all: at most six hunks, each with a usable path and texts free of their closing markers. */
  lemma {:induction false} ParsedShape(text: string, pos: nat, room: nat)
    ensures |Parse(text, pos, room)| <= room
    ensures forall h :: h in Parse(text, pos, room) ==>
              UsablePath(h.path) && !Contains(h.oldText, "====") && !Contains(h.newText, ">>>>")
    decreases |text| - pos
  {
    hide BlockHunk, NextBlock;
    if room > 0 {
      match NextBlock(text, pos) {
        case None =>
        case Some((start, stop)) =>
          var block := text[start..stop];
          match BlockHunk(block) {
            case None => ParsedShape(text, stop + 6, room);
            case Some(hunk) =>
              BlockShape(block);
              ParsedShape(text, stop + 6, room - 1);
          }
      }
    }
  }

  lemma BlockShape(block: string)
    requires BlockHunk(block).Some?
    ensures var h := BlockHunk(block).value;
            UsablePath(h.path) && !Contains(h.oldText, "====") && !Contains(h.newText, ">>>>")
  {
    hide Find, IsAt, DropBreak, TrimPathToken, UsablePath, SkipBlanks, LineEnd;
    var pathAt := Find(block, "path:", 0);
    var line := SkipBlanks(block, pathAt + 5);
    LineIsOne(block, line);
    TrimmedIsUsable(block[line..LineEnd(block, line)]);
    var oldAt := Find(block, "<<<<", 0);
    var midAt := Find(block, "====", oldAt);
    var newAt := Find(block, ">>>>", midAt);
    MarkersApart(block, oldAt, midAt, newAt);
    SliceFree(block, oldAt, oldAt + 4, midAt, "====");
    SliceFree(block, midAt, midAt + 4, newAt, ">>>>");
  }

  lemma {:induction false} LineIsOne(s: string, from: nat)
    requires from <= |s|
    ensures var t := s[from..LineEnd(s, from)]; '\r' !in t && '\n' !in t
    decreases |s| - from
  {
    if from < |s| && s[from] != '\r' && s[from] != '\n' {
      LineIsOne(s, from + 1);
      var k := LineEnd(s, from);
      assert s[from..k] == [s[from]] + s[from + 1..k];
    }
  }

  lemma {:induction false} TrimFrontIs(s: string)
    ensures var t := TrimFront(s); (t != "" ==> !FrontJunk(t[0])) && forall c :: c in t ==> c in s
    decreases |s|
  {
    if s != "" && FrontJunk(s[0]) { TrimFrontIs(s[1..]); }
  }

  lemma {:induction false} TrimBackIs(s: string)
    ensures var t := TrimBack(s);
            (t != "" ==> !BackJunk(t[|t| - 1]) && t[0] == s[0]) && forall c :: c in t ==> c in s
    decreases |s|
  {
    if s != "" && BackJunk(s[|s| - 1]) { TrimBackIs(s[..|s| - 1]); }
  }

  lemma TrimmedIsUsable(line: string)
    requires '\r' !in line && '\n' !in line
    ensures var path := TrimPathToken(line); path != "" ==> UsablePath(path)
  {
    TrimFrontIs(line);
    TrimBackIs(TrimFront(line));
    var t := TrimBack(TrimFront(line));
    var path := BackSlashes(t);
    forall c | c in path ensures c != '/' && c != '\r' && c != '\n' {
      var i :| 0 <= i < |path| && path[i] == c;
      assert t[i] in t;
    }
  }

  lemma DropBreakIsSuffix(s: string)
    ensures var t := DropBreak(s); |t| <= |s| && t == s[|s| - |t|..]
  {}

  /**
   Between a search's start and the match it reports, no slice holds the pattern; nor after one line
   break is dropped.
   */
  lemma SliceFree(s: string, from: nat, a: nat, b: nat, m: string)
    requires from <= a <= b <= |s| && |m| > 0 && forall i :: from <= i < b ==> !IsAt(s, m, i)
    ensures !Contains(DropBreak(s[a..b]), m)
  {
    DropBreakIsSuffix(s[a..b]);
    var t := DropBreak(s[a..b]);
    var k := b - |t|;
    assert t == s[k..b];
    hide DropBreak;
    forall i ensures !IsAt(t, m, i) {
      if 0 <= i && i + |m| <= |t| {
        AtSlice(s, k, b, m, i);
      }
    }
  }
}
