/**
 structural_boundaries of desk_review_plan.py: the brace stack over the tokens a lexer found, and
 the lines on which an outermost unit closes. The lexer and the namespace test are parameters.
 */
module Boundaries {
  import opened Text
  import opened SourceLines

  /** What the lexer matched: a brace outside comments and literals, or one of those. */
  datatype Kind = Open | Close | Other

  datatype Match = Match(start: nat, end: nat, kind: Kind)

  datatype Level = Scope | Unit | Nested

  /** Matches in order, not overlapping, inside the text. */
  ghost predicate Lexed(text: string, ms: seq<Match>) {
    && (forall k :: 0 <= k < |ms| ==> ms[k].start < ms[k].end <= |text|)
    && (forall k :: 0 < k < |ms| ==> ms[k - 1].end <= ms[k].start)
  }

  /** The loop's variables. */
  datatype Scan = Scan(stack: seq<Level>, ends: seq<nat>, line: nat, previous: nat, segment: nat)

  const START := Scan([], [], 1, 0, 0)

  predicate Outer(stack: seq<Level>) { stack == [] || stack[|stack| - 1] == Scope }

  function Slice(text: string, a: nat, b: nat): string { if a <= b <= |text| then text[a..b] else "" }

  function Step(isNamespace: string -> bool, text: string, s: Scan, m: Match): Scan {
    var line := s.line + Feeds(Slice(text, s.previous, m.start));
    match m.kind
    case Open =>
      var level := if !Outer(s.stack) then Nested
                   else if isNamespace(Slice(text, s.segment, m.start)) then Scope else Unit;
      Scan(s.stack + [level], s.ends, line, m.start, m.end)
    case Close =>
      if s.stack == [] then Scan([], s.ends, line, m.start, m.end)
      else Scan(s.stack[..|s.stack| - 1],
                if s.stack[|s.stack| - 1] == Unit then s.ends + [line] else s.ends, line, m.start, m.end)
    case Other => s.(line := line, previous := m.start)
  }

  /** The scan after the first matches. */
  function After(isNamespace: string -> bool, text: string, ms: seq<Match>): Scan
    decreases |ms|
  {
    if ms == [] then START else Step(isNamespace, text, After(isNamespace, text, ms[..|ms| - 1]), ms[|ms| - 1])
  }

  // ----- the stack

  /** scope* or scope* unit nested* */
  ghost predicate Shape(stack: seq<Level>) {
    exists k: nat :: ScopesThenUnit(stack, k)
  }

  predicate ScopesThenUnit(stack: seq<Level>, k: nat) {
    && k <= |stack|
    && (forall i :: 0 <= i < k ==> stack[i] == Scope)
    && (k < |stack| ==> stack[k] == Unit)
    && (forall i :: k < i < |stack| ==> stack[i] == Nested)
  }

  predicate OnlyScopes(stack: seq<Level>) { forall i :: 0 <= i < |stack| ==> stack[i] == Scope }

  lemma StepShape(isNamespace: string -> bool, text: string, s: Scan, m: Match)
    requires Shape(s.stack)
    ensures Shape(Step(isNamespace, text, s, m).stack)
  {
    var k: nat :| ScopesThenUnit(s.stack, k);
    var t := Step(isNamespace, text, s, m).stack;
    if m.kind == Open && Outer(s.stack) {
      assert k == |s.stack| by {
        if s.stack != [] { assert s.stack[|s.stack| - 1] == Scope; }
      }
      assert ScopesThenUnit(t, if t[|t| - 1] == Scope then |t| else |t| - 1);
    } else {
      assert ScopesThenUnit(t, if k < |t| then k else |t|);
    }
  }

  /** After any number of matches the stack is open scopes, or those and one unit with nested braces in it. */
  lemma {:induction false} StackShape(isNamespace: string -> bool, text: string, ms: seq<Match>)
    ensures Shape(After(isNamespace, text, ms).stack)
    decreases |ms|
  {
    if ms == [] {
      assert ScopesThenUnit([], 0);
    } else {
      StackShape(isNamespace, text, ms[..|ms| - 1]);
      StepShape(isNamespace, text, After(isNamespace, text, ms[..|ms| - 1]), ms[|ms| - 1]);
    }
  }

  /** The line of a match: one more than the line feeds before it. */
  function LineOf(text: string, m: Match): nat { 1 + Feeds(Slice(text, 0, m.start)) }

  ghost predicate LineIsTrue(text: string, s: Scan) {
    s.previous <= |text| && s.line == 1 + Feeds(text[..s.previous])
  }

  lemma {:induction false} LinesAreTrue(isNamespace: string -> bool, text: string, ms: seq<Match>)
    requires Lexed(text, ms)
    ensures LineIsTrue(text, After(isNamespace, text, ms))
    ensures var s := After(isNamespace, text, ms);
            ms != [] ==> s.previous == ms[|ms| - 1].start && s.line == LineOf(text, ms[|ms| - 1])
    ensures ms == [] ==> After(isNamespace, text, ms).previous == 0
    decreases |ms|
  {
    assert Feeds(text[..0]) == 0;
    hide Feeds, IsBreak, After, Step, Slice, LineOf, Lexed;
    if ms == [] {
      NothingScanned(isNamespace, text);
    } else {
      var n := |ms| - 1;
      LexedPrefix(text, ms, n);
      LinesAreTrue(isNamespace, text, ms[..n]);
      assert ms[..n + 1] == ms;
      AfterMore(isNamespace, text, ms, n);
      StepLine(isNamespace, text, After(isNamespace, text, ms[..n]), ms, n);
    }
  }

  lemma StepLine(isNamespace: string -> bool, text: string, s: Scan, ms: seq<Match>, n: nat)
    requires Lexed(text, ms) && n < |ms| && LineIsTrue(text, s)
    requires s.previous == if n == 0 then 0 else ms[n - 1].start
    ensures var t := Step(isNamespace, text, s, ms[n]);
            LineIsTrue(text, t) && t.previous == ms[n].start && t.line == LineOf(text, ms[n])
  {
    hide Feeds, Outer;
    var p, q := s.previous, ms[n].start;
    assert text[..q] == text[..p] + text[p..q];
    FeedsAppend(text[..p], text[p..q]);
  }

  /** Match k closes an outermost unit: a closing brace after which only scopes are open, that did not close a scope. */
  predicate ClosesUnit(isNamespace: string -> bool, text: string, ms: seq<Match>, k: nat)
    requires k < |ms|
  {
    var stack := After(isNamespace, text, ms[..k]).stack;
    ms[k].kind == Close && stack != [] && stack[|stack| - 1] != Scope && OnlyScopes(stack[..|stack| - 1])
  }

  predicate ClosesUnitOn(isNamespace: string -> bool, text: string, ms: seq<Match>, k: nat, line: nat)
    requires k < |ms|
  {
    ClosesUnit(isNamespace, text, ms, k) && LineOf(text, ms[k]) == line
  }

  /** The recorded lines are those of the matches that close an outermost unit: each of them, and no others. */
  lemma {:induction false} EndsAreUnitCloses(isNamespace: string -> bool, text: string, ms: seq<Match>, n: nat)
    requires Lexed(text, ms) && n <= |ms|
    ensures forall line :: line in After(isNamespace, text, ms[..n]).ends <==>
                           exists k :: 0 <= k < n && ClosesUnitOn(isNamespace, text, ms, k, line)
  {
    hide ClosesUnitOn, After, Lexed;
    if n == 0 {
      NothingScanned(isNamespace, text);
      assert ms[..0] == [];
    } else {
      EndsAreUnitCloses(isNamespace, text, ms, n - 1);
      EndsOfStep(isNamespace, text, ms, n - 1);
    }
  }

  lemma LexedPrefix(text: string, ms: seq<Match>, k: nat)
    requires Lexed(text, ms) && k <= |ms|
    ensures Lexed(text, ms[..k])
  {}

  lemma StepEnds(isNamespace: string -> bool, text: string, s: Scan, m: Match)
    ensures var t := Step(isNamespace, text, s, m);
            var closes := m.kind == Close && s.stack != [] && s.stack[|s.stack| - 1] == Unit;
            forall line :: line in t.ends <==> line in s.ends || (closes && line == t.line)
  {
    hide Feeds, Slice, Outer;
  }

  lemma EndsOfStep(isNamespace: string -> bool, text: string, ms: seq<Match>, n: nat)
    requires Lexed(text, ms) && n < |ms|
    ensures var before, now := After(isNamespace, text, ms[..n]).ends, After(isNamespace, text, ms[..n + 1]).ends;
            forall line :: line in now <==> line in before || ClosesUnitOn(isNamespace, text, ms, n, line)
  {
    hide Feeds, Slice, LineOf, Shape, OnlyScopes, Lexed, LineIsTrue, Step, After;
    var s := After(isNamespace, text, ms[..n]);
    LexedPrefix(text, ms, n + 1);
    AfterMore(isNamespace, text, ms, n);
    StepEnds(isNamespace, text, s, ms[n]);
    LinesAreTrue(isNamespace, text, ms[..n + 1]);
    StackShape(isNamespace, text, ms[..n]);
    TopIsUnit(s.stack);
  }

  /** The top is a unit exactly when it is no scope and only scopes lie below it. */
  lemma TopIsUnit(stack: seq<Level>)
    requires Shape(stack)
    ensures stack != [] ==>
              (stack[|stack| - 1] == Unit <==> stack[|stack| - 1] != Scope && OnlyScopes(stack[..|stack| - 1]))
  {
    var k: nat :| ScopesThenUnit(stack, k);
    if stack != [] {
      var top := |stack| - 1;
      assert stack[top] == Unit ==> k == top;
      assert stack[top] == Nested ==> k < top && stack[..top][k] == Unit;
    }
  }

  lemma AfterMore(isNamespace: string -> bool, text: string, ms: seq<Match>, n: nat)
    requires n < |ms|
    ensures After(isNamespace, text, ms[..n + 1]) == Step(isNamespace, text, After(isNamespace, text, ms[..n]), ms[n])
  {
    hide Step;
    assert ms[..n + 1][..n] == ms[..n];
  }

  // ----- the result: sorted(set(ends + [number of lines]))

  function Insert(x: nat, xs: seq<nat>): (r: seq<nat>)
    requires Ascending(xs)
    ensures Ascending(r) && forall y :: y in r <==> y == x || y in xs
    decreases |xs|
  {
    if xs == [] || x < xs[0] then [x] + xs
    else if x == xs[0] then xs
    else
      var r := Insert(x, xs[1..]);
      assert forall i :: 0 <= i < |r| ==> r[i] in r;
      [xs[0]] + r
  }

  predicate Ascending(xs: seq<nat>) { forall i, j :: 0 <= i < j < |xs| ==> xs[i] < xs[j] }

  function SortedSet(xs: seq<nat>): (r: seq<nat>)
    ensures Ascending(r) && forall y :: y in r <==> y in xs
    decreases |xs|
  {
    if xs == [] then [] else Insert(xs[0], SortedSet(xs[1..]))
  }

  function StructuralBoundaries(isNamespace: string -> bool, text: string, ms: seq<Match>): seq<nat> {
    SortedSet(After(isNamespace, text, ms).ends + [|SplitLines(text)|])
  }

  lemma NothingScanned(isNamespace: string -> bool, text: string)
    ensures After(isNamespace, text, []) == START
  {}

  method Scanned(isNamespace: string -> bool, text: string, ms: seq<Match>) returns (boundaries: seq<nat>)
    requires Lexed(text, ms)
    ensures boundaries == StructuralBoundaries(isNamespace, text, ms)
  {
    hide Lexed, After, Feeds, Slice, SortedSet, SplitLines;
    NothingScanned(isNamespace, text);
    var ends: seq<nat>, stack: seq<Level> := [], [];
    var line: nat, previous: nat, segment: nat := 1, 0, 0;
    for n := 0 to |ms|
      invariant After(isNamespace, text, ms[..n]) == Scan(stack, ends, line, previous, segment)
    {
      var m := ms[n];
      AfterMore(isNamespace, text, ms, n);
      line := line + Feeds(Slice(text, previous, m.start));
      previous := m.start;
      if m.kind == Open {
        var outer := stack == [] || stack[|stack| - 1] == Scope;
        var scope := outer && isNamespace(Slice(text, segment, m.start));
        stack := stack + [if outer && scope then Scope else if outer then Unit else Nested];
        segment := m.end;
      } else if m.kind == Close {
        if stack != [] {
          var popped := stack[|stack| - 1];
          stack := stack[..|stack| - 1];
          if popped == Unit { ends := ends + [line]; }
        }
        segment := m.end;
      }
    }
    assert ms[..|ms|] == ms;
    return SortedSet(ends + [|SplitLines(text)|]);
  }

  /**
   For a text with any lines: ascending, all within 1..n, the last line among them, and otherwise
   just where outermost units close.
   */
  lemma BoundariesCover(isNamespace: string -> bool, text: string, ms: seq<Match>)
    requires Lexed(text, ms) && text != ""
    ensures var n, bs := |SplitLines(text)|, StructuralBoundaries(isNamespace, text, ms);
            && Ascending(bs) && (forall b :: b in bs ==> 1 <= b <= n) && n in bs
            && forall b :: b in bs <==>
                 b == n || exists k :: 0 <= k < |ms| && ClosesUnitOn(isNamespace, text, ms, k, b)
  {
    var n := |SplitLines(text)|;
    assert Lexed(text, ms);
    var bs := StructuralBoundaries(isNamespace, text, ms);
    assert Ascending(bs) && forall b :: b in bs <==> b == n || b in After(isNamespace, text, ms).ends;
    hide StructuralBoundaries, ClosesUnit, LineOf, Feeds, After;
    EndsAreUnitCloses(isNamespace, text, ms, |ms|);
    assert ms[..|ms|] == ms;
    FeedsBelowLines(text, 0);
    forall k | 0 <= k < |ms| ensures 1 <= LineOf(text, ms[k]) <= n { LineInRange(text, ms[k]); }
  }

  lemma LineInRange(text: string, m: Match)
    requires m.start < m.end <= |text|
    ensures 1 <= LineOf(text, m) <= |SplitLines(text)|
  {
    FeedsBelowLines(text, m.start);
  }
}
