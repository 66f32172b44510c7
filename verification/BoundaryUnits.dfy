/**
 What structural_boundaries of desk_review_plan.py records, said by matching braces and not by a stack:
 the lines on which an outermost unit closes.
 */
module BoundaryUnits {
  import opened Text
  import opened Boundaries

  function Change(m: Match): int { if m.kind == Open then 1 else if m.kind == Close then -1 else 0 }

  /** How many more braces open than close after match o and before match n. */
  function Inside(ms: seq<Match>, o: nat, n: nat): int
    requires n <= |ms|
    decreases n
  {
    if n <= o + 1 then 0 else Inside(ms, o, n - 1) + Change(ms[n - 1])
  }

  /** Brace o is open before match n: nothing after it closed more than was opened. */
  predicate IsOpen(ms: seq<Match>, o: nat, n: nat)
    requires n <= |ms|
  {
    o < n && ms[o].kind == Open && forall j :: o < j <= n ==> Inside(ms, o, j) >= 0
  }

  /** Brace k closes brace o. */
  predicate Closes(ms: seq<Match>, o: nat, k: nat)
    requires k < |ms|
  {
    IsOpen(ms, o, k) && ms[k].kind == Close && Inside(ms, o, k) == 0
  }

  /** Where the last brace before match n ends. */
  function LastBrace(ms: seq<Match>, n: nat): nat
    requires n <= |ms|
  {
    if n == 0 then 0 else if ms[n - 1].kind != Other then ms[n - 1].end else LastBrace(ms, n - 1)
  }

  /**
   What an opening brace is: nested if any brace around it is no scope; otherwise a scope or a unit, by
   the text since the last brace.
   */
  ghost function LevelOf(isNamespace: string -> bool, text: string, ms: seq<Match>, o: nat): Level
    requires o < |ms|
    decreases o
  {
    if exists e: nat :: e < o && IsOpen(ms, e, o) && LevelOf(isNamespace, text, ms, e) != Scope then Nested
    else if isNamespace(Slice(text, LastBrace(ms, o), ms[o].start)) then Scope else Unit
  }

  /** The braces open before match n, outermost first. */
  function OpenBefore(ms: seq<Match>, n: nat): (os: seq<nat>)
    requires n <= |ms|
    ensures forall i :: 0 <= i < |os| ==> os[i] < n
  {
    if n == 0 then [] else
    var os := OpenBefore(ms, n - 1);
    match ms[n - 1].kind
    case Open => os + [n - 1]
    case Close => if os == [] then [] else os[..|os| - 1]
    case Other => os
  }

  ghost predicate OpenOk(ms: seq<Match>, n: nat)
    requires n <= |ms|
  {
    var os := OpenBefore(ms, n);
    && (forall o :: o in os <==> IsOpen(ms, o, n))
    && (forall i :: 0 <= i < |os| ==> Inside(ms, os[i], n) == |os| - 1 - i)
    && (forall i, j :: 0 <= i < j < |os| ==> os[i] < os[j])
  }

  lemma OpenStep(ms: seq<Match>, n: nat, o: nat)
    requires n < |ms|
    ensures IsOpen(ms, o, n + 1) <==>
            if o == n then ms[n].kind == Open else IsOpen(ms, o, n) && Inside(ms, o, n) + Change(ms[n]) >= 0
    ensures o < n ==> Inside(ms, o, n + 1) == Inside(ms, o, n) + Change(ms[n])
    ensures Inside(ms, n, n + 1) == 0
  {
    if o < n {
      assert Inside(ms, o, n + 1) == Inside(ms, o, n) + Change(ms[n]);
      if IsOpen(ms, o, n + 1) { assert IsOpen(ms, o, n); }
    }
  }

  lemma {:induction false} OpenIs(ms: seq<Match>, n: nat)
    requires n <= |ms|
    ensures OpenOk(ms, n)
  {
    hide OpenOk;
    if n == 0 {
      NoneOpen(ms);
    } else {
      OpenIs(ms, n - 1);
      OpenOneMore(ms, n - 1);
    }
  }

  lemma OpenOneMore(ms: seq<Match>, n: nat)
    requires n < |ms| && OpenOk(ms, n)
    ensures OpenOk(ms, n + 1)
  {
    hide IsOpen, Inside;
    var was, os := OpenBefore(ms, n), OpenBefore(ms, n + 1);
    forall o ensures o in os <==> IsOpen(ms, o, n + 1) { StaysOpen(ms, n, o); }
    forall i | 0 <= i < |os| ensures Inside(ms, os[i], n + 1) == |os| - 1 - i {
      assert i < |was| ==> os[i] == was[i];
      OpenStep(ms, n, os[i]);
    }
  }

  lemma StaysOpen(ms: seq<Match>, n: nat, o: nat)
    requires n < |ms| && OpenOk(ms, n)
    ensures o in OpenBefore(ms, n + 1) <==> IsOpen(ms, o, n + 1)
  {
    hide IsOpen, Inside;
    var was, os := OpenBefore(ms, n), OpenBefore(ms, n + 1);
    OpenStep(ms, n, o);
    if o in was {
      var i :| 0 <= i < |was| && was[i] == o;
      assert i < |os| ==> os[i] == o;
    }
    if o in os {
      var i :| 0 <= i < |os| && os[i] == o;
      assert i < |was| ==> was[i] == o;
    }
  }

  lemma NoneOpen(ms: seq<Match>)
    ensures OpenOk(ms, 0)
  {}

  /** One step of the scan. */
  lemma StepStack(isNamespace: string -> bool, text: string, s: Scan, m: Match)
    ensures var t := Step(isNamespace, text, s, m);
            && t.segment == (if m.kind == Other then s.segment else m.end)
            && t.stack == match m.kind
                          case Open =>
                            s.stack + [if !Outer(s.stack) then Nested
                                       else if isNamespace(Slice(text, s.segment, m.start)) then Scope else Unit]
                          case Close => if s.stack == [] then [] else s.stack[..|s.stack| - 1]
                          case Other => s.stack
  {
    hide Slice, Outer;
  }

  /** The scan's stack holds the levels of the open braces, and the scan knows where the last brace ended. */
  lemma {:induction false} StackIsLevels(isNamespace: string -> bool, text: string, ms: seq<Match>, n: nat)
    requires n <= |ms|
    ensures var s, os := After(isNamespace, text, ms[..n]), OpenBefore(ms, n);
            && s.segment == LastBrace(ms, n) && |s.stack| == |os|
            && forall i :: 0 <= i < |os| ==> s.stack[i] == LevelOf(isNamespace, text, ms, os[i])
    decreases n
  {
    hide IsOpen, LevelOf, Slice, After, Step, Outer, Shape;
    NothingScanned(isNamespace, text);
    if n == 0 {
      assert ms[..0] == [];
    } else {
      StackIsLevels(isNamespace, text, ms, n - 1);
      AfterMore(isNamespace, text, ms, n - 1);
      var s, os := After(isNamespace, text, ms[..n - 1]), OpenBefore(ms, n - 1);
      StackShape(isNamespace, text, ms[..n - 1]);
      StepStack(isNamespace, text, s, ms[n - 1]);
      if ms[n - 1].kind == Open { LevelIsTop(isNamespace, text, ms, n - 1, s.stack); }
    }
  }

  /** A new brace is nested exactly when the innermost open one is no scope. */
  lemma LevelIsTop(isNamespace: string -> bool, text: string, ms: seq<Match>, o: nat, stack: seq<Level>)
    requires o < |ms| && Shape(stack) && |stack| == |OpenBefore(ms, o)|
    requires forall i :: 0 <= i < |stack| ==> stack[i] == LevelOf(isNamespace, text, ms, OpenBefore(ms, o)[i])
    ensures LevelOf(isNamespace, text, ms, o) ==
            if !Outer(stack) then Nested
            else if isNamespace(Slice(text, LastBrace(ms, o), ms[o].start)) then Scope else Unit
  {
    hide IsOpen, Slice;
    var os := OpenBefore(ms, o);
    OpenIs(ms, o);
    var k: nat :| ScopesThenUnit(stack, k);
    if !Outer(stack) {
      var e := os[|os| - 1];
      assert e in os && e < o && IsOpen(ms, e, o) && LevelOf(isNamespace, text, ms, e) != Scope;
    } else {
      assert forall i :: 0 <= i < |stack| ==> stack[i] == Scope by {
        if stack != [] { assert k == |stack|; }
      }
      forall e: nat | e < o && IsOpen(ms, e, o) ensures LevelOf(isNamespace, text, ms, e) == Scope {
        assert e in os;
        var i :| 0 <= i < |os| && os[i] == e;
      }
    }
  }

  lemma ClosesTop(ms: seq<Match>, k: nat, o: nat)
    requires k < |ms|
    ensures Closes(ms, o, k) <==>
            var os := OpenBefore(ms, k); ms[k].kind == Close && os != [] && o == os[|os| - 1]
  {
    hide IsOpen, Inside;
    OpenIs(ms, k);
    var os := OpenBefore(ms, k);
    if Closes(ms, o, k) {
      assert o in os;
      var i :| 0 <= i < |os| && os[i] == o;
    }
    if os != [] { assert os[|os| - 1] in os; }
  }

  /** Match k closes a unit, on this line. */
  ghost predicate UnitEnds(isNamespace: string -> bool, text: string, ms: seq<Match>, k: nat, line: nat)
    requires k < |ms|
  {
    exists o: nat :: Closes(ms, o, k) && LevelOf(isNamespace, text, ms, o) == Unit && LineOf(text, ms[k]) == line
  }

  /** The recorded lines are exactly those on which the closing brace of a unit stands. */
  lemma EndsAreUnitEnds(isNamespace: string -> bool, text: string, ms: seq<Match>)
    requires Lexed(text, ms)
    ensures forall line :: line in After(isNamespace, text, ms).ends <==>
                           exists k :: 0 <= k < |ms| && UnitEnds(isNamespace, text, ms, k, line)
  {
    hide Lexed, After, LineOf, Closes, LevelOf;
    assert ms[..|ms|] == ms;
    EndsAreUnitCloses(isNamespace, text, ms, |ms|);
    forall k, line | 0 <= k < |ms|
      ensures ClosesUnitOn(isNamespace, text, ms, k, line) <==> UnitEnds(isNamespace, text, ms, k, line)
    {
      ClosesUnitIff(isNamespace, text, ms, k, line);
    }
  }

  lemma ClosesUnitIff(isNamespace: string -> bool, text: string, ms: seq<Match>, k: nat, line: nat)
    requires k < |ms|
    ensures ClosesUnitOn(isNamespace, text, ms, k, line) <==> UnitEnds(isNamespace, text, ms, k, line)
  {
    hide After, LineOf, Closes, LevelOf, Shape;
    var stack, os := After(isNamespace, text, ms[..k]).stack, OpenBefore(ms, k);
    StackIsLevels(isNamespace, text, ms, k);
    StackShape(isNamespace, text, ms[..k]);
    TopIsUnit(stack);
    forall o ensures Closes(ms, o, k) <==> ms[k].kind == Close && os != [] && o == os[|os| - 1] { ClosesTop(ms, k, o); }
  }
}
