/**
 make_plan of desk_review_plan.py: a source is reviewed whole or in budgeted parts that cover all
 its lines. The token counter is any function; it need not be monotone.
 */
module ReviewPlan {
  import opened Text
  import opened SourceLines
  import opened Boundaries
  import opened WindowSearch

  const RESERVE: int := 1024
  const MAX_PARTS: nat := 16

  /** What a prompt shows: its range, each line with its number, and the shared declarations. */
  datatype Message = Message(start: nat, end: nat, numbered: seq<(nat, string)>, shared: string)

  datatype Split = Whole | Structural | Oversized

  datatype Chunk = Chunk(start: nat, end: nat, message: Message, split: Split)

  datatype Error = BadContext | NoRoom | BadText | SharedTooBig | CannotFit(line: nat) | TooManyParts

  datatype Result<T> = Ok(value: T) | Err(error: Error)

  type Count = Message -> int

  /** enumerate(lines, start) */
  function Numbered(lines: seq<string>, start: nat): (r: seq<(nat, string)>)
    ensures |r| == |lines|
  {
    seq(|lines|, i requires 0 <= i < |lines| => (start + i, lines[i]))
  }

  /** messages(): the source is split again and numbered from `start`. */
  function Messages(source: string, start: nat, end: nat, shared: string): Message {
    Message(start, end, Numbered(SplitLines(source), start), shared)
  }

  /** The prompt for lines first+1..end. */
  function Part(lines: seq<string>, first: nat, end: nat, shared: string): Message
    requires first <= end <= |lines|
  {
    Messages(Join(lines[first..end]), first + 1, end, shared)
  }

  /** What a prompt holds: the range it was given, the shared declarations, and the lines of its source numbered on. */
  lemma MessageSays(source: string, start: nat, end: nat, shared: string)
    ensures var m := Messages(source, start, end, shared);
            && m.start == start && m.end == end && m.shared == shared && |m.numbered| == |SplitLines(source)|
            && forall i :: 0 <= i < |m.numbered| ==> m.numbered[i] == (start + i, SplitLines(source)[i])
  {
    hide SplitLines;
  }

  /** A part shows exactly its own lines under their own numbers. */
  lemma PartShowsItsLines(text: string, first: nat, end: nat, shared: string)
    requires first <= end <= |SplitLines(text)|
    ensures var m := Part(SplitLines(text), first, end, shared);
            && m.start == first + 1 && m.end == end && m.shared == shared && |m.numbered| == end - first
            && forall i :: 0 <= i < end - first ==> m.numbered[i] == (first + 1 + i, SplitLines(text)[first + i])
  {
    hide SplitLines, Join;
    PartSplits(text, first, end);
  }

  // ----- what a plan is

  predicate Fits(count: Count, budget: int, lines: seq<string>, shared: string, first: nat, end: nat) {
    first < end <= |lines| && count(Part(lines, first, end, shared)) <= budget
  }

  /** Which ends fit a part that begins after `first`. */
  function Fitting(count: Count, budget: int, lines: seq<string>, shared: string, first: nat): nat -> bool {
    (end: nat) => Fits(count, budget, lines, shared, first, end)
  }

  /** The chunks follow each other from line first+1 to line last, none empty. */
  predicate Contiguous(chunks: seq<Chunk>, first: nat, last: nat)
    decreases |chunks|
  {
    if chunks == [] then first == last
    else
      chunks[0].start == first + 1 && chunks[0].start <= chunks[0].end
      && Contiguous(chunks[1..], chunks[0].end, last)
  }

  /**
   The end of a structural part: a boundary all earlier candidates of which fit too, and the next of
   which does not.
   */
  ghost predicate StructuralEnd(count: Count, budget: int, lines: seq<string>, shared: string, bs: seq<nat>,
                                first: nat, end: nat) {
    && end in bs && first < end
    && (forall b :: b in bs && first < b <= end ==> Fits(count, budget, lines, shared, first, b))
    && (forall b :: b in bs && b > end && (forall x :: x in bs && x > end ==> b <= x) ==>
          !Fits(count, budget, lines, shared, first, b))
  }

  /** No part can end at the first boundary after `first`. */
  ghost predicate Blocked(count: Count, budget: int, lines: seq<string>, shared: string, bs: seq<nat>, first: nat) {
    exists b ::
      && b in bs && b > first && (forall x :: x in bs && x > first ==> b <= x)
      && !Fits(count, budget, lines, shared, first, b)
  }

  /** Each chunk is the one the planner's rule picks at its place. */
  ghost predicate Chosen(count: Count, budget: int, lines: seq<string>, shared: string, bs: seq<nat>, c: Chunk) {
    && 0 < c.start <= c.end <= |lines|
    && c.message == Part(lines, c.start - 1, c.end, shared) && count(c.message) <= budget
    && match c.split
       case Whole => false
       case Structural => StructuralEnd(count, budget, lines, shared, bs, c.start - 1, c.end)
       case Oversized => Blocked(count, budget, lines, shared, bs, c.start - 1)
                         && CutAt(Fitting(count, budget, lines, shared, c.start - 1), c.start - 1, |lines|, c.end)
  }

  // ----- the planner

  /** The last of the candidates from index i on, all earlier ones of which fit too. */
  function GreedyEnd(count: Count, budget: int, lines: seq<string>, shared: string, bs: seq<nat>, first: nat, i: nat)
    : (chosen: Option<nat>)
    ensures chosen.Some? ==> Fits(count, budget, lines, shared, first, chosen.value)
    decreases |bs| - i
  {
    if i >= |bs| then None
    else if bs[i] <= first then GreedyEnd(count, budget, lines, shared, bs, first, i + 1)
    else if !Fits(count, budget, lines, shared, first, bs[i]) then None
    else Later(Some(bs[i]), GreedyEnd(count, budget, lines, shared, bs, first, i + 1))
  }

  /** The second choice, or else the first. */
  function Later<T>(a: Option<T>, b: Option<T>): Option<T> { if b.Some? then b else a }

  /** The end of the part that begins after `first`, and how it was found; none where the planner gives up. */
  function NextPart(count: Count, budget: int, lines: seq<string>, shared: string, bs: seq<nat>, first: nat)
    : (next: Option<(nat, Split)>)
    requires first < |lines|
    ensures next.Some? ==> Fits(count, budget, lines, shared, first, next.value.0)
  {
    var greedy := GreedyEnd(count, budget, lines, shared, bs, first, 0);
    if greedy.Some? then Some((greedy.value, Structural)) else
    var fitting := Fitting(count, budget, lines, shared, first);
    var searched := Search(fitting, first + 1, |lines|, None);
    SearchKeeps(fitting, first + 1, |lines|, None);
    if searched.Some? then Some((searched.value, Oversized)) else None
  }

  function Before(c: Chunk, more: Result<seq<Chunk>>): Result<seq<Chunk>> {
    if more.Ok? then Ok([c] + more.value) else more
  }

  /** The parts from line first+1 on, after n of them. */
  function Plan(count: Count, budget: int, lines: seq<string>, shared: string, bs: seq<nat>, first: nat, n: nat)
    : Result<seq<Chunk>>
    decreases |lines| - first
  {
    if first >= |lines| then Ok([]) else
    var next := NextPart(count, budget, lines, shared, bs, first);
    if next.None? then Err(CannotFit(first + 1)) else
    var end := next.value.0;
    if n + 1 > MAX_PARTS then Err(TooManyParts) else
    Before(Chunk(first + 1, end, Part(lines, first, end, shared), next.value.1),
           Plan(count, budget, lines, shared, bs, end, n + 1))
  }

  /** The planner's own parts lead from one place to another in k steps. */
  ghost predicate Walks(count: Count, budget: int, lines: seq<string>, shared: string, bs: seq<nat>,
                        first: nat, to: nat, k: nat)
    decreases k
  {
    if k == 0 then first == to
    else
      && first < |lines|
      && var next := NextPart(count, budget, lines, shared, bs, first);
         next.Some? && Walks(count, budget, lines, shared, bs, next.value.0, to, k - 1)
  }

  /** Where nothing can begin for the planner: neither the first boundary nor any halving point fits. */
  ghost predicate Stuck(count: Count, budget: int, lines: seq<string>, shared: string, bs: seq<nat>, first: nat) {
    && first < |lines|
    && Blocked(count, budget, lines, shared, bs, first)
    && forall m :: m in Halves(first + 1, |lines|) ==> !Fits(count, budget, lines, shared, first, m)
  }

  /** The candidates in order until one does not fit; the last that did. */
  method Greedy(count: Count, budget: int, lines: seq<string>, shared: string, bs: seq<nat>, first: nat)
    returns (chosen: Option<nat>)
    requires first < |lines| && Ascending(bs) && |lines| in bs && forall b :: b in bs ==> b <= |lines|
    ensures chosen == GreedyEnd(count, budget, lines, shared, bs, first, 0)
    ensures chosen.Some? ==> StructuralEnd(count, budget, lines, shared, bs, first, chosen.value)
    ensures chosen.None? ==> Blocked(count, budget, lines, shared, bs, first)
  {
    hide Part;
    chosen := None;
    for i := 0 to |bs|
      invariant Later(chosen, GreedyEnd(count, budget, lines, shared, bs, first, i)) ==
                GreedyEnd(count, budget, lines, shared, bs, first, 0)
      invariant chosen.None? ==> forall k :: 0 <= k < i ==> bs[k] <= first
      invariant chosen.Some? ==> i > 0 && chosen.value == bs[i - 1] && first < chosen.value
      invariant forall k :: 0 <= k < i && bs[k] > first ==> Fits(count, budget, lines, shared, first, bs[k])
    {
      assert bs[i] in bs;
      if bs[i] > first {
        if count(Part(lines, first, bs[i], shared)) > budget {
          assert !Fits(count, budget, lines, shared, first, bs[i]);
          NextBoundary(bs, if chosen.Some? then chosen.value else first, i);
          return;
        }
        chosen := Some(bs[i]);
      }
    }
    assert forall x :: x in bs ==> x <= bs[|bs| - 1];
  }

  lemma NextBoundary(bs: seq<nat>, from: nat, i: nat)
    requires Ascending(bs) && i < |bs| && bs[i] > from && (i > 0 ==> bs[i - 1] <= from)
    ensures bs[i] in bs && forall x :: x in bs && x > from ==> bs[i] <= x
  {
    assert forall k :: 0 <= k < i ==> bs[k] <= bs[i - 1];
  }

  predicate Budgeted(count: Count, context: int, output: int, chunks: seq<Chunk>) {
    forall c :: c in chunks ==> count(c.message) + output + RESERVE <= context
  }

  ghost predicate AllChosen(count: Count, budget: int, lines: seq<string>, shared: string, bs: seq<nat>,
                            chunks: seq<Chunk>) {
    forall c :: c in chunks ==> Chosen(count, budget, lines, shared, bs, c)
  }

  lemma {:induction false} ContiguousAppend(chunks: seq<Chunk>, c: Chunk, first: nat, last: nat)
    requires Contiguous(chunks, first, last) && c.start == last + 1 && c.start <= c.end
    ensures Contiguous(chunks + [c], first, c.end)
    decreases |chunks|
  {
    if chunks == [] {
      assert [c][1..] == [];
    } else {
      ContiguousAppend(chunks[1..], c, chunks[0].end, last);
      assert (chunks + [c])[1..] == chunks[1..] + [c];
    }
  }

  /** The parts of a source that is too large for one prompt. */
  method Parts(count: Count, budget: int, lines: seq<string>, shared: string, bs: seq<nat>)
    returns (r: Result<seq<Chunk>>)
    requires lines != [] && Ascending(bs) && |lines| in bs && forall b :: b in bs ==> b <= |lines|
    ensures r == Plan(count, budget, lines, shared, bs, 0, 0)
    ensures r.Ok? ==>
              && 0 < |r.value| <= MAX_PARTS && Contiguous(r.value, 0, |lines|)
              && AllChosen(count, budget, lines, shared, bs, r.value)
    ensures r.Err? ==> r.error.CannotFit? || r.error == TooManyParts
    ensures r.Err? && r.error.CannotFit? ==>
              0 < r.error.line <= |lines| && !Fits(count, budget, lines, shared, r.error.line - 1, r.error.line)
    ensures r == Err(TooManyParts) ==>
              exists cs: seq<Chunk>, last: nat ::
                |cs| == MAX_PARTS + 1 && Contiguous(cs, 0, last) && AllChosen(count, budget, lines, shared, bs, cs)
  {
    hide Part, StructuralEnd, Blocked, CutAt, Contiguous, GreedyEnd, Search, Plan;
    ghost var whole := Plan(count, budget, lines, shared, bs, 0, 0);
    AtStart(whole);
    var chunks: seq<Chunk>, first: nat := [], 0;
    while first < |lines|
      invariant first <= |lines| && |chunks| <= MAX_PARTS && (first > 0 ==> chunks != [])
      invariant Contiguous(chunks, 0, first)
      invariant Prepend(chunks, Plan(count, budget, lines, shared, bs, first, |chunks|)) == whole
      invariant AllChosen(count, budget, lines, shared, bs, chunks)
      decreases |lines| - first
    {
      PlanStep(count, budget, lines, shared, bs, first, |chunks|);
      var chosen, split := None, Structural;
      chosen := Greedy(count, budget, lines, shared, bs, first);
      if chosen.None? {
        split := Oversized;
        chosen := LastFit(Fitting(count, budget, lines, shared, first), first, |lines|);
        if chosen.None? { return Err(CannotFit(first + 1)); }
      }
      ChosenFits(count, budget, lines, shared, bs, first, chosen.value, split);
      var c := Chunk(first + 1, chosen.value, Part(lines, first, chosen.value, shared), split);
      ContiguousAppend(chunks, c, 0, first);
      ghost var more := Plan(count, budget, lines, shared, bs, chosen.value, |chunks| + 1);
      PrependBefore(chunks, c, more);
      chunks := chunks + [c];
      first := chosen.value;
      if |chunks| > MAX_PARTS { return Err(TooManyParts); }
    }
    PlanStep(count, budget, lines, shared, bs, first, |chunks|);
    assert chunks + [] == chunks;
    return Ok(chunks);
  }

  function Prepend(chunks: seq<Chunk>, more: Result<seq<Chunk>>): Result<seq<Chunk>> {
    if more.Ok? then Ok(chunks + more.value) else more
  }

  lemma AtStart(whole: Result<seq<Chunk>>)
    ensures Contiguous([], 0, 0) && Prepend([], whole) == whole
  {
    if whole.Ok? { assert [] + whole.value == whole.value; }
  }

  lemma PrependBefore(chunks: seq<Chunk>, c: Chunk, more: Result<seq<Chunk>>)
    ensures Prepend(chunks, Before(c, more)) == Prepend(chunks + [c], more)
  {
    if more.Ok? { assert chunks + ([c] + more.value) == chunks + [c] + more.value; }
  }

  /** One step of the plan. */
  lemma PlanStep(count: Count, budget: int, lines: seq<string>, shared: string, bs: seq<nat>, first: nat, n: nat)
    ensures var r := Plan(count, budget, lines, shared, bs, first, n);
            if first >= |lines| then r == Ok([])
            else
              var next := NextPart(count, budget, lines, shared, bs, first);
              if next.None? then r == Err(CannotFit(first + 1))
              else if n + 1 > MAX_PARTS then r == Err(TooManyParts)
              else
                var end := next.value.0;
                var c := Chunk(first + 1, end, Part(lines, first, end, shared), next.value.1);
                r == Before(c, Plan(count, budget, lines, shared, bs, end, n + 1))
  {
    hide NextPart, Part;
  }

  lemma ChosenFits(count: Count, budget: int, lines: seq<string>, shared: string, bs: seq<nat>, first: nat,
                   end: nat, split: Split)
    requires (split == Structural && StructuralEnd(count, budget, lines, shared, bs, first, end))
             || (split == Oversized && CutAt(Fitting(count, budget, lines, shared, first), first, |lines|, end))
    ensures Fits(count, budget, lines, shared, first, end)
  {
    hide Part;
  }

  /**
   For any counter: no part begins after `first` exactly when the first boundary and every halving
   point are refused.
   */
  lemma NoNextIff(count: Count, budget: int, lines: seq<string>, shared: string, bs: seq<nat>, first: nat)
    requires first < |lines| && Ascending(bs) && |lines| in bs && forall b :: b in bs ==> b <= |lines|
    ensures NextPart(count, budget, lines, shared, bs, first).None? <==> Stuck(count, budget, lines, shared, bs, first)
  {
    hide Part;
    GivesUpIff(Fitting(count, budget, lines, shared, first), first + 1, |lines|);
    assert bs[|bs| - 1] in bs;
    GreedyNone(count, budget, lines, shared, bs, first, 0);
    forall m | m in Halves(first + 1, |lines|)
      ensures Fitting(count, budget, lines, shared, first)(m) == Fits(count, budget, lines, shared, first, m) {}
  }

  /** At the first boundary after `first`, to be blocked is to be refused there. */
  lemma FirstBlocks(count: Count, budget: int, lines: seq<string>, shared: string, bs: seq<nat>, first: nat, i: nat)
    requires Ascending(bs) && i < |bs| && bs[i] > first && (forall k :: 0 <= k < i ==> bs[k] <= first)
    ensures Blocked(count, budget, lines, shared, bs, first) <==> !Fits(count, budget, lines, shared, first, bs[i])
  {
    hide Fits;
    NextBoundary(bs, first, i);
  }

  lemma {:induction false} GreedyNone(count: Count, budget: int, lines: seq<string>, shared: string, bs: seq<nat>,
                                      first: nat, i: nat)
    requires Ascending(bs) && i <= |bs| && (forall k :: 0 <= k < i ==> bs[k] <= first)
    requires |bs| > 0 && bs[|bs| - 1] > first
    ensures GreedyEnd(count, budget, lines, shared, bs, first, i).None? <==>
            Blocked(count, budget, lines, shared, bs, first)
    decreases |bs| - i
  {
    hide Fits, Blocked, Ascending;
    if i < |bs| {
      if bs[i] <= first {
        GreedyNone(count, budget, lines, shared, bs, first, i + 1);
      } else {
        FirstBlocks(count, budget, lines, shared, bs, first, i);
      }
    }
  }

  /** A place the planner's own parts lead to, with at most so many of them. */
  ghost predicate Reaches(count: Count, budget: int, lines: seq<string>, shared: string, bs: seq<nat>,
                          first: nat, to: nat, most: nat) {
    exists k: nat :: k <= most && Walks(count, budget, lines, shared, bs, first, to, k)
  }

  /** So many parts can be made. */
  ghost predicate Long(count: Count, budget: int, lines: seq<string>, shared: string, bs: seq<nat>, first: nat,
                       k: nat) {
    exists to: nat :: Walks(count, budget, lines, shared, bs, first, to, k)
  }

  lemma ReachesOn(count: Count, budget: int, lines: seq<string>, shared: string, bs: seq<nat>, first: nat, to: nat,
                  most: nat)
    ensures Reaches(count, budget, lines, shared, bs, first, to, most) <==>
            || first == to
            || (first < |lines| && most > 0
                && var next := NextPart(count, budget, lines, shared, bs, first);
                   next.Some? && Reaches(count, budget, lines, shared, bs, next.value.0, to, most - 1))
  {
    hide NextPart;
    if Reaches(count, budget, lines, shared, bs, first, to, most) && first != to {
      var k: nat :| k <= most && Walks(count, budget, lines, shared, bs, first, to, k);
      var next := NextPart(count, budget, lines, shared, bs, first);
      assert Walks(count, budget, lines, shared, bs, next.value.0, to, k - 1);
    }
    if first == to { assert Walks(count, budget, lines, shared, bs, first, to, 0); }
    if first < |lines| && most > 0 && NextPart(count, budget, lines, shared, bs, first).Some? {
      var end := NextPart(count, budget, lines, shared, bs, first).value.0;
      if Reaches(count, budget, lines, shared, bs, end, to, most - 1) {
        var k: nat :| k <= most - 1 && Walks(count, budget, lines, shared, bs, end, to, k);
        assert Walks(count, budget, lines, shared, bs, first, to, k + 1);
      }
    }
  }

  lemma LongOn(count: Count, budget: int, lines: seq<string>, shared: string, bs: seq<nat>, first: nat, k: nat)
    ensures Long(count, budget, lines, shared, bs, first, 0)
    ensures k > 0 ==>
              (Long(count, budget, lines, shared, bs, first, k) <==>
               && first < |lines|
               && var next := NextPart(count, budget, lines, shared, bs, first);
                  next.Some? && Long(count, budget, lines, shared, bs, next.value.0, k - 1))
  {
    hide NextPart;
    assert Walks(count, budget, lines, shared, bs, first, first, 0);
    if k > 0 && Long(count, budget, lines, shared, bs, first, k) {
      var to: nat :| Walks(count, budget, lines, shared, bs, first, to, k);
      var next := NextPart(count, budget, lines, shared, bs, first);
      assert Walks(count, budget, lines, shared, bs, next.value.0, to, k - 1);
    }
    if k > 0 && first < |lines| && NextPart(count, budget, lines, shared, bs, first).Some? {
      var end := NextPart(count, budget, lines, shared, bs, first).value.0;
      if Long(count, budget, lines, shared, bs, end, k - 1) {
        var to: nat :| Walks(count, budget, lines, shared, bs, end, to, k - 1);
        assert Walks(count, budget, lines, shared, bs, first, to, k);
      }
    }
  }

  /**
   Exactly when the planner gives up on a line, or on the number of parts: its own parts, at most
   16, lead to a place where it is stuck; or they number more than 16.
   */
  lemma {:induction false} PlanFailsIff(count: Count, budget: int, lines: seq<string>, shared: string, bs: seq<nat>,
                                        first: nat, n: nat, at: nat)
    requires first <= |lines| && n <= MAX_PARTS
    requires Ascending(bs) && |lines| in bs && forall b :: b in bs ==> b <= |lines|
    ensures Plan(count, budget, lines, shared, bs, first, n) == Err(CannotFit(at + 1)) <==>
            && Stuck(count, budget, lines, shared, bs, at)
            && Reaches(count, budget, lines, shared, bs, first, at, MAX_PARTS - n)
    ensures Plan(count, budget, lines, shared, bs, first, n) == Err(TooManyParts) <==>
            Long(count, budget, lines, shared, bs, first, MAX_PARTS + 1 - n)
    decreases |lines| - first
  {
    hide NextPart, Plan, Reaches, Long, Walks, Blocked, Halves, Ascending;
    PlanStep(count, budget, lines, shared, bs, first, n);
    ReachesOn(count, budget, lines, shared, bs, first, at, MAX_PARTS - n);
    LongOn(count, budget, lines, shared, bs, first, MAX_PARTS + 1 - n);
    if first < |lines| {
      NoNextIff(count, budget, lines, shared, bs, first);
      var next := NextPart(count, budget, lines, shared, bs, first);
      if next.Some? {
        LongOn(count, budget, lines, shared, bs, next.value.0, 0);
        if n < MAX_PARTS { PlanFailsIff(count, budget, lines, shared, bs, next.value.0, n + 1, at); }
      }
    }
  }

  /** Every prompt but the one for lines 1 to 3 is refused. */
  function OnlyThree(budget: int): Count {
    (m: Message) => if m.numbered == [] || m.end == 3 then 0 else budget + 1
  }

  /**
   A counter under which the planner gives up although a part could begin: a source of four lines
   and no braces, of which lines 1 to 3 fit together, but not 4, 2 or 1.
   */
  lemma GivesUpThoughAPartFits(isNamespace: string -> bool, shared: string, text: string, context: int, output: int)
    requires |SplitLines(text)| == 4 && '\0' !in text
    requires context >= 4096 && 256 <= output <= 16384 && context - output - RESERVE >= 1024
    ensures var budget := context - output - RESERVE;
            && Outcome(OnlyThree(budget), isNamespace, shared, text, [], context, output) == Err(CannotFit(1))
            && Fits(OnlyThree(budget), budget, SplitLines(text), shared, 0, 3)
  {
    hide Part, SplitLines, Plan, Messages, Fits;
    var budget, lines := context - output - RESERVE, SplitLines(text);
    var count := OnlyThree(budget);
    LinesJoin(text);
    OnlyTheEnd(isNamespace, text);
    OnlyThreeCounts(text, shared, budget);
    OnlyThreeFits(count, budget, lines, shared);
  }

  /** What that counter says of the whole source, of the shared lines and of each first part. */
  lemma OnlyThreeCounts(text: string, shared: string, budget: int)
    requires |SplitLines(text)| == 4 && budget >= 0
    ensures OnlyThree(budget)(Messages(text, 1, 4, "")) > budget
    ensures OnlyThree(budget)(Messages("", 1, 1, shared)) == 0
    ensures forall end :: 1 <= end <= 4 ==>
              (Fits(OnlyThree(budget), budget, SplitLines(text), shared, 0, end) <==> end == 3)
  {
    var lines := SplitLines(text);
    assert SplitLines("") == [] && forall end :: 0 <= end <= |lines| ==> Part(lines, 0, end, shared).end == end;
    hide SplitLines, Part;
    forall end | 1 <= end <= 4 ensures Fits(OnlyThree(budget), budget, lines, shared, 0, end) <==> end == 3 {
      PartShowsItsLines(text, 0, end, shared);
    }
  }

  /** Four lines, of which only 1 to 3 fit together, end the plan at once. */
  lemma OnlyThreeFits(count: Count, budget: int, lines: seq<string>, shared: string)
    requires |lines| == 4 && forall end :: 1 <= end <= 4 ==> (Fits(count, budget, lines, shared, 0, end) <==> end == 3)
    ensures Plan(count, budget, lines, shared, [4], 0, 0) == Err(CannotFit(1))
  {
    hide Fits, Plan, NextPart;
    PlanStep(count, budget, lines, shared, [4], 0, 0);
    assert Halves(1, 0) == [] && Halves(1, 1) == [1] && Halves(1, 4) == [2, 1];
    assert 4 in [4] && !Fits(count, budget, lines, shared, 0, 4);
    NoNextIff(count, budget, lines, shared, [4], 0);
  }

  /** Without braces the only boundary is the last line. */
  lemma OnlyTheEnd(isNamespace: string -> bool, text: string)
    ensures StructuralBoundaries(isNamespace, text, []) == [|SplitLines(text)|]
  {
    hide SplitLines;
    NothingScanned(isNamespace, text);
    var n := |SplitLines(text)|;
    assert After(isNamespace, text, []).ends + [n] == [n];
    assert [n][1..] == [];
    assert SortedSet([]) == [];
    assert Insert(n, []) == [n];
  }

  /** What make_plan answers. */
  function Outcome(count: Count, isNamespace: string -> bool, shared: string, text: string, ms: seq<Match>,
                   context: int, output: int): Result<seq<Chunk>> {
    if context < 4096 || !(256 <= output <= 16384) then Err(BadContext) else
    var budget := context - output - RESERVE;
    if budget < 1024 then Err(NoRoom) else
    var lines := SplitLines(text);
    if lines == [] || '\0' in text then Err(BadText) else
    var full := Messages(text, 1, |lines|, "");
    if count(full) <= budget then Ok([Chunk(1, |lines|, full, Whole)])
    else if count(Messages("", 1, 1, shared)) > budget / 2 then Err(SharedTooBig)
    else Plan(count, budget, lines, shared, StructuralBoundaries(isNamespace, text, ms), 0, 0)
  }

  /** make_plan. Every outcome is accounted for. */
  method MakePlan(count: Count, isNamespace: string -> bool, shared: string, text: string, ms: seq<Match>,
                  context: int, output: int)
    returns (r: Result<seq<Chunk>>)
    requires Lexed(text, ms)
    ensures r == Outcome(count, isNamespace, shared, text, ms, context, output)
    ensures r == Err(BadContext) <==> context < 4096 || !(256 <= output <= 16384)
    ensures r == Err(NoRoom) <==> context >= 4096 && 256 <= output <= 16384 && context - output - RESERVE < 1024
    ensures context - output - RESERVE >= 1024 && context >= 4096 && 256 <= output <= 16384 ==>
              var lines, budget := SplitLines(text), context - output - RESERVE;
              var full := Messages(text, 1, |lines|, "");
              var bs := StructuralBoundaries(isNamespace, text, ms);
              && (r == Err(BadText) <==> text == "" || '\0' in text)
              && (r != Err(BadText) ==>
                    && (r == Ok([Chunk(1, |lines|, full, Whole)]) <==> count(full) <= budget)
                    && (r == Err(SharedTooBig) <==>
                        count(full) > budget && count(Messages("", 1, 1, shared)) > budget / 2))
              && (r.Ok? ==>
                    && 0 < |r.value| <= MAX_PARTS && Contiguous(r.value, 0, |lines|)
                    && Budgeted(count, context, output, r.value))
              && (r.Ok? && count(full) > budget ==> AllChosen(count, budget, lines, shared, bs, r.value))
              && (r.Err? && r.error.CannotFit? ==>
                    && count(full) > budget && 0 < r.error.line <= |lines|
                    && count(Part(lines, r.error.line - 1, r.error.line, shared)) > budget)
              && (r == Err(TooManyParts) ==>
                    count(full) > budget &&
                    exists cs: seq<Chunk>, last: nat ::
                      && |cs| == MAX_PARTS + 1 && Contiguous(cs, 0, last)
                      && AllChosen(count, budget, lines, shared, bs, cs))
  {
    hide Part, Messages, StructuralBoundaries, SplitLines, Chosen, Plan;
    if context < 4096 || !(256 <= output <= 16384) { return Err(BadContext); }
    var budget := context - output - RESERVE;
    if budget < 1024 { return Err(NoRoom); }
    var lines := SplitLines(text);
    LinesJoin(text);
    if lines == [] || '\0' in text { return Err(BadText); }
    var full := Messages(text, 1, |lines|, "");
    if count(full) <= budget {
      return Ok([Chunk(1, |lines|, full, Whole)]);
    }
    if count(Messages("", 1, 1, shared)) > budget / 2 { return Err(SharedTooBig); }
    BoundariesCover(isNamespace, text, ms);
    var bs := Scanned(isNamespace, text, ms);
    r := Parts(count, budget, lines, shared, bs);
    if r.Ok? { ChosenBudgeted(count, context, output, lines, shared, bs, r.value); }
  }

  lemma ChosenBudgeted(count: Count, context: int, output: int, lines: seq<string>, shared: string, bs: seq<nat>,
                       chunks: seq<Chunk>)
    requires AllChosen(count, context - output - RESERVE, lines, shared, bs, chunks)
    ensures Budgeted(count, context, output, chunks)
    ensures forall c :: c in chunks ==> c.split != Whole
  {
    hide StructuralEnd, Blocked, CutAt, Part;
  }

  // ----- what contiguity is for

  /** All the lines the chunks show, in order. */
  function Shown(chunks: seq<Chunk>): seq<(nat, string)>
    decreases |chunks|
  {
    if chunks == [] then [] else chunks[0].message.numbered + Shown(chunks[1..])
  }

  predicate IsPart(lines: seq<string>, shared: string, c: Chunk) {
    0 < c.start <= c.end <= |lines| && c.message == Part(lines, c.start - 1, c.end, shared)
  }

  lemma {:induction false} ShownFrom(text: string, shared: string, chunks: seq<Chunk>, first: nat)
    requires first <= |SplitLines(text)| && Contiguous(chunks, first, |SplitLines(text)|)
    requires forall c :: c in chunks ==> IsPart(SplitLines(text), shared, c)
    ensures Shown(chunks) == Numbered(SplitLines(text), 1)[first..]
    decreases |chunks|
  {
    hide Part, SplitLines;
    var all := Numbered(SplitLines(text), 1);
    if chunks != [] {
      var c := chunks[0];
      assert IsPart(SplitLines(text), shared, c);
      ShownFrom(text, shared, chunks[1..], c.end);
      PartIsSlice(text, shared, c);
      assert all[first..] == all[first..c.end] + all[c.end..];
    }
  }

  lemma PartIsSlice(text: string, shared: string, c: Chunk)
    requires IsPart(SplitLines(text), shared, c)
    ensures c.message.numbered == Numbered(SplitLines(text), 1)[c.start - 1..c.end]
  {
    hide Part, SplitLines;
    PartShowsItsLines(text, c.start - 1, c.end, shared);
  }

  /** The parts of a plan together show every line of the source once, in order, under its own number. */
  lemma PlanShowsEverything(count: Count, budget: int, shared: string, bs: seq<nat>, text: string, chunks: seq<Chunk>)
    requires Contiguous(chunks, 0, |SplitLines(text)|) && AllChosen(count, budget, SplitLines(text), shared, bs, chunks)
    ensures Shown(chunks) == Numbered(SplitLines(text), 1)
  {
    hide Part, SplitLines, StructuralEnd, Blocked, CutAt;
    ShownFrom(text, shared, chunks, 0);
    assert Numbered(SplitLines(text), 1)[0..] == Numbered(SplitLines(text), 1);
  }
}
