/**
 make_attachment_plan of desk_review_plan.py: up to eight sources, and for two small text sources
 their diff, are shown together in rounds of windows, one for each source not yet finished.
 */
module AttachmentPlan {
  import opened Text
  import opened SourceLines
  import opened WindowSearch
  import opened ReviewPlan

  datatype Source = Source(kind: string, sha256: string, text: string)

  /** Foreign parts: Python's strip, UTF-8 sizes, the diff library and the tokenizer on a list of windows. */
  datatype Env = Env(blank: string -> bool, bytes: string -> nat,
                     diff: (seq<string>, seq<string>) -> string, count: seq<Window> -> int)

  /** A run of lines of one document, each under its own number. */
  datatype Window = Window(doc: nat, start: nat, end: nat, numbered: seq<(nat, string)>)

  datatype Failure =
    | BadContext | BadNumber | BadText(source: nat) | BadSource(source: nat)
    | CannotFit(doc: nat, line: nat) | CombinedTooBig | TooManyParts

  datatype Outcome = Planned(chunks: seq<seq<Window>>) | Failed(failure: Failure)

  type Documents = seq<seq<string>>

  // ----- validation and documents

  predicate HexDigest(s: string) {
    |s| == 64 && forall c :: c in s ==> '0' <= c <= '9' || 'a' <= c <= 'f'
  }

  function Fault(env: Env, source: Source, index: nat): Option<Failure> {
    if env.blank(source.text) || '\0' in source.text then Some(Failure.BadText(index))
    else if (source.kind != "text" && source.kind != "cpu-ocr") || !HexDigest(source.sha256) then Some(BadSource(index))
    else None
  }

  /** The first source that is refused. */
  function FirstFault(env: Env, sources: seq<Source>, from: nat): (f: Option<Failure>)
    ensures f.None? <==> forall i :: from <= i < |sources| ==> Fault(env, sources[i], i).None?
    ensures f.Some? ==> exists k ::
              from <= k < |sources| && f == Fault(env, sources[k], k)
              && forall i :: from <= i < k ==> Fault(env, sources[i], i).None?
    decreases |sources| - from
  {
    if from >= |sources| then None
    else if Fault(env, sources[from], from).Some? then Fault(env, sources[from], from)
    else FirstFault(env, sources, from + 1)
  }

  /** The derived diff is made for two text sources within the work limit. */
  predicate DiffBounded(env: Env, sources: seq<Source>) {
    && |sources| == 2 && sources[0].kind == "text" && sources[1].kind == "text"
    && |SplitLines(sources[0].text)| * |SplitLines(sources[1].text)| <= 1_000_000
    && env.bytes(sources[0].text) + env.bytes(sources[1].text) <= 262144
  }

  const IDENTICAL := "A and B have identical decoded text, including line endings.\n"

  function DocumentsOf(env: Env, sources: seq<Source>): Documents {
    var originals := seq(|sources|, i requires 0 <= i < |sources| => SplitLines(sources[i].text));
    if !DiffBounded(env, sources) then originals else
    var diff := env.diff(originals[0], originals[1]);
    originals + [SplitLines(if diff == "" then IDENTICAL else diff)]
  }

  /** Every document has lines. */
  predicate NoneEmpty(docs: Documents) { docs != [] && forall i :: 0 <= i < |docs| ==> docs[i] != [] }

  lemma DocumentsHaveLines(env: Env, sources: seq<Source>)
    requires env.blank("") && FirstFault(env, sources, 0).None? && sources != []
    ensures NoneEmpty(DocumentsOf(env, sources))
  {
    hide SplitLines, Join;
    forall i | 0 <= i < |sources| ensures SplitLines(sources[i].text) != [] {
      assert Fault(env, sources[i], i).None?;
      LinesJoin(sources[i].text);
    }
    if DiffBounded(env, sources) {
      var originals := seq(|sources|, i requires 0 <= i < |sources| => SplitLines(sources[i].text));
      var diff := env.diff(originals[0], originals[1]);
      LinesJoin(if diff == "" then IDENTICAL else diff);
    }
  }

  /** Exactly which sources are accepted, and which of the two errors comes first. */
  lemma SourceAccepted(env: Env, source: Source, index: nat)
    ensures Fault(env, source, index) == Some(Failure.BadText(index)) <==>
            env.blank(source.text) || exists i :: 0 <= i < |source.text| && source.text[i] == '\0'
    ensures Fault(env, source, index).None? <==>
            && !env.blank(source.text) && '\0' !in source.text
            && source.kind in {"text", "cpu-ocr"}
            && |source.sha256| == 64 && forall c :: c in source.sha256 ==> c in "0123456789abcdef"
  {
    HexDigits();
  }

  lemma HexDigits()
    ensures forall c: char :: ('0' <= c <= '9' || 'a' <= c <= 'f') <==> c in "0123456789abcdef"
  {
    var digits := "0123456789abcdef";
    forall c: char | '0' <= c <= '9' || 'a' <= c <= 'f' ensures c in digits {
      assert digits[if c <= '9' then c as int - '0' as int else c as int - 'a' as int + 10] == c;
    }
  }

  /** The documents are the sources' lines in their order; the lines of a bounded pair's diff, A first, come last. */
  lemma DocumentsAre(env: Env, sources: seq<Source>)
    ensures var docs := DocumentsOf(env, sources);
            && |sources| <= |docs| <= |sources| + 1
            && (|docs| > |sources| <==>
                  && |sources| == 2 && (forall s :: s in sources ==> s.kind == "text")
                  && |docs[0]| * |docs[1]| <= 1_000_000
                  && env.bytes(sources[0].text) + env.bytes(sources[1].text) <= 262144)
            && (forall i :: 0 <= i < |sources| ==> docs[i] == SplitLines(sources[i].text))
            && (|docs| > |sources| ==>
                  var diff := env.diff(SplitLines(sources[0].text), SplitLines(sources[1].text));
                  docs[2] == SplitLines(if diff == "" then IDENTICAL else diff))
  {
    hide SplitLines;
  }

  // ----- rounds

  function WindowOf(docs: Documents, doc: nat, first: nat, end: nat): Window
    requires doc < |docs| && first <= end <= |docs[doc]|
  {
    Window(doc, first + 1, end, Numbered(docs[doc][first..end], first + 1))
  }

  predicate Positions(docs: Documents, at: seq<nat>) {
    |at| == |docs| && forall i :: 0 <= i < |docs| ==> at[i] <= |docs[i]|
  }

  /** The unfinished documents below `n`, in order. */
  function Active(docs: Documents, at: seq<nat>, n: nat): (ids: seq<nat>)
    requires Positions(docs, at) && n <= |docs|
    ensures |ids| <= n
    ensures forall i :: i in ids <==> 0 <= i < n && at[i] < |docs[i]|
    ensures forall j, k :: 0 <= j < k < |ids| ==> ids[j] < ids[k]
  {
    if n == 0 then [] else
    var ids := Active(docs, at, n - 1);
    assert forall j :: 0 <= j < |ids| ==> ids[j] in ids;
    if at[n - 1] < |docs[n - 1]| then ids + [n - 1] else ids
  }

  /** The window of a round for one document: it begins where the last one ended and is not empty. */
  predicate Continues(docs: Documents, at: seq<nat>, i: nat, w: Window)
    requires Positions(docs, at)
  {
    i < |docs| && at[i] < w.end <= |docs[i]| && w == WindowOf(docs, i, at[i], w.end)
  }

  /** A round: one window for each unfinished document, in order. */
  predicate Round(docs: Documents, at: seq<nat>, ws: seq<Window>)
    requires Positions(docs, at)
  {
    var ids := Active(docs, at, |docs|);
    |ws| == |ids| > 0 && forall k :: 0 <= k < |ws| ==> Continues(docs, at, ids[k], ws[k])
  }

  /** Where the documents stand after a round. */
  function Advance(at: seq<nat>, ws: seq<Window>): (r: seq<nat>)
    ensures |r| == |at|
    decreases |ws|
  {
    if ws == [] then at
    else
      var rest := Advance(at, ws[..|ws| - 1]);
      var w := ws[|ws| - 1];
      if w.doc < |at| then rest[w.doc := w.end] else rest
  }

  lemma {:induction false} AdvanceEach(docs: Documents, at: seq<nat>, ws: seq<Window>, ids: seq<nat>)
    requires Positions(docs, at) && |ws| == |ids|
    requires forall k :: 0 <= k < |ws| ==> ids[k] < |docs| && ws[k].doc == ids[k] && ws[k].end <= |docs[ids[k]]|
    requires forall j, k :: 0 <= j < k < |ids| ==> ids[j] < ids[k]
    ensures forall k :: 0 <= k < |ws| ==> Advance(at, ws)[ids[k]] == ws[k].end
    ensures forall i :: 0 <= i < |at| && i !in ids ==> Advance(at, ws)[i] == at[i]
    ensures Positions(docs, Advance(at, ws))
    decreases |ws|
  {
    if ws != [] {
      var n := |ws| - 1;
      var before := Advance(at, ws[..n]);
      AdvanceEach(docs, at, ws[..n], ids[..n]);
      assert Advance(at, ws) == before[ids[n] := ws[n].end];
      forall k | 0 <= k < n ensures before[ids[k]] == ws[k].end {
        assert ids[..n][k] == ids[k] && ws[..n][k] == ws[k];
      }
    }
  }

  /** A round's windows name their documents. */
  lemma RoundDocs(docs: Documents, at: seq<nat>, ws: seq<Window>)
    requires Positions(docs, at) && Round(docs, at, ws)
    ensures var ids := Active(docs, at, |docs|);
            |ws| == |ids|
            && forall k :: 0 <= k < |ws| ==>
                 ids[k] < |docs| && ws[k].doc == ids[k] && at[ids[k]] < ws[k].end <= |docs[ids[k]]|
  {
    var ids := Active(docs, at, |docs|);
    forall k | 0 <= k < |ws|
      ensures ids[k] < |docs| && ws[k].doc == ids[k] && at[ids[k]] < ws[k].end <= |docs[ids[k]]|
    {
      assert Continues(docs, at, ids[k], ws[k]);
    }
  }

  /** After a round every unfinished document is at least one line further, and no finished one moves. */
  lemma RoundAdvances(docs: Documents, at: seq<nat>, ws: seq<Window>)
    requires Positions(docs, at) && Round(docs, at, ws)
    ensures Positions(docs, Advance(at, ws))
    ensures forall i :: 0 <= i < |docs| ==>
              if at[i] < |docs[i]| then at[i] < Advance(at, ws)[i] else Advance(at, ws)[i] == at[i]
  {
    var ids := Active(docs, at, |docs|);
    RoundDocs(docs, at, ws);
    AdvanceEach(docs, at, ws, ids);
    hide Round, Advance;
    forall i | 0 <= i < |docs|
      ensures if at[i] < |docs[i]| then at[i] < Advance(at, ws)[i] else Advance(at, ws)[i] == at[i]
    {
      if i in ids {
        var k :| 0 <= k < |ids| && ids[k] == i;
      }
    }
  }

  /** What a window may cost on its own: the base and an equal share of what is left. */
  function Allowance(env: Env, budget: int, active: nat): int
    requires active > 0
  {
    var base := env.count([]);
    base + (budget - base) / active - 64
  }

  /** Each share is the largest that, with 64 to spare, goes into what is left as often as there are documents. */
  lemma AllowanceIsShare(env: Env, budget: int, active: nat)
    requires active > 0
    ensures var share := Allowance(env, budget, active) - env.count([]) + 64;
            active * share <= budget - env.count([]) < active * (share + 1)
  {
    var rest := budget - env.count([]);
    assert rest == active * (rest / active) + rest % active;
  }

  predicate WindowFits(env: Env, docs: Documents, doc: nat, first: nat, allowance: int, end: nat) {
    doc < |docs| && first < end <= |docs[doc]| && env.count([WindowOf(docs, doc, first, end)]) <= allowance
  }

  function Fitting(env: Env, docs: Documents, doc: nat, first: nat, allowance: int): nat -> bool {
    (end: nat) => WindowFits(env, docs, doc, first, allowance, end)
  }

  /** A window cut where it just fits its allowance. */
  ghost predicate JustFits(env: Env, docs: Documents, at: seq<nat>, i: nat, allowance: int, w: Window)
    requires Positions(docs, at)
  {
    i < |docs| && CutAt(Fitting(env, docs, i, at[i], allowance), at[i], |docs[i]|, w.end)
  }

  /** Each window of a round is cut to an equal share. */
  ghost predicate Shared(env: Env, budget: int, docs: Documents, at: seq<nat>, ws: seq<Window>)
    requires Positions(docs, at) && Round(docs, at, ws)
  {
    var ids := Active(docs, at, |docs|);
    forall k :: 0 <= k < |ws| ==>
      JustFits(env, docs, at, ids[k], Allowance(env, budget, |ids|), ws[k])
  }

  /**
   The chunks are rounds, each within the budget, that lead from one set of positions to another.
   With `shared`, every window was cut to an equal share.
   */
  ghost predicate Leads(env: Env, budget: int, shared: bool, docs: Documents, at: seq<nat>,
                        chunks: seq<seq<Window>>, to: seq<nat>)
    decreases |chunks|
  {
    && Positions(docs, at)
    && if chunks == [] then at == to
       else
         && Round(docs, at, chunks[0]) && env.count(chunks[0]) <= budget
         && (shared ==> Shared(env, budget, docs, at, chunks[0]))
         && Leads(env, budget, shared, docs, Advance(at, chunks[0]), chunks[1..], to)
  }

  lemma {:induction false} LeadsAppend(env: Env, budget: int, shared: bool, docs: Documents, at: seq<nat>,
                                       chunks: seq<seq<Window>>, mid: seq<nat>, ws: seq<Window>)
    requires Leads(env, budget, shared, docs, at, chunks, mid)
    requires Positions(docs, mid) && Round(docs, mid, ws) && env.count(ws) <= budget
    requires shared ==> Shared(env, budget, docs, mid, ws)
    ensures Leads(env, budget, shared, docs, at, chunks + [ws], Advance(mid, ws))
    decreases |chunks|
  {
    hide Round, Shared, Advance, Positions;
    if chunks == [] {
      assert ([] + [ws])[1..] == [];
      AfterRound(docs, mid, ws);
    } else {
      LeadsAppend(env, budget, shared, docs, Advance(at, chunks[0]), chunks[1..], mid, ws);
      assert (chunks + [ws])[1..] == chunks[1..] + [ws];
    }
  }

  lemma AfterRound(docs: Documents, at: seq<nat>, ws: seq<Window>)
    requires Positions(docs, at) && Round(docs, at, ws)
    ensures Positions(docs, Advance(at, ws))
  {
    RoundAdvances(docs, at, ws);
  }

  function Zeros(n: nat): (z: seq<nat>)
    ensures |z| == n && forall i :: 0 <= i < n ==> z[i] == 0
  {
    seq(n, i => 0)
  }

  function Lengths(docs: Documents): (z: seq<nat>)
    ensures |z| == |docs| && forall i :: 0 <= i < |docs| ==> z[i] == |docs[i]|
  {
    seq(|docs|, i requires 0 <= i < |docs| => |docs[i]|)
  }

  /** Lines not yet shown. */
  function Remaining(docs: Documents, at: seq<nat>, n: nat): nat
    requires Positions(docs, at) && n <= |docs|
  {
    if n == 0 then 0 else Remaining(docs, at, n - 1) + |docs[n - 1]| - at[n - 1]
  }

  lemma {:induction false} RemainingDrops(docs: Documents, at: seq<nat>, to: seq<nat>, n: nat)
    requires Positions(docs, at) && Positions(docs, to) && n <= |docs|
    requires forall i :: 0 <= i < |docs| ==> at[i] <= to[i]
    ensures Remaining(docs, to, n) <= Remaining(docs, at, n)
    ensures (exists i :: 0 <= i < n && at[i] < to[i]) ==> Remaining(docs, to, n) < Remaining(docs, at, n)
  {
    if n > 0 { RemainingDrops(docs, at, to, n - 1); }
  }

  /** A round leaves fewer lines to show: the planning loop ends. */
  lemma RoundShrinks(docs: Documents, at: seq<nat>, ws: seq<Window>)
    requires Positions(docs, at) && Round(docs, at, ws)
    ensures Positions(docs, Advance(at, ws)) && Remaining(docs, Advance(at, ws), |docs|) < Remaining(docs, at, |docs|)
  {
    RoundAdvances(docs, at, ws);
    var i := Active(docs, at, |docs|)[0];
    assert i in Active(docs, at, |docs|);
    assert at[i] < Advance(at, ws)[i];
    RemainingDrops(docs, at, Advance(at, ws), |docs|);
  }

  // ----- the planner

  /** What the search cuts from one document; None where it finds nothing that fits. */
  function NextWindow(env: Env, docs: Documents, at: seq<nat>, i: nat, allowance: int): (w: Option<Window>)
    requires Positions(docs, at) && i < |docs| && at[i] < |docs[i]|
    ensures w.Some? ==> Continues(docs, at, i, w.value)
  {
    var fitting := Fitting(env, docs, i, at[i], allowance);
    var end := Search(fitting, at[i] + 1, |docs[i]|, None);
    SearchKeeps(fitting, at[i] + 1, |docs[i]|, None);
    if end.None? then None else Some(WindowOf(docs, i, at[i], end.value))
  }

  predicate Unfinished(docs: Documents, at: seq<nat>, ids: seq<nat>)
    requires Positions(docs, at)
  {
    forall k :: 0 <= k < |ids| ==> ids[k] < |docs| && at[ids[k]] < |docs[ids[k]]|
  }

  datatype RoundResult = Windows(ws: seq<Window>) | NoWindow(failure: Failure)

  /** The windows of these documents from the k-th on, or the first of them that finds none. */
  function WindowsFrom(env: Env, docs: Documents, at: seq<nat>, ids: seq<nat>, allowance: int, k: nat): (r: RoundResult)
    requires Positions(docs, at) && k <= |ids| && Unfinished(docs, at, ids)
    ensures r.Windows? ==>
              |r.ws| == |ids| - k && forall j :: 0 <= j < |r.ws| ==> Continues(docs, at, ids[k + j], r.ws[j])
    ensures r.NoWindow? ==> r.failure.CannotFit?
    decreases |ids| - k
  {
    if k == |ids| then Windows([]) else
    var w := NextWindow(env, docs, at, ids[k], allowance);
    if w.None? then NoWindow(Failure.CannotFit(ids[k], at[ids[k]] + 1))
    else PrependWindows([w.value], WindowsFrom(env, docs, at, ids, allowance, k + 1))
  }

  function PrependWindows(ws: seq<Window>, more: RoundResult): RoundResult {
    if more.Windows? then Windows(ws + more.ws) else more
  }

  /** How the rounds go on from a place. */
  datatype Turn = Finished | Stuck(failure: Failure) | Moves(ws: seq<Window>)

  function RoundAt(env: Env, budget: int, docs: Documents, at: seq<nat>): (turn: Turn)
    requires Positions(docs, at)
    ensures turn.Moves? ==> Round(docs, at, turn.ws)
    ensures turn.Stuck? ==> turn.failure.CannotFit? || turn.failure == CombinedTooBig
  {
    var ids := Active(docs, at, |docs|);
    if ids == [] then Finished else
    assert forall k :: 0 <= k < |ids| ==> ids[k] in ids;
    var r := WindowsFrom(env, docs, at, ids, Allowance(env, budget, |ids|), 0);
    if r.NoWindow? then Stuck(r.failure)
    else if env.count(r.ws) > budget then Stuck(CombinedTooBig)
    else Moves(r.ws)
  }

  function Before(ws: seq<Window>, more: Outcome): Outcome {
    if more.Planned? then Planned([ws] + more.chunks) else more
  }

  /** The rounds from a place on, after n of them. */
  function PlanFrom(env: Env, budget: int, docs: Documents, at: seq<nat>, n: nat): Outcome
    requires Positions(docs, at)
    decreases Remaining(docs, at, |docs|)
  {
    match RoundAt(env, budget, docs, at)
    case Finished => Planned([])
    case Stuck(failure) => Failed(failure)
    case Moves(ws) =>
      RoundShrinks(docs, at, ws);
      if n + 1 > MAX_PARTS then Failed(Failure.TooManyParts)
      else Before(ws, PlanFrom(env, budget, docs, Advance(at, ws), n + 1))
  }

  /** None of the ends the search tries for a document fits its share; the single next line is among them. */
  ghost predicate NothingFits(env: Env, budget: int, docs: Documents, at: seq<nat>, doc: nat) {
    && Positions(docs, at) && doc in Active(docs, at, |docs|)
    && var allowance := Allowance(env, budget, |Active(docs, at, |docs|)|);
       && !WindowFits(env, docs, doc, at[doc], allowance, at[doc] + 1)
       && forall m :: m in Halves(at[doc] + 1, |docs[doc]|) ==> !WindowFits(env, docs, doc, at[doc], allowance, m)
  }

  /** Rounds of the plan lead to a place where no window of the document fits its share, at this line. */
  ghost predicate LineTooBig(env: Env, budget: int, docs: Documents, doc: nat, line: nat) {
    exists chunks, at: seq<nat> ::
      && |chunks| <= MAX_PARTS && Leads(env, budget, true, docs, Zeros(|docs|), chunks, at)
      && NothingFits(env, budget, docs, at, doc) && line == at[doc] + 1
  }

  /** Rounds of the plan lead to a round whose windows each fit their share, but not together. */
  ghost predicate TogetherTooBig(env: Env, budget: int, docs: Documents) {
    exists chunks, at: seq<nat>, ws ::
      && |chunks| <= MAX_PARTS && Leads(env, budget, true, docs, Zeros(|docs|), chunks, at)
      && TooMuch(env, budget, docs, at, ws)
  }

  ghost predicate TooMuch(env: Env, budget: int, docs: Documents, at: seq<nat>, ws: seq<Window>) {
    Positions(docs, at) && Round(docs, at, ws) && Shared(env, budget, docs, at, ws) && env.count(ws) > budget
  }

  /** One round: for each unfinished document the longest run found that fits its share. */
  method PlanRound(env: Env, budget: int, docs: Documents, at: seq<nat>)
    returns (ws: seq<Window>, failure: Option<Failure>)
    requires Positions(docs, at) && Active(docs, at, |docs|) != []
    ensures var turn := if failure.Some? then Stuck(failure.value)
                        else if env.count(ws) > budget then Stuck(CombinedTooBig) else Moves(ws);
            turn == RoundAt(env, budget, docs, at)
    ensures failure.None? ==> Round(docs, at, ws) && Shared(env, budget, docs, at, ws)
    ensures failure.Some? ==>
              && failure.value.CannotFit? && NothingFits(env, budget, docs, at, failure.value.doc)
              && failure.value.line == at[failure.value.doc] + 1
  {
    hide Continues, JustFits, Allowance, WindowFits, Halves, NextWindow, WindowsFrom, RoundAt, Active, Unfinished;
    var ids := Active(docs, at, |docs|);
    ActiveUnfinished(docs, at);
    var allowance := Allowance(env, budget, |ids|);
    ws := [];
    ghost var all := WindowsFrom(env, docs, at, ids, allowance, 0);
    assert all.Windows? ==> [] + all.ws == all.ws;
    RoundIs(env, budget, docs, at);
    for k := 0 to |ids|
      invariant |ws| == k
      invariant PrependWindows(ws, WindowsFrom(env, docs, at, ids, allowance, k)) == all
      invariant forall j :: 0 <= j < k ==>
                  Continues(docs, at, ids[j], ws[j]) && JustFits(env, docs, at, ids[j], allowance, ws[j])
    {
      var i := ids[k];
      assert i in ids;
      WindowsStep(env, docs, at, ids, allowance, k);
      var w := CutWindow(env, docs, at, i, allowance);
      if w.None? { return [], Some(Failure.CannotFit(i, at[i] + 1)); }
      PrependOneWindow(ws, w.value, WindowsFrom(env, docs, at, ids, allowance, k + 1));
      ws := ws + [w.value];
    }
    WindowsStep(env, docs, at, ids, allowance, |ids|);
    assert ws + [] == ws;
    return ws, None;
  }

  lemma ActiveUnfinished(docs: Documents, at: seq<nat>)
    requires Positions(docs, at)
    ensures Unfinished(docs, at, Active(docs, at, |docs|))
  {
    var ids := Active(docs, at, |docs|);
    assert forall k :: 0 <= k < |ids| ==> ids[k] in ids;
  }

  lemma WindowsStep(env: Env, docs: Documents, at: seq<nat>, ids: seq<nat>, allowance: int, k: nat)
    requires Positions(docs, at) && k <= |ids| && Unfinished(docs, at, ids)
    ensures var r := WindowsFrom(env, docs, at, ids, allowance, k);
            if k == |ids| then r == Windows([])
            else
              && ids[k] < |docs| && at[ids[k]] < |docs[ids[k]]|
              && var w := NextWindow(env, docs, at, ids[k], allowance);
                 r == if w.None? then NoWindow(Failure.CannotFit(ids[k], at[ids[k]] + 1))
                      else PrependWindows([w.value], WindowsFrom(env, docs, at, ids, allowance, k + 1))
  {
    hide NextWindow;
  }

  lemma RoundIs(env: Env, budget: int, docs: Documents, at: seq<nat>)
    requires Positions(docs, at) && Active(docs, at, |docs|) != []
    ensures var ids := Active(docs, at, |docs|);
            && Unfinished(docs, at, ids)
            && var r := WindowsFrom(env, docs, at, ids, Allowance(env, budget, |ids|), 0);
               RoundAt(env, budget, docs, at) ==
               if r.NoWindow? then Stuck(r.failure)
               else if env.count(r.ws) > budget then Stuck(CombinedTooBig) else Moves(r.ws)
  {
    hide WindowsFrom, Allowance, Active;
    ActiveUnfinished(docs, at);
  }

  lemma PrependOneWindow(ws: seq<Window>, w: Window, more: RoundResult)
    ensures PrependWindows(ws, PrependWindows([w], more)) == PrependWindows(ws + [w], more)
  {
    if more.Windows? { assert ws + ([w] + more.ws) == ws + [w] + more.ws; }
  }

  /** The longest run found of one document that fits the allowance. */
  method CutWindow(env: Env, docs: Documents, at: seq<nat>, i: nat, allowance: int) returns (w: Option<Window>)
    requires Positions(docs, at) && i < |docs| && at[i] < |docs[i]|
    ensures w == NextWindow(env, docs, at, i, allowance)
    ensures w.Some? ==> Continues(docs, at, i, w.value) && JustFits(env, docs, at, i, allowance, w.value)
    ensures w.None? ==>
              && !WindowFits(env, docs, i, at[i], allowance, at[i] + 1)
              && forall m :: m in Halves(at[i] + 1, |docs[i]|) ==> !WindowFits(env, docs, i, at[i], allowance, m)
  {
    hide WindowFits, Halves, Search;
    GivesUpIff(Fitting(env, docs, i, at[i], allowance), at[i] + 1, |docs[i]|);
    var chosen := LastFit(Fitting(env, docs, i, at[i], allowance), at[i], |docs[i]|);
    if chosen.None? { return None; }
    return Some(WindowOf(docs, i, at[i], chosen.value));
  }

  /** The rounds of sources that are too large for one prompt. */
  method Rounds(env: Env, budget: int, docs: Documents) returns (r: Outcome)
    requires NoneEmpty(docs)
    ensures r == PlanFrom(env, budget, docs, Zeros(|docs|), 0)
    ensures r.Planned? ==>
              0 < |r.chunks| <= MAX_PARTS && Leads(env, budget, true, docs, Zeros(|docs|), r.chunks, Lengths(docs))
    ensures r.Failed? ==> r.failure in {CombinedTooBig, Failure.TooManyParts} || r.failure.CannotFit?
    ensures r.Failed? && r.failure.CannotFit? ==> LineTooBig(env, budget, docs, r.failure.doc, r.failure.line)
    ensures r == Failed(CombinedTooBig) ==> TogetherTooBig(env, budget, docs)
    ensures r == Failed(Failure.TooManyParts) ==>
              exists cs, to :: |cs| == MAX_PARTS + 1 && Leads(env, budget, true, docs, Zeros(|docs|), cs, to)
  {
    hide Leads, Shared, Round, Advance, Active, Remaining, NothingFits, RoundAt, PlanFrom;
    var at, chunks: seq<seq<Window>> := Zeros(|docs|), [];
    ghost var whole := PlanFrom(env, budget, docs, at, 0);
    PrependNone(whole);
    NoRounds(env, budget, docs);
    assert 0 in Active(docs, at, |docs|);
    while Active(docs, at, |docs|) != []
      invariant Positions(docs, at) && |chunks| <= MAX_PARTS
      invariant chunks == [] ==> Active(docs, at, |docs|) != []
      invariant Leads(env, budget, true, docs, Zeros(|docs|), chunks, at)
      invariant Prepend(chunks, PlanFrom(env, budget, docs, at, |chunks|)) == whole
      decreases Remaining(docs, at, |docs|)
    {
      PlanUnfolds(env, budget, docs, at, |chunks|);
      var ws, failure := PlanRound(env, budget, docs, at);
      if failure.Some? {
        assert LineTooBig(env, budget, docs, failure.value.doc, failure.value.line);
        return Failed(failure.value);
      }
      if env.count(ws) > budget {
        assert TooMuch(env, budget, docs, at, ws);
        return Failed(CombinedTooBig);
      }
      LeadsAppend(env, budget, true, docs, Zeros(|docs|), chunks, at, ws);
      RoundShrinks(docs, at, ws);
      PrependBefore(chunks, ws, PlanFrom(env, budget, docs, Advance(at, ws), |chunks| + 1));
      chunks := chunks + [ws];
      at := Advance(at, ws);
      if |chunks| > MAX_PARTS { return Failed(Failure.TooManyParts); }
    }
    assert at == Lengths(docs);
    PlanUnfolds(env, budget, docs, at, |chunks|);
    FinishedIff(env, budget, docs, at);
    assert chunks + [] == chunks;
    return Planned(chunks);
  }

  function Prepend(chunks: seq<seq<Window>>, more: Outcome): Outcome {
    if more.Planned? then Planned(chunks + more.chunks) else more
  }

  lemma PrependNone(more: Outcome)
    ensures Prepend([], more) == more
  {
    if more.Planned? { assert [] + more.chunks == more.chunks; }
  }

  lemma PrependBefore(chunks: seq<seq<Window>>, ws: seq<Window>, more: Outcome)
    ensures Prepend(chunks, Before(ws, more)) == Prepend(chunks + [ws], more)
  {
    if more.Planned? { assert chunks + ([ws] + more.chunks) == chunks + [ws] + more.chunks; }
  }

  lemma FinishedIff(env: Env, budget: int, docs: Documents, at: seq<nat>)
    requires Positions(docs, at)
    ensures RoundAt(env, budget, docs, at).Finished? <==> Active(docs, at, |docs|) == []
  {}

  /** One step of the plan. */
  lemma PlanUnfolds(env: Env, budget: int, docs: Documents, at: seq<nat>, n: nat)
    requires Positions(docs, at)
    ensures var turn, r := RoundAt(env, budget, docs, at), PlanFrom(env, budget, docs, at, n);
            && (turn.Finished? ==> r == Planned([]))
            && (turn.Stuck? ==> r == Failed(turn.failure))
            && (turn.Moves? ==>
                  && Positions(docs, Advance(at, turn.ws))
                  && Remaining(docs, Advance(at, turn.ws), |docs|) < Remaining(docs, at, |docs|)
                  && r == if n + 1 > MAX_PARTS then Failed(Failure.TooManyParts)
                          else Before(turn.ws, PlanFrom(env, budget, docs, Advance(at, turn.ws), n + 1)))
  {
    hide RoundAt, Round, Advance, Active, Remaining;
    var turn := RoundAt(env, budget, docs, at);
    if turn.Moves? { RoundShrinks(docs, at, turn.ws); }
  }

  lemma NoRounds(env: Env, budget: int, docs: Documents)
    ensures Leads(env, budget, true, docs, Zeros(|docs|), [], Zeros(|docs|))
  {}

  /** The one round that shows everything. */
  function Everything(docs: Documents): (ws: seq<Window>)
    ensures |ws| == |docs|
  {
    seq(|docs|, i requires 0 <= i < |docs| => WindowOf(docs, i, 0, |docs[i]|))
  }

  lemma {:induction false} AllActive(docs: Documents, n: nat)
    requires NoneEmpty(docs) && n <= |docs|
    ensures Active(docs, Zeros(|docs|), n) == seq(n, i requires 0 <= i < n => i)
  {
    if n > 0 { AllActive(docs, n - 1); }
  }

  lemma EverythingLeads(env: Env, budget: int, docs: Documents)
    requires NoneEmpty(docs) && env.count(Everything(docs)) <= budget
    ensures Leads(env, budget, false, docs, Zeros(|docs|), [Everything(docs)], Lengths(docs))
  {
    hide Active, Advance, Numbered, Shared;
    var at, ws := Zeros(|docs|), Everything(docs);
    AllActive(docs, |docs|);
    var ids := Active(docs, at, |docs|);
    forall k | 0 <= k < |ws| ensures Continues(docs, at, ids[k], ws[k]) {}
    assert Round(docs, at, ws);
    AdvanceEach(docs, at, ws, ids);
    forall i | 0 <= i < |docs| ensures Advance(at, ws)[i] == |docs[i]| {
      assert ids[i] == i;
    }
    assert Advance(at, ws) == Lengths(docs);
    assert [ws][1..] == [];
  }

  /** make_attachment_plan. Every outcome is accounted for. */
  method MakeAttachmentPlan(env: Env, sources: seq<Source>, context: int, output: int) returns (r: Outcome)
    requires env.blank("")
    ensures r == Failed(Failure.BadContext) <==> context < 4096 || !(256 <= output <= 16384)
    ensures r == Failed(BadNumber) <==> context >= 4096 && 256 <= output <= 16384 && !(1 <= |sources| <= 8)
    ensures context >= 4096 && 256 <= output <= 16384 && 1 <= |sources| <= 8 ==>
              var docs, budget := DocumentsOf(env, sources), context - output - RESERVE;
              var fault := FirstFault(env, sources, 0);
              && (fault.Some? ==> r == Failed(fault.value))
              && (fault.None? ==>
                    && NoneEmpty(docs)
                    && r == (if env.count(Everything(docs)) <= budget then Planned([Everything(docs)])
                             else PlanFrom(env, budget, docs, Zeros(|docs|), 0))
                    && (r.Planned? ==>
                          0 < |r.chunks| <= MAX_PARTS
                          && var shared := env.count(Everything(docs)) > budget;
                             Leads(env, budget, shared, docs, Zeros(|docs|), r.chunks, Lengths(docs)))
                    && (r.Failed? ==>
                          env.count(Everything(docs)) > budget
                          && (r.failure.CannotFit? || r.failure in {CombinedTooBig, Failure.TooManyParts}))
                    && (r.Failed? && r.failure.CannotFit? ==>
                          LineTooBig(env, budget, docs, r.failure.doc, r.failure.line))
                    && (r == Failed(CombinedTooBig) ==> TogetherTooBig(env, budget, docs))
                    && (r == Failed(Failure.TooManyParts) ==>
                          exists cs, to ::
                            |cs| == MAX_PARTS + 1 && Leads(env, budget, true, docs, Zeros(|docs|), cs, to)))
  {
    hide DocumentsOf, Leads, TogetherTooBig, LineTooBig, Everything, FirstFault;
    if context < 4096 || !(256 <= output <= 16384) { return Failed(Failure.BadContext); }
    if !(1 <= |sources| <= 8) { return Failed(BadNumber); }
    var fault := FirstFault(env, sources, 0);
    if fault.Some? { FaultKind(env, sources, 0); return Failed(fault.value); }
    var docs := DocumentsOf(env, sources);
    DocumentsHaveLines(env, sources);
    var budget := context - output - RESERVE;
    if env.count(Everything(docs)) <= budget {
      EverythingLeads(env, budget, docs);
      return Planned([Everything(docs)]);
    }
    r := Rounds(env, budget, docs);
  }

  lemma {:induction false} FaultKind(env: Env, sources: seq<Source>, from: nat)
    requires FirstFault(env, sources, from).Some?
    ensures var f := FirstFault(env, sources, from).value; f.BadText? || f.BadSource?
    decreases |sources| - from
  {
    if from < |sources| && Fault(env, sources[from], from).None? { FaultKind(env, sources, from + 1); }
  }

  // ----- what the rounds cover

  /** The lines of one document that some windows show, in their order. */
  function ShownIn(ws: seq<Window>, i: nat): seq<(nat, string)>
    decreases |ws|
  {
    if ws == [] then [] else ShownIn(ws[..|ws| - 1], i) + if ws[|ws| - 1].doc == i then ws[|ws| - 1].numbered else []
  }

  function ShownOf(chunks: seq<seq<Window>>, i: nat): seq<(nat, string)>
    decreases |chunks|
  {
    if chunks == [] then [] else ShownIn(chunks[0], i) + ShownOf(chunks[1..], i)
  }

  lemma {:induction false} ShownOnce(ws: seq<Window>, ids: seq<nat>, i: nat)
    requires |ws| == |ids| && forall k :: 0 <= k < |ws| ==> ws[k].doc == ids[k]
    requires forall j, k :: 0 <= j < k < |ids| ==> ids[j] < ids[k]
    ensures i !in ids ==> ShownIn(ws, i) == []
    ensures forall k :: 0 <= k < |ids| && ids[k] == i ==> ShownIn(ws, i) == ws[k].numbered
    decreases |ws|
  {
    if ws != [] {
      var n := |ws| - 1;
      ShownOnce(ws[..n], ids[..n], i);
      if ids[n] == i {
        assert i !in ids[..n];
      } else {
        assert ShownIn(ws, i) == ShownIn(ws[..n], i);
        forall k | 0 <= k < |ids| && ids[k] == i ensures ShownIn(ws, i) == ws[k].numbered {
          assert ids[..n][k] == i && ws[..n][k] == ws[k];
        }
        if i !in ids { assert i !in ids[..n]; }
      }
    }
  }

  /** A round shows, of each document, the lines from where it stood to where it stands next. */
  lemma RoundShows(docs: Documents, at: seq<nat>, ws: seq<Window>, i: nat)
    requires Positions(docs, at) && Round(docs, at, ws) && i < |docs|
    ensures at[i] <= Advance(at, ws)[i] <= |docs[i]|
    ensures ShownIn(ws, i) == Numbered(docs[i], 1)[at[i]..Advance(at, ws)[i]]
  {
    hide Round, Advance, ShownIn, Numbered, Active;
    var ids := Active(docs, at, |docs|);
    RoundDocs(docs, at, ws);
    RoundAdvances(docs, at, ws);
    AdvanceEach(docs, at, ws, ids);
    ShownOnce(ws, ids, i);
    if i in ids {
      var k :| 0 <= k < |ids| && ids[k] == i;
      RoundSlice(docs, at, ws, k);
    } else {
      assert Numbered(docs[i], 1)[at[i]..at[i]] == [];
    }
  }

  lemma RoundSlice(docs: Documents, at: seq<nat>, ws: seq<Window>, k: nat)
    requires Positions(docs, at) && Round(docs, at, ws) && k < |ws|
    ensures var i := Active(docs, at, |docs|)[k];
            i < |docs| && at[i] < ws[k].end <= |docs[i]| && ws[k].numbered == Numbered(docs[i], 1)[at[i]..ws[k].end]
  {
    assert Continues(docs, at, Active(docs, at, |docs|)[k], ws[k]);
  }

  lemma {:induction false} LeadsShows(env: Env, budget: int, shared: bool, docs: Documents, at: seq<nat>,
                                      chunks: seq<seq<Window>>, to: seq<nat>, i: nat)
    requires Leads(env, budget, shared, docs, at, chunks, to) && i < |docs|
    ensures |to| == |docs| && at[i] <= to[i] <= |docs[i]|
    ensures ShownOf(chunks, i) == Numbered(docs[i], 1)[at[i]..to[i]]
    decreases |chunks|
  {
    hide Round, Shared, Advance;
    if chunks != [] {
      var next := Advance(at, chunks[0]);
      RoundShows(docs, at, chunks[0], i);
      LeadsShows(env, budget, shared, docs, next, chunks[1..], to, i);
      var all := Numbered(docs[i], 1);
      assert all[at[i]..to[i]] == all[at[i]..next[i]] + all[next[i]..to[i]];
    }
  }

  /** A window is headed by the numbers of its first and last line, and shows the lines between under their numbers. */
  predicate Headed(docs: Documents, w: Window) {
    && w.doc < |docs| && 1 <= w.start <= w.end <= |docs[w.doc]|
    && w.numbered == Numbered(docs[w.doc], 1)[w.start - 1..w.end]
  }

  lemma RoundHeaded(docs: Documents, at: seq<nat>, ws: seq<Window>)
    requires Positions(docs, at) && Round(docs, at, ws)
    ensures forall w :: w in ws ==> Headed(docs, w)
  {
    hide Numbered;
    forall k | 0 <= k < |ws| ensures Headed(docs, ws[k]) {
      RoundSlice(docs, at, ws, k);
      assert Continues(docs, at, Active(docs, at, |docs|)[k], ws[k]);
    }
  }

  /** A plan that succeeds shows every line of every document exactly once, in order, under its own number. */
  lemma PlanCoversAll(env: Env, budget: int, shared: bool, docs: Documents, chunks: seq<seq<Window>>)
    requires Leads(env, budget, shared, docs, Zeros(|docs|), chunks, Lengths(docs))
    ensures forall i :: 0 <= i < |docs| ==> ShownOf(chunks, i) == Numbered(docs[i], 1)
    ensures forall ws :: ws in chunks ==> env.count(ws) <= budget && forall w :: w in ws ==> Headed(docs, w)
  {
    hide Headed;
    forall i | 0 <= i < |docs| ensures ShownOf(chunks, i) == Numbered(docs[i], 1) {
      LeadsShows(env, budget, shared, docs, Zeros(|docs|), chunks, Lengths(docs), i);
      assert Numbered(docs[i], 1)[0..|docs[i]|] == Numbered(docs[i], 1);
    }
    LeadsBudgeted(env, budget, shared, docs, Zeros(|docs|), chunks, Lengths(docs));
  }

  lemma {:induction false} LeadsBudgeted(env: Env, budget: int, shared: bool, docs: Documents, at: seq<nat>,
                                         chunks: seq<seq<Window>>, to: seq<nat>)
    requires Leads(env, budget, shared, docs, at, chunks, to)
    ensures forall ws :: ws in chunks ==> env.count(ws) <= budget && forall w :: w in ws ==> Headed(docs, w)
    decreases |chunks|
  {
    hide Round, Shared, Advance, Headed;
    if chunks != [] {
      RoundHeaded(docs, at, chunks[0]);
      LeadsBudgeted(env, budget, shared, docs, Advance(at, chunks[0]), chunks[1..], to);
    }
  }

  // ----- when the shares suffice

  /** What the windows add to the empty prompt, one by one. */
  function Extra(env: Env, ws: seq<Window>): int
    decreases |ws|
  {
    if ws == [] then 0 else Extra(env, ws[..|ws| - 1]) + env.count([ws[|ws| - 1]]) - env.count([])
  }

  lemma {:induction false} ExtraBounded(env: Env, ws: seq<Window>, most: int)
    requires forall w :: w in ws ==> env.count([w]) - env.count([]) <= most
    ensures Extra(env, ws) <= |ws| * most
    decreases |ws|
  {
    if ws != [] {
      ExtraBounded(env, ws[..|ws| - 1], most);
      assert (|ws| - 1) * most + most == |ws| * most;
    }
  }

  /**
   If windows together cost no more than their costs added up, a shared round always fits: the round
   as a whole is never refused.
   */
  lemma SharesSuffice(env: Env, budget: int, docs: Documents, at: seq<nat>, ws: seq<Window>)
    requires Positions(docs, at) && Round(docs, at, ws) && Shared(env, budget, docs, at, ws)
    requires env.count(ws) <= env.count([]) + Extra(env, ws)
    ensures env.count(ws) <= budget
  {
    var ids := Active(docs, at, |docs|);
    var rest := budget - env.count([]);
    forall w | w in ws ensures env.count([w]) - env.count([]) <= rest / |ws| - 64 {
      var k :| 0 <= k < |ws| && ws[k] == w;
      assert Continues(docs, at, ids[k], ws[k]);
      assert JustFits(env, docs, at, ids[k], Allowance(env, budget, |ids|), ws[k]);
    }
    ExtraBounded(env, ws, rest / |ws| - 64);
    SharesAddUp(rest, |ws|);
  }

  lemma SharesAddUp(rest: int, n: nat)
    requires n > 0
    ensures n * (rest / n - 64) <= rest
  {
    assert rest == n * (rest / n) + rest % n;
    assert n * (rest / n - 64) == n * (rest / n) - 64 * n;
  }
}
