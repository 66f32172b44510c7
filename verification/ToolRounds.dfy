/**
 The tool / continue / retry loop of run_colibri_serve in main.cpp: rounds of tool use, each a
 few continuation chunks, with one retry that repeats a chunk. A state stands before a request.
 */
module ToolRounds {
  import opened Text

  /** What is fixed for a call. Native tools need a tool mouth and no /edit job; the EXL3 mouth is a tool mouth. */
  datatype Config = Config(
    toolMouth: bool, exl3: bool, native: bool, readOnly: bool, research: bool, yolo: bool, fixJob: bool,
    applyCont: bool, thinking: bool)

  predicate Possible(cfg: Config) {
    && (cfg.exl3 ==> cfg.toolMouth)
    && (cfg.native ==> cfg.toolMouth && !cfg.applyCont)
    && (cfg.research ==> cfg.readOnly)
    && (cfg.fixJob ==> cfg.native && !cfg.readOnly)
  }

  const LLAMA_CHUNKS: nat := 2
  const COLI_CHUNKS: nat := 4

  function Chunks(cfg: Config): nat { if cfg.toolMouth then LLAMA_CHUNKS else COLI_CHUNKS }

  function Rounds(cfg: Config): nat {
    if !cfg.native then 1 else if cfg.research || cfg.yolo || cfg.fixJob then 8 else 3
  }

  datatype Finish = Stop | Length | ToolCalls | ModelError | Other

  datatype Body = NoBody | BadBody | Recovered

  /** All that one completion, and the ledger and the tools after it, may turn out to be. */
  datatype Answer = Answer(
    capsOk: bool, response: bool, ok200: bool, parsed: bool, finish: Finish,
    blank: bool, blankSoFar: bool, noneSoFar: bool, empty: bool, body: Body,
    reasoning: bool, calls: bool, named: bool, looping: bool, unused49: bool, open: bool, unfinished: bool,
    block: bool, blockLater: bool, cancelled: bool, cancelledLater: bool, toolOut: bool, saved: bool, savedAfter: bool,
    stayedUp: bool, nothingNew: bool)

  /** Where the loops stand before a request, and what was done so far. */
  datatype Spot = Spot(round: nat, chunk: nat, limit: nat, retry: bool, requests: nat, batches: nat)

  datatype State = At(spot: Spot) | End(ok: bool, last: Spot)

  function Start(cfg: Config): Spot { Spot(0, 0, Rounds(cfg), false, 0, 0) }

  /** tools_schema_on_round, and never on a retry. */
  predicate UseTools(cfg: Config, s: Spot) {
    !s.retry && cfg.native && s.round + 1 < s.limit
  }

  /** What becomes of one request within its chunk loop. */
  datatype Move = Give | Retry | Break | Next

  /** The non-streamed completion of a round that offers tools. */
  function OnTools(cfg: Config, a: Answer): Move {
    if !a.response || !a.ok200 || !a.parsed then Give
    else if a.blank && !a.calls then if cfg.readOnly then Retry else Give
    else if cfg.readOnly && !a.calls && (a.looping || a.finish == Length) then Retry
    else Break
  }

  /** The streamed completion of any other round. */
  function OnStream(cfg: Config, retry: bool, chunk: nat, a: Answer): Move {
    if a.looping then
      if cfg.readOnly then if retry then Give else Retry else Break
    else if !a.response || !a.ok200 || a.finish == ModelError then Give
    else if retry && a.finish != Stop then Give
    else if cfg.readOnly && (a.finish == Length || (a.blank && a.blankSoFar && !a.calls)) then
      if retry then Give else Retry
    else if a.blank && a.reasoning && !a.calls then
      if cfg.exl3 && cfg.thinking && a.finish == Length && !retry then Retry else Give
    else if a.empty && a.body == BadBody then if a.noneSoFar then Give else Break
    else if a.empty && a.body == NoBody then Break
    else if a.unused49 || a.finish != Length || chunk + 1 >= Chunks(cfg) then Break
    else if cfg.applyCont then if a.open then Next else Break
    else if cfg.toolMouth then if a.unfinished then Next else Break
    else Next
  }

  function Sent(s: Spot): Spot { s.(requests := s.requests + 1) }

  /** The limit after a tool turn: it is only ever lowered, and never below one more round. */
  function Shrunk(cfg: Config, s: Spot, a: Answer): (limit: nat)
    ensures limit <= s.limit
    ensures s.round + 1 < s.limit ==> s.round + 1 < limit
  {
    var limit := if cfg.fixJob && a.stayedUp && s.limit > s.round + 2 then s.round + 2 else s.limit;
    if cfg.readOnly && a.nothingNew then Min(limit, s.round + 2) else limit
  }

  /** Tools whose answer is not asked for: a cancel came while they ran, or they printed nothing. */
  predicate Unanswered(a: Answer) { if a.named then a.cancelledLater else !a.toolOut }

  /** After the chunk loop: an answer, a cancel, or a batch of tools and perhaps another round. */
  function AfterChunks(cfg: Config, s: Spot, a: Answer): State {
    if s.retry && (a.calls || a.block) then End(false, s)
    else if !cfg.toolMouth || cfg.applyCont || (!a.named && !a.blockLater) || a.cancelled then End(true, s)
    else if !a.saved then End(false, s)
    else
      var done := s.(batches := s.batches + 1);
      if Unanswered(a) then End(true, done)
      else
        var next := done.(round := s.round + 1, chunk := 0, limit := Shrunk(cfg, s, a));
        if !a.savedAfter then End(false, done)
        else if next.round < next.limit then At(next)
        else End(true, next)
  }

  function Decide(cfg: Config, s: Spot, a: Answer): Move {
    if UseTools(cfg, s) then OnTools(cfg, a) else OnStream(cfg, s.retry, s.chunk, a)
  }

  /** One request and everything up to the next. */
  function Step(cfg: Config, s: Spot, a: Answer): State {
    if cfg.toolMouth && !a.capsOk then End(false, s) else
    match Decide(cfg, s, a)
    case Give => End(false, Sent(s))
    case Retry => At(Sent(s).(retry := true))
    case Next => At(Sent(s).(chunk := s.chunk + 1))
    case Break => AfterChunks(cfg, Sent(s), a)
  }

  // ----- the bound

  /**
   Every earlier round took one request, a later chunk is only reached in a last round, and a retry
   adds one in all.
   */
  predicate Inv(cfg: Config, s: Spot) {
    && s.round < s.limit <= Rounds(cfg) && s.chunk < Chunks(cfg)
    && s.requests == s.round + s.chunk + (if s.retry then 1 else 0)
    && (s.chunk > 0 ==> s.round + 1 == s.limit)
    && s.batches <= s.round
  }

  predicate Bounded(cfg: Config, s: Spot) {
    s.limit <= Rounds(cfg) && s.requests <= Rounds(cfg) + Chunks(cfg) && s.batches <= Rounds(cfg)
  }

  predicate Fine(cfg: Config, s: State) {
    match s
    case At(spot) => Inv(cfg, spot)
    case End(_, last) => Bounded(cfg, last)
  }

  /** A retry happens only when there was none; a further chunk only in a last round without one. */
  lemma DecideIs(cfg: Config, s: Spot, a: Answer)
    requires Possible(cfg) && Inv(cfg, s)
    ensures Decide(cfg, s, a) == Retry ==> !s.retry
    ensures Decide(cfg, s, a) == Next ==> !s.retry && s.round + 1 == s.limit && s.chunk + 1 < Chunks(cfg)
  {}

  lemma StepFine(cfg: Config, s: Spot, a: Answer)
    requires Possible(cfg) && Inv(cfg, s)
    ensures Fine(cfg, Step(cfg, s, a))
  {
    DecideIs(cfg, s, a);
    hide Decide, Possible;
  }

  /** The whole loop for any sequence of answers; it ends because requests only grow. */
  function Run(cfg: Config, s: Spot, world: nat -> Answer): (end: State)
    requires Possible(cfg) && Inv(cfg, s)
    ensures end.End? && Bounded(cfg, end.last)
    decreases Rounds(cfg) + Chunks(cfg) - s.requests
  {
    var r := Step(cfg, s, world(s.requests));
    StepFine(cfg, s, world(s.requests));
    Grows(cfg, s, world(s.requests));
    if r.End? then r else Run(cfg, r.spot, world)
  }

  /** Each step that does not end the run makes a request and never raises the limit or takes the retry back. */
  lemma Grows(cfg: Config, s: Spot, a: Answer)
    ensures var r := Step(cfg, s, a);
            if r.End? then s.requests <= r.last.requests <= s.requests + 1 && r.last.limit <= s.limit
            else
              var next := r.spot;
              && next.requests == s.requests + 1 && next.limit <= s.limit && (s.retry ==> next.retry)
              && (next.round == s.round ==> next.limit == s.limit && next.batches == s.batches)
              && (next.round != s.round ==>
                    next.round == s.round + 1 && next.chunk == 0 && next.batches == s.batches + 1)
  {
    hide Decide;
  }

  lemma RunUnfolds(cfg: Config, s: Spot, world: nat -> Answer)
    requires Possible(cfg) && Inv(cfg, s)
    ensures Fine(cfg, Step(cfg, s, world(s.requests)))
    ensures var r := Step(cfg, s, world(s.requests));
            Run(cfg, s, world) == if r.End? then r else Run(cfg, r.spot, world)
  {
    StepFine(cfg, s, world(s.requests));
  }

  /** Text that was not cut by the output limit, does not repeat itself and is not blank. */
  predicate Whole(a: Answer) { !a.looping && a.finish != Length && !(a.blank && a.blankSoFar) }

  lemma WellEnded(cfg: Config, s: Spot, a: Answer)
    requires Possible(cfg) && Step(cfg, s, a).End? && Step(cfg, s, a).ok
    ensures Step(cfg, s, a).last.requests == s.requests + 1 && Step(cfg, s, a).last.retry == s.retry
    ensures cfg.readOnly ==> Whole(a) || a.calls || a.named || a.blockLater
    ensures s.retry ==> a.finish == Stop || (a.looping && !cfg.readOnly)
  {}

  /** A read-only run that ends well ends on a whole answer, or on one that asked for tools. */
  lemma {:induction false} ReadOnlyAnswersAreWhole(cfg: Config, s: Spot, world: nat -> Answer)
    requires Possible(cfg) && Inv(cfg, s) && cfg.readOnly
    ensures var end := Run(cfg, s, world);
            end.ok ==> end.last.requests > s.requests
                       && var a := world(end.last.requests - 1); Whole(a) || a.calls || a.named || a.blockLater
    decreases Rounds(cfg) + Chunks(cfg) - s.requests
  {
    var a := world(s.requests);
    RunUnfolds(cfg, s, world);
    var r := Step(cfg, s, a);
    Grows(cfg, s, a);
    SpotInRange(cfg, s);
    hide Step, Inv, Possible, Whole, Run, Rounds, Chunks, Bounded;
    if r.At? {
      ReadOnlyAnswersAreWhole(cfg, r.spot, world);
    } else if r.ok {
      WellEnded(cfg, s, a);
    }
  }

  /**
   A run that ends well after the retry ends on an answer the model stopped by itself; the one
   exception is a loop in a writing job, which is cut.
   */
  lemma {:induction false} RetryMustStop(cfg: Config, s: Spot, world: nat -> Answer)
    requires Possible(cfg) && Inv(cfg, s)
    ensures var end := Run(cfg, s, world);
            end.ok && end.last.retry ==>
              end.last.requests > s.requests
              && var a := world(end.last.requests - 1); a.finish == Stop || (a.looping && !cfg.readOnly)
    decreases Rounds(cfg) + Chunks(cfg) - s.requests
  {
    var a := world(s.requests);
    RunUnfolds(cfg, s, world);
    var r := Step(cfg, s, a);
    Grows(cfg, s, a);
    SpotInRange(cfg, s);
    hide Step, Inv, Possible, Whole, Run, Rounds, Chunks, Bounded;
    if r.At? {
      RetryMustStop(cfg, r.spot, world);
    } else if r.ok {
      WellEnded(cfg, s, a);
    }
  }

  /** Where a run stands before its last step. */
  function LastSpot(cfg: Config, s: Spot, world: nat -> Answer): (p: Spot)
    requires Possible(cfg) && Inv(cfg, s)
    ensures Inv(cfg, p) && Step(cfg, p, world(p.requests)) == Run(cfg, s, world)
    decreases Rounds(cfg) + Chunks(cfg) - s.requests
  {
    var r := Step(cfg, s, world(s.requests));
    StepFine(cfg, s, world(s.requests));
    Grows(cfg, s, world(s.requests));
    if r.End? then s else LastSpot(cfg, r.spot, world)
  }

  /**
   Every batch of tools before the last step was followed by a round of its own. If a run that ends
   well took one more, that was in the last round it had, or the batch was not one to answer.
   */
  lemma {:induction false} ToolsAreAnswered(cfg: Config, s: Spot, world: nat -> Answer)
    requires Possible(cfg) && Inv(cfg, s)
    ensures var end, p := Run(cfg, s, world), LastSpot(cfg, s, world);
            && p.batches - s.batches == p.round - s.round >= 0
            && p.batches <= end.last.batches <= p.batches + 1
            && (end.ok && end.last.batches > p.batches ==> p.round + 1 == p.limit || Unanswered(world(p.requests)))
    decreases Rounds(cfg) + Chunks(cfg) - s.requests
  {
    hide Decide;
    var a := world(s.requests);
    RunUnfolds(cfg, s, world);
    var r := Step(cfg, s, a);
    if r.At? {
      Grows(cfg, s, a);
      SpotInRange(cfg, s);
      ToolsAreAnswered(cfg, r.spot, world);
    }
  }

  /** One tool round: its chunk loop, in which a retry repeats the chunk, and what follows. */
  method OneRound(cfg: Config, start: Spot, world: nat -> Answer) returns (r: State)
    requires Possible(cfg) && Inv(cfg, start)
    ensures r.At? ==> Inv(cfg, r.spot) && r.spot.chunk == 0 && r.spot.requests > start.requests
    ensures Run(cfg, start, world) == if r.End? then r else Run(cfg, r.spot, world)
  {
    hide Possible, Inv, AfterChunks, OnTools, OnStream, Run;
    var s := start;
    var useTools := UseTools(cfg, s);
    while true
      invariant Inv(cfg, s) && s.requests >= start.requests && Run(cfg, s, world) == Run(cfg, start, world)
      invariant useTools == UseTools(cfg, s)
      decreases Rounds(cfg) + Chunks(cfg) - s.requests
    {
      RunUnfolds(cfg, s, world);
      SpotInRange(cfg, s);
      DecideIs(cfg, s, world(s.requests));
      var a := world(s.requests);
      if cfg.toolMouth && !a.capsOk { return End(false, s); }
      var move := if useTools then OnTools(cfg, a) else OnStream(cfg, s.retry, s.chunk, a);
      s := s.(requests := s.requests + 1);
      match move
      case Give => return End(false, s);
      case Break =>
        NextRound(cfg, s, a);
        return AfterChunks(cfg, s, a);
      case Retry =>
        s := s.(retry := true);
        useTools := false;
      case Next =>
        s := s.(chunk := s.chunk + 1);
    }
  }

  lemma SpotInRange(cfg: Config, s: Spot)
    requires Inv(cfg, s)
    ensures s.requests < Rounds(cfg) + Chunks(cfg) && s.round < s.limit
  {}

  /** run_colibri_serve's loops: at most rounds + chunks requests, one retry, and no more batches than rounds. */
  method Serve(cfg: Config, world: nat -> Answer) returns (ok: bool, last: Spot)
    requires Possible(cfg)
    ensures End(ok, last) == Run(cfg, Start(cfg), world)
    ensures last.requests <= Rounds(cfg) + Chunks(cfg) && last.batches <= Rounds(cfg) && last.limit <= Rounds(cfg)
  {
    var s := Start(cfg);
    assert Inv(cfg, s);
    hide Possible, Inv, Run;
    while true
      invariant Inv(cfg, s) && Run(cfg, s, world) == Run(cfg, Start(cfg), world)
      decreases Rounds(cfg) + Chunks(cfg) - s.requests
    {
      SpotInRange(cfg, s);
      var r := OneRound(cfg, s, world);
      match r
      case End(done, end) => return done, end;
      case At(next) => s := next;
    }
  }

  lemma NextRound(cfg: Config, s: Spot, a: Answer)
    ensures var r := AfterChunks(cfg, s, a); r.At? ==> r.spot.chunk == 0 && r.spot.requests == s.requests
  {}

  // ----- the bound is met

  const EXL3 := Config(true, true, true, false, false, false, false, false, true)

  /** A round of native tools that runs and leaves something to say. */
  const TOOLS := Answer(true, true, true, true, ToolCalls, false, false, false, false, NoBody,
                        false, true, true, false, false, false, false, false, false, false, false, true,
                        true, true, false, false)

  /** A sentence cut by the output limit. */
  const CUT := TOOLS.(finish := Length, calls := false, named := false, unfinished := true)

  /** Reasoning alone, cut by the output limit. */
  const THOUGHT := CUT.(blank := true, empty := true, reasoning := true)

  const SAID := CUT.(finish := Stop)

  /** Two tool rounds, a cut sentence, reasoning without an answer and its retry: five requests, rounds + chunks. */
  lemma BoundIsMet()
    ensures Possible(EXL3) && Rounds(EXL3) + Chunks(EXL3) == 5
    ensures exists world: nat -> Answer :: Run(EXL3, Start(EXL3), world).last.requests == 5
  {
    var world := (n: nat) => if n < 2 then TOOLS else if n == 2 then CUT else if n == 3 then THOUGHT else SAID;
    var s0 := Start(EXL3);
    var s1 := Spot(1, 0, 3, false, 1, 1);
    var s2 := Spot(2, 0, 3, false, 2, 2);
    var s3 := Spot(2, 1, 3, false, 3, 2);
    var s4 := Spot(2, 1, 3, true, 4, 2);
    assert Step(EXL3, s0, TOOLS) == At(s1);
    assert Step(EXL3, s1, TOOLS) == At(s2);
    assert Step(EXL3, s2, CUT) == At(s3);
    assert Step(EXL3, s3, THOUGHT) == At(s4);
    assert Step(EXL3, s4, SAID) == End(true, s4.(requests := 5));
    hide Step;
    RunUnfolds(EXL3, s0, world);
    RunUnfolds(EXL3, s1, world);
    RunUnfolds(EXL3, s2, world);
    RunUnfolds(EXL3, s3, world);
    RunUnfolds(EXL3, s4, world);
    assert Run(EXL3, s0, world).last.requests == 5;
  }
}
