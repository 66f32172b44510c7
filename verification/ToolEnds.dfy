/** When a run of the tool loop of main.cpp ends well, and when it goes on, in terms of the answers alone. */
module ToolEnds {
  import opened Text
  import opened ToolRounds

  /** The request can be made and was answered. */
  predicate Delivered(cfg: Config, a: Answer) { (cfg.toolMouth ==> a.capsOk) && a.response && a.ok200 }

  /** A round offers its tools unless it is the last one or repeats a request. */
  predicate Offered(cfg: Config, p: Spot) { cfg.native && p.round + 1 < p.limit && !p.retry }

  /** Read-only work has no use for an answer that was cut by the limit or loops, or is blank altogether. */
  predicate Spoilt(cfg: Config, a: Answer) {
    cfg.readOnly && (a.looping || a.finish == Length || (a.blank && a.blankSoFar && !a.calls))
  }

  /** Reasoning and nothing else. */
  predicate OnlyThought(a: Answer) { a.blank && a.reasoning && !a.calls }

  /** The answer of a request that offered tools can be used. */
  predicate UsableWithTools(cfg: Config, a: Answer) {
    && Delivered(cfg, a) && a.parsed
    && (a.calls || (!a.blank && !(cfg.readOnly && (a.looping || a.finish == Length))))
  }

  /** The answer of any other request can be used: a loop is cut in a writing job, and is no use in another. */
  predicate UsableWithout(cfg: Config, p: Spot, a: Answer) {
    && (cfg.toolMouth ==> a.capsOk)
    && !Spoilt(cfg, a)
    && (!a.looping ==>
          && a.response && a.ok200 && a.finish != ModelError && (p.retry ==> a.finish == Stop)
          && !OnlyThought(a)
          && !(a.empty && a.body == BadBody && a.noneSoFar))
  }

  predicate Usable(cfg: Config, p: Spot, a: Answer) {
    if Offered(cfg, p) then UsableWithTools(cfg, a) else UsableWithout(cfg, p, a)
  }

  /** The request is made again, without tools: once in a run, in read-only work or after reasoning that was cut. */
  predicate Repeats(cfg: Config, p: Spot, a: Answer) {
    && !p.retry && (cfg.toolMouth ==> a.capsOk)
    && if Offered(cfg, p) then
         && a.response && a.ok200 && a.parsed && cfg.readOnly && !a.calls
         && (a.blank || a.looping || a.finish == Length)
       else
         || (a.looping && cfg.readOnly)
         || (!a.looping && a.response && a.ok200 && a.finish != ModelError
             && (Spoilt(cfg, a) || (OnlyThought(a) && cfg.exl3 && cfg.thinking && a.finish == Length)))
  }

  /** A usable text that the limit cut is continued in a further chunk. */
  predicate Continues(cfg: Config, p: Spot, a: Answer) {
    && !Offered(cfg, p) && Usable(cfg, p, a) && !a.looping && a.finish == Length && !a.unused49
    && !(a.empty && a.body in {NoBody, BadBody})
    && p.chunk + 1 < Chunks(cfg)
    && (if cfg.applyCont then a.open else cfg.toolMouth ==> a.unfinished)
  }

  /** The answer asks for tools and they are run: native calls, or blocks in a text. */
  predicate RunsTools(cfg: Config, a: Answer) {
    cfg.toolMouth && !cfg.applyCont && (a.named || a.blockLater) && !a.cancelled
  }

  /** The answer is the end of its chunks. */
  predicate Settles(cfg: Config, p: Spot, a: Answer) {
    Usable(cfg, p, a) && !Continues(cfg, p, a) && !(p.retry && (a.calls || a.block))
  }

  /** Tools were run, there is something to say about it, and it is saved before and after. */
  predicate Answers(cfg: Config, p: Spot, a: Answer) {
    Settles(cfg, p, a) && RunsTools(cfg, a) && a.saved && !Unanswered(a) && a.savedAfter
  }

  lemma OnToolsIs(cfg: Config, a: Answer)
    requires cfg.toolMouth ==> a.capsOk
    ensures OnTools(cfg, a) == Break <==> UsableWithTools(cfg, a)
    ensures OnTools(cfg, a) == Retry <==>
            && a.response && a.ok200 && a.parsed && cfg.readOnly && !a.calls
            && (a.blank || a.looping || a.finish == Length)
    ensures OnTools(cfg, a) != Next
  {}

  lemma OnStreamIs(cfg: Config, p: Spot, a: Answer)
    requires Possible(cfg) && !Offered(cfg, p) && (cfg.toolMouth ==> a.capsOk)
    ensures OnStream(cfg, p.retry, p.chunk, a) == Retry <==> Repeats(cfg, p, a)
    ensures OnStream(cfg, p.retry, p.chunk, a) == Next <==> Continues(cfg, p, a)
    ensures OnStream(cfg, p.retry, p.chunk, a) == Break <==> Usable(cfg, p, a) && !Continues(cfg, p, a)
  {}

  /** The step after any request: repeated, continued, followed by another round, or the end; and which end. */
  lemma StepIs(cfg: Config, p: Spot, a: Answer)
    requires Possible(cfg) && Inv(cfg, p)
    ensures var r, sent := Step(cfg, p, a), p.(requests := p.requests + 1);
            && (Repeats(cfg, p, a) ==> r == At(sent.(retry := true)))
            && (Continues(cfg, p, a) ==> r == At(sent.(chunk := p.chunk + 1)))
            && (!Repeats(cfg, p, a) && !Continues(cfg, p, a) ==>
                  (r.At? <==> Answers(cfg, p, a) && p.round + 1 < Shrunk(cfg, sent, a)))
            && (r.At? && !Repeats(cfg, p, a) && !Continues(cfg, p, a) ==>
                  r == At(Spot(p.round + 1, 0, Shrunk(cfg, sent, a), p.retry, p.requests + 1, p.batches + 1)))
            && (r.End? ==> (r.ok <==> GoodEnd(cfg, p, a)))
  {
    hide OnTools, OnStream, Shrunk, Chunks, Rounds, Usable, Repeats, Continues;
    if cfg.toolMouth ==> a.capsOk {
      Told(cfg, p, a);
    } else {
      Untold(cfg, p, a);
    }
  }

  lemma Told(cfg: Config, p: Spot, a: Answer)
    requires Possible(cfg) && (cfg.toolMouth ==> a.capsOk)
    ensures Decide(cfg, p, a) == Retry <==> Repeats(cfg, p, a)
    ensures Decide(cfg, p, a) == Next <==> Continues(cfg, p, a)
    ensures Decide(cfg, p, a) == Break <==> Usable(cfg, p, a) && !Continues(cfg, p, a)
    ensures !(Repeats(cfg, p, a) && Usable(cfg, p, a))
  {
    hide OnTools, OnStream;
    if Offered(cfg, p) { OnToolsIs(cfg, a); } else { OnStreamIs(cfg, p, a); }
  }

  lemma Untold(cfg: Config, p: Spot, a: Answer)
    requires cfg.toolMouth && !a.capsOk
    ensures !Usable(cfg, p, a) && !Repeats(cfg, p, a) && !Continues(cfg, p, a)
  {}

  /** The end of a run is a good one: a usable answer, and the record of any tools it asked for was saved. */
  predicate GoodEnd(cfg: Config, p: Spot, a: Answer) {
    Settles(cfg, p, a) && (RunsTools(cfg, a) ==> a.saved && (Unanswered(a) || a.savedAfter))
  }

  /** The limit after a round of tools: one round more for a fix that holds or a read that found nothing new. */
  lemma LimitIs(cfg: Config, p: Spot, a: Answer)
    ensures Shrunk(cfg, p, a) ==
            if (cfg.fixJob && a.stayedUp) || (cfg.readOnly && a.nothingNew) then Min(p.limit, p.round + 2) else p.limit
  {}

  /** The number of rounds and of chunks in each, and so of requests. */
  lemma BudgetIs(cfg: Config)
    requires Possible(cfg)
    ensures Rounds(cfg) + Chunks(cfg) ==
            if !cfg.toolMouth then 5
            else if !cfg.native then 3
            else if cfg.research || cfg.yolo || cfg.fixJob then 10 else 5
  {}

  /** A run ends well if and only if its last answer was usable and what its tools did was saved. */
  lemma RunEndsWellIff(cfg: Config, s: Spot, world: nat -> Answer)
    requires Possible(cfg) && Inv(cfg, s)
    ensures var p := LastSpot(cfg, s, world);
            Run(cfg, s, world).ok <==> GoodEnd(cfg, p, world(p.requests))
  {
    var p := LastSpot(cfg, s, world);
    StepIs(cfg, p, world(p.requests));
  }

  /** In a request without tools, a plain answer that stopped by itself ends the run at once, and well. */
  lemma PlainAnswerEnds(cfg: Config, s: Spot, world: nat -> Answer)
    requires Possible(cfg) && Inv(cfg, s) && !Offered(cfg, s)
    requires var a := world(s.requests);
             && Delivered(cfg, a) && a.finish == Stop && !a.blank && !a.empty && !a.looping
             && !a.calls && !a.block && !a.named && !a.blockLater
    ensures Run(cfg, s, world) == End(true, s.(requests := s.requests + 1))
  {
    var a := world(s.requests);
    RunUnfolds(cfg, s, world);
    hide Run;
    StepIs(cfg, s, a);
    hide Step;
    assert GoodEnd(cfg, s, a) && !Repeats(cfg, s, a) && !Continues(cfg, s, a) && !Answers(cfg, s, a);
    EndsHere(cfg, s, a);
  }

  /** A step that ends the run without tools stays where it was. */
  lemma EndsHere(cfg: Config, s: Spot, a: Answer)
    requires Possible(cfg) && Inv(cfg, s) && Step(cfg, s, a).End? && Step(cfg, s, a).ok && !RunsTools(cfg, a)
    ensures Step(cfg, s, a).last == s.(requests := s.requests + 1)
  {
    hide Decide;
  }
}
