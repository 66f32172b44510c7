/** The private reasoning channel of coli_sse.h: kept in full, and without effect on anything else. */
module PrivateReasoning {
  import opened Text
  import opened ToolCalls
  import opened ColiSse

  /** The reasoning a line brings. */
  function LineThought(c: Codec, line: string): string {
    match ParsedIn(c, line)
    case None => ""
    case Some(parsed) =>
      if Has(parsed, "error") || ChoiceOf(parsed).None? then ""
      else Or(StrAt(DeltaOf(ChoiceOf(parsed).value), "reasoning_content"), "")
  }

  function LinesThought(c: Codec, lines: seq<string>): string
    decreases |lines|
  {
    if lines == [] || Payload(lines[0]) == Some("[DONE]") then ""
    else LineThought(c, lines[0]) + LinesThought(c, lines[1..])
  }

  function Thoughts(c: Codec, events: seq<string>): string
    decreases |events|
  {
    if events == [] then "" else LinesThought(c, Lines(events[0])) + Thoughts(c, events[1..])
  }

  lemma LineThinks(c: Codec, k: Sink, line: string)
    requires k.reasoning.Some?
    ensures OnLine(c, k, line).reasoning == Some(k.reasoning.value + LineThought(c, line))
  {
    hide CallsIn, TakeAll, Payload;
    assert k.reasoning.value + "" == k.reasoning.value;
  }

  lemma {:induction false} LinesThink(c: Codec, k: Sink, lines: seq<string>)
    requires k.reasoning.Some?
    ensures OnLines(c, k, lines).reasoning == Some(k.reasoning.value + LinesThought(c, lines))
    decreases |lines|
  {
    hide OnLine, LineThought, Payload;
    if lines == [] || Payload(lines[0]) == Some("[DONE]") {
      assert k.reasoning.value + "" == k.reasoning.value;
    } else {
      LineThinks(c, k, lines[0]);
      LinesThink(c, OnLine(c, k, lines[0]), lines[1..]);
      AddAssociates(k.reasoning.value, LineThought(c, lines[0]), LinesThought(c, lines[1..]));
    }
  }

  lemma {:induction false} EventsThink(c: Codec, k: Sink, events: seq<string>)
    requires k.reasoning.Some?
    ensures OnEvents(c, k, events).reasoning == Some(k.reasoning.value + Thoughts(c, events))
    decreases |events|
  {
    hide OnLines, LinesThought;
    if events == [] {
      assert k.reasoning.value + "" == k.reasoning.value;
    } else {
      LinesThink(c, k, Lines(events[0]));
      EventsThink(c, OnEvent(c, k, events[0]), events[1..]);
      AddAssociates(k.reasoning.value, LinesThought(c, Lines(events[0])), Thoughts(c, events[1..]));
    }
  }

  /** Over a whole stream the private buffer holds the reasoning sent, in order. */
  lemma ReasoningIsKept(c: Codec, k: Sink, chunks: seq<string>)
    requires k.reasoning == Some("")
    ensures FeedAll(c, "", k, chunks).1.reasoning == Some(Thoughts(c, Events(Join(chunks))))
  {
    hide Events, OnEvents, Thoughts, Join, FeedAll;
    FeedIsTheFraming(c, k, chunks);
    EventsThink(c, k, Events(Join(chunks)));
    var all := Thoughts(c, Events(Join(chunks)));
    assert "" + all == all;
  }

  /** The same object with another text where it held a text. */
  function Masked(j: Json, key: string, text: string): Json {
    if StrAt(j, key).Some? then Obj(j.fields[key := Str(text)]) else j
  }

  /** A parsed payload with another reasoning text. */
  function Retold(parsed: Json, text: string): Json {
    if ChoiceOf(parsed).None? || !Has(ChoiceOf(parsed).value, "delta") then parsed else
    var items := Field(parsed, "choices").items;
    var choice := items[0];
    var delta := Masked(Field(choice, "delta"), "reasoning_content", text);
    Obj(parsed.fields["choices" := Arr(items[0 := Obj(choice.fields["delta" := delta])])])
  }

  /** Equal but for the private reasoning. */
  predicate Alike(a: Sink, b: Sink) { a.(reasoning := None) == b.(reasoning := None) }

  lemma RetoldAlike(c: Codec, a: Sink, b: Sink, parsed: Json, text: string)
    requires Alike(a, b)
    ensures Alike(OnParsed(c, a, parsed), OnParsed(c, b, Retold(parsed, text)))
  {
    hide TakeAll, Read;
    var other := Retold(parsed, text);
    assert Has(other, "error") == Has(parsed, "error");
    if ChoiceOf(parsed).Some? && Has(ChoiceOf(parsed).value, "delta") {
      var choice := ChoiceOf(parsed).value;
      var choice' := Obj(choice.fields["delta" := Masked(Field(choice, "delta"), "reasoning_content", text)]);
      assert ChoiceOf(other) == Some(choice');
      assert other.fields["choices"] != parsed.fields["choices"] || other == parsed;
      if !Has(parsed, "error") { ChoiceAlike(c, a, b, choice, choice', text); }
    } else {
      if !Has(parsed, "error") && ChoiceOf(parsed).Some? {
        ChoiceAlike(c, a, b, ChoiceOf(parsed).value, ChoiceOf(parsed).value, text);
      }
    }
  }

  lemma ChoiceAlike(c: Codec, a: Sink, b: Sink, x: Json, y: Json, text: string)
    requires Alike(a, b)
    requires y == if !Has(x, "delta") then x
                  else Obj(x.fields["delta" := Masked(Field(x, "delta"), "reasoning_content", text)])
    ensures Alike(OnChoice(c, a, x), OnChoice(c, b, y))
  {
    hide TakeAll, Read;
    assert StrAt(x, "finish_reason") == StrAt(y, "finish_reason");
    var d, e := DeltaOf(x), DeltaOf(y);
    assert StrAt(d, "content") == StrAt(e, "content");
    assert Has(d, "content") == Has(e, "content") && Has(d, "reasoning_content") == Has(e, "reasoning_content");
    assert DeltasIn(c, d) == DeltasIn(c, e);
    assert Has(x, "message") == Has(y, "message") && (Has(x, "message") ==> Field(x, "message") == Field(y, "message"));
    assert forall noSlots: bool :: CallsIn(c, noSlots, x) == CallsIn(c, noSlots, y);
  }

  /** Two lines that differ at most in what their reasoning says, or carry nothing that parses. */
  ghost predicate PairedLines(c: Codec, x: string, y: string) {
    && (Payload(x) == Some("[DONE]") <==> Payload(y) == Some("[DONE]"))
    && match ParsedIn(c, x)
       case None => ParsedIn(c, y) == None
       case Some(j) => exists text: string :: ParsedIn(c, y) == Some(Retold(j, text))
  }

  ghost predicate Paired(c: Codec, xs: seq<string>, ys: seq<string>) {
    |xs| == |ys| && forall i :: 0 <= i < |xs| ==> PairedLines(c, xs[i], ys[i])
  }

  /** Two lists of events that pair up line by line; each reasoning text has its own replacement. */
  ghost predicate PairedEvents(c: Codec, es: seq<string>, fs: seq<string>) {
    |es| == |fs| && forall i :: 0 <= i < |es| ==> Paired(c, Lines(es[i]), Lines(fs[i]))
  }

  lemma LineAlike(c: Codec, a: Sink, b: Sink, x: string, y: string)
    requires PairedLines(c, x, y) && Alike(a, b)
    ensures Alike(OnLine(c, a, x), OnLine(c, b, y))
  {
    hide OnParsed, Retold, Payload, Alike;
    if ParsedIn(c, x).Some? {
      var j := ParsedIn(c, x).value;
      var text: string :| ParsedIn(c, y) == Some(Retold(j, text));
      RetoldAlike(c, a, b, j, text);
    }
  }

  lemma {:induction false} LinesAlike(c: Codec, a: Sink, b: Sink, xs: seq<string>, ys: seq<string>)
    requires Paired(c, xs, ys) && Alike(a, b)
    ensures Alike(OnLines(c, a, xs), OnLines(c, b, ys))
    decreases |xs|
  {
    hide OnLine, Payload, Alike, ParsedIn;
    if xs != [] {
      assert PairedLines(c, xs[0], ys[0]);
      if Payload(xs[0]) != Some("[DONE]") {
        LineAlike(c, a, b, xs[0], ys[0]);
        PairedTail(c, xs, ys);
        LinesAlike(c, OnLine(c, a, xs[0]), OnLine(c, b, ys[0]), xs[1..], ys[1..]);
      }
    }
  }

  lemma PairedTail(c: Codec, xs: seq<string>, ys: seq<string>)
    requires Paired(c, xs, ys) && xs != []
    ensures Paired(c, xs[1..], ys[1..])
  {
    hide PairedLines;
    forall i | 0 <= i < |xs[1..]| ensures PairedLines(c, xs[1..][i], ys[1..][i]) {
      assert PairedLines(c, xs[i + 1], ys[i + 1]);
    }
  }

  lemma {:induction false} EventsAlike(c: Codec, a: Sink, b: Sink, es: seq<string>, fs: seq<string>)
    requires PairedEvents(c, es, fs) && Alike(a, b)
    ensures Alike(OnEvents(c, a, es), OnEvents(c, b, fs))
    decreases |es|
  {
    hide OnLines, Alike, Paired;
    if es != [] {
      LinesAlike(c, a, b, Lines(es[0]), Lines(fs[0]));
      forall i | 0 <= i < |es[1..]| ensures Paired(c, Lines(es[1..][i]), Lines(fs[1..][i])) {
        assert es[1..][i] == es[i + 1] && fs[1..][i] == fs[i + 1];
      }
      EventsAlike(c, OnEvent(c, a, es[0]), OnEvent(c, b, fs[0]), es[1..], fs[1..]);
    }
  }

  /**
   Reasoning stays private. Two streams of bytes, each split in any way, whose events pair up line by
   line with any reasoning texts replaced, leave the same assembled and spoken text, the same tool
   slots and the same callbacks.
   */
  lemma ReasoningStaysPrivate(c: Codec, k: Sink, chunks: seq<string>, others: seq<string>)
    requires PairedEvents(c, Events(Join(chunks)), Events(Join(others)))
    ensures Alike(FeedAll(c, "", k, chunks).1, FeedAll(c, "", k, others).1)
  {
    hide Events, OnEvents, PairedEvents, Rest;
    FeedIsTheFraming(c, k, chunks);
    FeedIsTheFraming(c, k, others);
    EventsAlike(c, k, k, Events(Join(chunks)), Events(Join(others)));
  }

  /** The same for streams given by their events, as a server writes them. */
  lemma WrittenReasoningStaysPrivate(c: Codec, k: Sink, es: seq<string>, fs: seq<string>, chunks: seq<string>,
                                     others: seq<string>)
    requires PairedEvents(c, es, fs)
    requires forall e :: e in es + fs ==> Frameable(e)
    requires Join(chunks) == Wire(es) && Join(others) == Wire(fs)
    ensures var (rest, end) := FeedAll(c, "", k, chunks);
            var (rest', end') := FeedAll(c, "", k, others);
            rest == rest' == "" && Alike(end, end')
  {
    hide Events, PairedEvents, Frameable, Wire, Rest, FeedAll, OnEvents, Alike;
    forall e | e in es || e in fs ensures Frameable(e) { assert e in es + fs; }
    EmptyHasNone();
    FramingIsEvents(es, "");
    FramingIsEvents(fs, "");
    assert Wire(es) + "" == Wire(es) && Wire(fs) + "" == Wire(fs);
    FeedIsTheFraming(c, k, chunks);
    FeedIsTheFraming(c, k, others);
    ReasoningStaysPrivate(c, k, chunks, others);
  }
}
