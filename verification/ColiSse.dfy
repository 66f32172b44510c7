/**
 The incremental event-stream reader of coli_sse.h. Bytes arrive in pieces; an event ends at an
 empty line made of two line feeds; the `data: ` lines of an event carry JSON.
 */
module ColiSse {
  import opened Text
  import opened ToolCalls

  datatype Callback = Token(text: string) | Ping | Finish(reason: string)

  /** Everything the reader writes: two texts, optional private reasoning, optional slots, and the callbacks made. */
  datatype Sink = Sink(
    assembled: string, spoken: Option<string>, reasoning: Option<string>, tools: Option<seq<Slot>>, log: seq<Callback>)

  const SEPARATOR := "\n\n"

  // ----- one event

  /** The text of an `error` value, or None where reading it throws. */
  function ErrorText(error: Json): Option<string> {
    match error
    case Str(s) => Some(s)
    case Obj(_) =>
      if !Has(error, "message") then Some("Backend generation failed.")
      else StrAt(error, "message")
    case _ => None
  }

  /** The first element of a non-empty `choices` array. */
  function ChoiceOf(parsed: Json): Option<Json> {
    if Has(parsed, "choices") && Field(parsed, "choices").Arr? && Field(parsed, "choices").items != []
    then Some(Field(parsed, "choices").items[0]) else None
  }

  function DeltaOf(choice: Json): Json { if Has(choice, "delta") then Field(choice, "delta") else Obj(map[]) }

  /** The tool-call deltas of a choice: those of `message` only while there is no slot at all. */
  function CallsIn(c: Codec, noSlots: bool, choice: Json): seq<Delta> {
    var ds := DeltasIn(c, DeltaOf(choice));
    if ds == [] && noSlots && Has(choice, "message") && Field(choice, "message").Obj?
    then DeltasIn(c, Field(choice, "message")) else ds
  }

  function OnChoice(c: Codec, k: Sink, choice: Json): Sink {
    var finish := StrAt(choice, "finish_reason");
    var k := if finish.Some? && finish.value != "" then k.(log := k.log + [Finish(finish.value)]) else k;
    if !choice.Obj? then k else
    var delta := DeltaOf(choice);
    var token := Or(StrAt(delta, "content"), "");
    var thought := Or(StrAt(delta, "reasoning_content"), "");
    var k := k.(reasoning := if k.reasoning.Some? then Some(k.reasoning.value + thought) else None,
                tools := if k.tools.None? then None
                         else Some(TakeAll(k.tools.value, CallsIn(c, k.tools.value == [], choice))));
    if token == "" then
      if Has(delta, "content") || Has(delta, "reasoning_content") then k.(log := k.log + [Ping]) else k
    else
      k.(assembled := k.assembled + token,
         spoken := if k.spoken.Some? then Some(k.spoken.value + token) else None,
         log := k.log + [Token(token)])
  }

  function OnParsed(c: Codec, k: Sink, parsed: Json): Sink {
    if Has(parsed, "error") then
      var text := ErrorText(Field(parsed, "error"));
      if text.Some? then k.(log := k.log + [Finish("error:" + text.value)]) else k
    else
      match ChoiceOf(parsed)
      case None => k
      case Some(choice) => OnChoice(c, k, choice)
  }

  function DropCr(line: string): string {
    if line != "" && line[|line| - 1] == '\r' then line[..|line| - 1] else line
  }

  /** What follows `data: ` on a line. */
  function Payload(line: string): Option<string> {
    var line := DropCr(line);
    if |line| >= 6 && line[..6] == "data: " then Some(line[6..]) else None
  }

  /** The JSON a line carries, if it is a data line and its payload parses. */
  function ParsedIn(c: Codec, line: string): Option<Json> {
    match Payload(line)
    case None => None
    case Some(payload) => c.parse(payload)
  }

  function OnLine(c: Codec, k: Sink, line: string): Sink {
    match ParsedIn(c, line)
    case None => k
    case Some(parsed) => OnParsed(c, k, parsed)
  }

  /** The lines std::getline reads: no line follows a final line feed. */
  function Lines(text: string): seq<string>
    decreases |text|
  {
    if text == "" then [] else
    var at := Find(text, "\n", 0);
    if at == -1 then [text] else [text[..at]] + Lines(text[at + 1..])
  }

  /** `[DONE]` ends its event, whatever lines follow. */
  function OnLines(c: Codec, k: Sink, lines: seq<string>): Sink
    decreases |lines|
  {
    if lines == [] || Payload(lines[0]) == Some("[DONE]") then k
    else OnLines(c, OnLine(c, k, lines[0]), lines[1..])
  }

  function OnEvent(c: Codec, k: Sink, event: string): Sink { OnLines(c, k, Lines(event)) }

  function OnEvents(c: Codec, k: Sink, events: seq<string>): Sink
    decreases |events|
  {
    if events == [] then k else OnEvents(c, OnEvent(c, k, events[0]), events[1..])
  }

  // ----- the stream

  /** The buffer's complete events are handled in order; the rest stays. */
  function Drain(c: Codec, buf: string, k: Sink): (string, Sink)
    decreases |buf|
  {
    var pos := Find(buf, SEPARATOR, 0);
    if pos == -1 then (buf, k) else Drain(c, buf[pos + 2..], OnEvent(c, k, buf[..pos]))
  }

  function FeedAll(c: Codec, buf: string, k: Sink, chunks: seq<string>): (string, Sink)
    decreases |chunks|
  {
    if chunks == [] then (buf, k) else
    var (rest, next) := Drain(c, buf + chunks[0], k);
    FeedAll(c, rest, next, chunks[1..])
  }

  class Stream {
    const c: Codec
    var buf: string
    var assembled: string
    var spoken: Option<string>
    var reasoning: Option<string>
    var tools: Option<seq<Slot>>
    var log: seq<Callback>

    constructor (c: Codec, spoken: bool, reasoning: bool, tools: bool)
      ensures this.c == c && buf == ""
      ensures Value() == Sink("", if spoken then Some("") else None, if reasoning then Some("") else None,
                              if tools then Some([]) else None, [])
    {
      this.c := c;
      buf, assembled, log := "", "", [];
      this.spoken := if spoken then Some("") else None;
      this.reasoning := if reasoning then Some("") else None;
      this.tools := if tools then Some([]) else None;
    }

    function Value(): Sink
      reads this
    {
      Sink(assembled, spoken, reasoning, tools, log)
    }

    /** handle_sse_event from the parsed payload on; a JSON exception leaves the rest of the line undone. */
    method HandleParsed(parsed: Json)
      modifies this
      ensures Value() == OnParsed(c, old(Value()), parsed) && buf == old(buf)
    {
      hide TakeAll, DeltasIn;
      if Has(parsed, "error") {
        var text := ErrorText(Field(parsed, "error"));
        if text.Some? { log := log + [Finish("error:" + text.value)]; }
        return;
      }
      var choice := ChoiceOf(parsed);
      if choice.Some? { HandleChoice(choice.value); }
    }

    method HandleChoice(choice: Json)
      modifies this
      ensures Value() == OnChoice(c, old(Value()), choice) && buf == old(buf)
    {
      hide TakeAll, CallsIn, DeltasIn;
      var finish := StrAt(choice, "finish_reason");
      if finish.Some? && finish.value != "" { log := log + [Finish(finish.value)]; }
      if !choice.Obj? { return; }
      var delta := DeltaOf(choice);
      var token := "";
      if StrAt(delta, "content").Some? { token := StrAt(delta, "content").value; }
      assert reasoning.Some? ==> reasoning.value + "" == reasoning.value;
      if reasoning.Some? && StrAt(delta, "reasoning_content").Some? {
        reasoning := Some(reasoning.value + StrAt(delta, "reasoning_content").value);
      }
      HandleCalls(choice, delta);
      if token == "" && !Has(delta, "content") && !Has(delta, "reasoning_content") { return; }
      if token == "" {
        log := log + [Ping];
      } else {
        assembled := assembled + token;
        if spoken.Some? { spoken := Some(spoken.value + token); }
        log := log + [Token(token)];
      }
    }

    method HandleCalls(choice: Json, delta: Json)
      requires choice.Obj? && delta == DeltaOf(choice)
      modifies this`tools
      ensures tools == if old(tools).None? then None
                       else Some(TakeAll(old(tools).value, CallsIn(c, old(tools).value == [], choice)))
    {
      hide DeltasIn, TakeAll;
      if tools.None? { return; }
      TakeAllEmpty(tools.value, DeltasIn(c, delta));
      var slots := Accumulate(c, tools.value, delta);
      if Has(choice, "message") && Field(choice, "message").Obj? && slots == [] {
        slots := Accumulate(c, slots, Field(choice, "message"));
      }
      tools := Some(slots);
    }

    /** handle_sse_event. */
    method HandleEvent(event: string)
      modifies this
      ensures Value() == OnEvent(c, old(Value()), event) && buf == old(buf)
    {
      hide OnParsed, Payload, Find;
      var rest := event;
      while rest != ""
        invariant OnLines(c, Value(), Lines(rest)) == OnEvent(c, old(Value()), event)
        invariant buf == old(buf)
        decreases |rest|
      {
        var at := Find(rest, "\n", 0);
        var line := if at == -1 then rest else rest[..at];
        rest := if at == -1 then "" else rest[at + 1..];
        var payload := Payload(line);
        if payload == Some("[DONE]") { return; }
        if payload.Some? {
          var parsed := c.parse(payload.value);
          if parsed.Some? { HandleParsed(parsed.value); }
        }
      }
    }

    /** feed_sse. */
    method Feed(data: string)
      modifies this
      ensures (buf, Value()) == Drain(c, old(buf) + data, old(Value()))
    {
      hide OnEvent, Find;
      buf := buf + data;
      while true
        invariant Drain(c, buf, Value()) == Drain(c, old(buf) + data, old(Value()))
        decreases |buf|
      {
        var pos := Find(buf, SEPARATOR, 0);
        if pos == -1 { break; }
        var event := buf[..pos];
        buf := buf[pos + 2..];
        HandleEvent(event);
      }
    }
  }

  // ----- any split gives the same result

  /** Draining a prefix first, and the rest behind what it leaves, is draining the whole. */
  lemma {:induction false} DrainPrefix(c: Codec, x: string, y: string, k: Sink)
    ensures var (rest, next) := Drain(c, x, k); Drain(c, x + y, k) == Drain(c, rest + y, next)
    decreases |x|
  {
    hide IsAt, Find, OnEvent;
    var pos := Find(x, SEPARATOR, 0);
    if pos != -1 {
      forall i | 0 <= i <= pos ensures IsAt(x + y, SEPARATOR, i) == IsAt(x, SEPARATOR, i) {
        AtPrefix(x, y, SEPARATOR, i);
      }
      FindIs(x + y, SEPARATOR, 0, pos);
      assert (x + y)[..pos] == x[..pos] && (x + y)[pos + 2..] == x[pos + 2..] + y;
      DrainPrefix(c, x[pos + 2..], y, OnEvent(c, k, x[..pos]));
    }
  }

  /** What a drain leaves holds no separator, so draining it again does nothing. */
  lemma {:induction false} DrainLeaves(c: Codec, buf: string, k: Sink)
    ensures !Contains(Drain(c, buf, k).0, SEPARATOR)
    decreases |buf|
  {
    hide OnEvent;
    var pos := Find(buf, SEPARATOR, 0);
    if pos != -1 { DrainLeaves(c, buf[pos + 2..], OnEvent(c, k, buf[..pos])); }
  }

  /** Any split of the bytes leaves the same buffer and the same sink as feeding them whole. */
  lemma {:induction false} SplitIsFree(c: Codec, buf: string, k: Sink, chunks: seq<string>)
    requires !Contains(buf, SEPARATOR)
    ensures FeedAll(c, buf, k, chunks) == Drain(c, buf + Join(chunks), k)
    decreases |chunks|
  {
    hide Find, Contains, Drain, IsAt;
    if chunks == [] {
      assert buf + "" == buf;
      NothingToDrain(c, buf, k);
    } else {
      var (rest, next) := Drain(c, buf + chunks[0], k);
      DrainLeaves(c, buf + chunks[0], k);
      SplitIsFree(c, rest, next, chunks[1..]);
      DrainPrefix(c, buf + chunks[0], Join(chunks[1..]), k);
      assert buf + chunks[0] + Join(chunks[1..]) == buf + Join(chunks);
    }
  }

  lemma NothingToDrain(c: Codec, buf: string, k: Sink)
    requires !Contains(buf, SEPARATOR)
    ensures Drain(c, buf, k) == (buf, k)
  {
    hide IsAt, Find, Contains, OnEvent;
    NotFound(buf);
  }

  // ----- what the bytes mean: framing

  /** Each event followed by a blank line. */
  function Wire(events: seq<string>): string
    decreases |events|
  {
    if events == [] then "" else events[0] + SEPARATOR + Wire(events[1..])
  }

  /** An event body that cannot be mistaken for two: no blank line in it and no line feed at its end. */
  ghost predicate Frameable(event: string) { !Contains(event + "\n", SEPARATOR) }

  ghost predicate Framed(events: seq<string>, rest: string, text: string) {
    text == Wire(events) + rest && !Contains(rest, SEPARATOR) && forall e :: e in events ==> Frameable(e)
  }

  lemma EventFound(event: string, tail: string)
    requires Frameable(event)
    ensures Find(event + SEPARATOR + tail, SEPARATOR, 0) == |event|
  {
    var s := event + SEPARATOR + tail;
    assert s == (event + "\n") + ("\n" + tail);
    assert s[|event|..|event| + 2] == SEPARATOR;
    assert IsAt(s, SEPARATOR, |event|);
    hide IsAt;
    forall i | 0 <= i < |event| ensures !IsAt(s, SEPARATOR, i) {
      AtPrefix(event + "\n", "\n" + tail, SEPARATOR, i);
    }
    FindIs(s, SEPARATOR, 0, |event|);
  }

  /** Reading back: framed events are handled exactly once each, in order, and the rest is left over. */
  lemma {:induction false} FramedReadsBack(c: Codec, k: Sink, events: seq<string>, rest: string)
    requires !Contains(rest, SEPARATOR) && forall e :: e in events ==> Frameable(e)
    ensures Drain(c, Wire(events) + rest, k) == (rest, OnEvents(c, k, events))
    decreases |events|
  {
    hide OnEvent, Frameable, Find, Contains;
    if events == [] {
      assert "" + rest == rest;
      assert Find(rest, SEPARATOR, 0) == -1 by { NotFound(rest); }
    } else {
      var s := Wire(events) + rest;
      var tail := Wire(events[1..]) + rest;
      assert s == events[0] + SEPARATOR + tail;
      EventFound(events[0], tail);
      assert s[|events[0]| + 2..] == tail;
      assert s[..|events[0]|] == events[0];
      FramedReadsBack(c, OnEvent(c, k, events[0]), events[1..], rest);
    }
  }

  lemma NotFound(s: string)
    ensures Find(s, SEPARATOR, 0) == -1 <==> !Contains(s, SEPARATOR)
  {}

  /** Every text has exactly one framing. */
  function Events(text: string): seq<string>
    decreases |text|
  {
    var pos := Find(text, SEPARATOR, 0);
    if pos == -1 then [] else [text[..pos]] + Events(text[pos + 2..])
  }

  function Rest(text: string): string
    decreases |text|
  {
    var pos := Find(text, SEPARATOR, 0);
    if pos == -1 then text else Rest(text[pos + 2..])
  }

  lemma WireFirst(event: string, more: seq<string>)
    ensures Wire([event] + more) == event + SEPARATOR + Wire(more)
  {
    assert ([event] + more)[1..] == more;
  }

  lemma {:induction false} TextIsFramed(text: string)
    ensures Framed(Events(text), Rest(text), text)
    decreases |text|
  {
    var pos := Find(text, SEPARATOR, 0);
    assert Wire([]) + text == text;
    assert pos != -1 ==> text == text[..pos] + SEPARATOR + text[pos + 2..];
    hide IsAt, Find, Contains, Frameable, Wire;
    NotFound(text);
    if pos != -1 {
      var event, tail := text[..pos], text[pos + 2..];
      TextIsFramed(tail);
      FirstEventFrames(text, pos);
      WireFirst(event, Events(tail));
      AddAssociates(event + SEPARATOR, Wire(Events(tail)), Rest(tail));
    }
  }

  lemma FirstEventFrames(text: string, pos: nat)
    requires IsAt(text, SEPARATOR, pos) && forall i :: 0 <= i < pos ==> !IsAt(text, SEPARATOR, i)
    ensures Frameable(text[..pos])
  {
    var head := text[..pos] + "\n";
    assert head == text[..pos + 1] by { CharAt(text, SEPARATOR, pos, 0); }
    forall i ensures !IsAt(head, SEPARATOR, i) {
      if 0 <= i && i + 2 <= |head| { AtSlice(text, 0, pos + 1, SEPARATOR, i); }
    }
  }

  lemma FramingIsUnique(a: seq<string>, x: string, b: seq<string>, y: string, text: string)
    requires Framed(a, x, text) && Framed(b, y, text)
    ensures a == b && x == y
  {
    FramingIsEvents(a, x);
    FramingIsEvents(b, y);
  }

  lemma {:induction false} FramingIsEvents(events: seq<string>, rest: string)
    requires !Contains(rest, SEPARATOR) && forall e :: e in events ==> Frameable(e)
    ensures Events(Wire(events) + rest) == events && Rest(Wire(events) + rest) == rest
    decreases |events|
  {
    hide Frameable, Find, Contains;
    if events == [] {
      assert "" + rest == rest;
      NotFound(rest);
    } else {
      var s := Wire(events) + rest;
      var tail := Wire(events[1..]) + rest;
      assert s == events[0] + SEPARATOR + tail;
      EventFound(events[0], tail);
      assert s[|events[0]| + 2..] == tail && s[..|events[0]|] == events[0];
      FramingIsEvents(events[1..], rest);
    }
  }

  lemma EmptyHasNone()
    ensures !Contains("", SEPARATOR)
  {}

  /** However the bytes are split, the events handled are those the text frames, and the rest is what is buffered. */
  lemma FeedIsTheFraming(c: Codec, k: Sink, chunks: seq<string>)
    ensures FeedAll(c, "", k, chunks) == (Rest(Join(chunks)), OnEvents(c, k, Events(Join(chunks))))
    ensures !Contains(Rest(Join(chunks)), SEPARATOR)
  {
    hide Find, Contains, OnEvents, Frameable;
    EmptyHasNone();
    SplitIsFree(c, "", k, chunks);
    assert "" + Join(chunks) == Join(chunks);
    TextIsFramed(Join(chunks));
    FramedReadsBack(c, k, Events(Join(chunks)), Rest(Join(chunks)));
  }

  predicate BreaksAreCrLf(text: string) {
    forall i :: 0 < i < |text| && text[i] == '\n' ==> text[i - 1] == '\r'
  }

  /** Narrower than the standard: a stream whose line ends are CR LF is only ever buffered. */
  lemma CrLfNeverDispatches(c: Codec, k: Sink, chunks: seq<string>)
    requires BreaksAreCrLf(Join(chunks))
    ensures FeedAll(c, "", k, chunks) == (Join(chunks), k)
  {
    var text := Join(chunks);
    forall i ensures !IsAt(text, SEPARATOR, i) {
      if 0 <= i && i + 2 <= |text| {
        assert text[i + 1] == '\n' ==> text[i] == '\r';
        assert text[i..i + 2] == [text[i], text[i + 1]];
      }
    }
    EmptyHasNone();
    hide IsAt, Drain;
    SplitIsFree(c, "", k, chunks);
    assert "" + text == text;
    NothingToDrain(c, text, k);
  }

  // ----- what the sink holds: texts

  /** The token pieces among the callbacks. */
  function Tokens(log: seq<Callback>): seq<string>
    decreases |log|
  {
    if log == [] then [] else (if log[0].Token? then [log[0].text] else []) + Tokens(log[1..])
  }

  /** The log grew by these callbacks, and both texts by exactly their tokens, none of them empty. */
  predicate GrewBy(a: Sink, b: Sink, added: seq<Callback>) {
    && b.log == a.log + added
    && "" !in Tokens(added)
    && b.assembled == a.assembled + Join(Tokens(added))
    && b.spoken == if a.spoken.Some? then Some(a.spoken.value + Join(Tokens(added))) else None
  }

  ghost predicate Grew(a: Sink, b: Sink) { exists added :: GrewBy(a, b, added) }

  lemma {:induction false} TokensAppend(a: seq<Callback>, b: seq<Callback>)
    ensures Tokens(a + b) == Tokens(a) + Tokens(b)
    decreases |a|
  {
    if a == [] {
      assert a + b == b;
    } else {
      TokensAppend(a[1..], b);
      assert (a + b)[1..] == a[1..] + b;
    }
  }

  lemma GrewNothing(k: Sink)
    ensures Grew(k, k)
  {
    assert k.assembled + "" == k.assembled;
    assert k.spoken.Some? ==> k.spoken.value + "" == k.spoken.value;
    assert GrewBy(k, k, []);
  }

  lemma ChainTexts(t: string, x: seq<Callback>, y: seq<Callback>)
    ensures t + Join(Tokens(x)) + Join(Tokens(y)) == t + Join(Tokens(x + y))
    ensures "" in Tokens(x + y) ==> "" in Tokens(x) || "" in Tokens(y)
  {
    TokensAppend(x, y);
    JoinAppend(Tokens(x), Tokens(y));
    hide Tokens, Join;
    AddAssociates(t, Join(Tokens(x)), Join(Tokens(y)));
  }

  lemma GrewByChain(a: Sink, b: Sink, d: Sink, x: seq<Callback>, y: seq<Callback>)
    requires GrewBy(a, b, x) && GrewBy(b, d, y)
    ensures GrewBy(a, d, x + y)
  {
    hide Tokens, Join;
    ChainTexts(a.assembled, x, y);
    if a.spoken.Some? { ChainTexts(a.spoken.value, x, y); }
    assert d.log == a.log + (x + y);
  }

  lemma GrewChain(a: Sink, b: Sink, d: Sink)
    requires Grew(a, b) && Grew(b, d)
    ensures Grew(a, d)
  {
    hide GrewBy;
    var x :| GrewBy(a, b, x);
    var y :| GrewBy(b, d, y);
    GrewByChain(a, b, d, x, y);
  }

  /** One callback more; a token is the only one that adds text. */
  lemma GrewOne(a: Sink, b: Sink, cb: Callback)
    requires b.log == a.log + [cb]
    requires var text := if cb.Token? then cb.text else "";
             && b.assembled == a.assembled + text
             && b.spoken == (if a.spoken.Some? then Some(a.spoken.value + text) else None)
    requires cb != Token("")
    ensures Grew(a, b)
  {
    assert [cb][1..] == [];
    assert Tokens([cb]) == if cb.Token? then [cb.text] else [];
    assert cb.Token? ==> [cb.text][1..] == [] && Join([cb.text]) == cb.text + "" == cb.text;
    assert GrewBy(a, b, [cb]);
  }

  lemma ChoiceGrows(c: Codec, k: Sink, choice: Json)
    ensures Grew(k, OnChoice(c, k, choice))
  {
    hide Grew, CallsIn, TakeAll;
    assert k.assembled + "" == k.assembled;
    assert k.spoken.Some? ==> k.spoken.value + "" == k.spoken.value;
    var finish := StrAt(choice, "finish_reason");
    var k1 := if finish.Some? && finish.value != "" then k.(log := k.log + [Finish(finish.value)]) else k;
    GrewNothing(k);
    if k1 != k { GrewOne(k, k1, Finish(finish.value)); }
    if choice.Obj? {
      var end := OnChoice(c, k, choice);
      if end.log == k1.log {
        SameTextsGrew(k1, end);
      } else {
        GrewOne(k1, end, end.log[|k1.log|]);
      }
      GrewChain(k, k1, end);
    }
  }

  lemma SameTextsGrew(a: Sink, b: Sink)
    requires a.log == b.log && a.assembled == b.assembled && a.spoken == b.spoken
    ensures Grew(a, b)
  {
    GrewNothing(a);
    var none :| GrewBy(a, a, none);
    assert GrewBy(a, b, none);
  }

  lemma LineGrows(c: Codec, k: Sink, line: string)
    ensures Grew(k, OnLine(c, k, line))
  {
    hide Grew, OnChoice, Payload;
    GrewNothing(k);
    var parsed := ParsedIn(c, line);
    if parsed.Some? {
      if Has(parsed.value, "error") {
        var text := ErrorText(Field(parsed.value, "error"));
        if text.Some? {
          assert k.assembled + "" == k.assembled;
          assert k.spoken.Some? ==> k.spoken.value + "" == k.spoken.value;
          GrewOne(k, OnLine(c, k, line), Finish("error:" + text.value));
        }
      } else if ChoiceOf(parsed.value).Some? {
        ChoiceGrows(c, k, ChoiceOf(parsed.value).value);
      }
    }
  }

  lemma {:induction false} LinesGrow(c: Codec, k: Sink, lines: seq<string>)
    ensures Grew(k, OnLines(c, k, lines))
    decreases |lines|
  {
    hide Grew, OnLine, Payload;
    GrewNothing(k);
    if !(lines == [] || Payload(lines[0]) == Some("[DONE]")) {
      LineGrows(c, k, lines[0]);
      LinesGrow(c, OnLine(c, k, lines[0]), lines[1..]);
      GrewChain(k, OnLine(c, k, lines[0]), OnLines(c, k, lines));
    }
  }

  lemma {:induction false} EventsGrow(c: Codec, k: Sink, events: seq<string>)
    ensures Grew(k, OnEvents(c, k, events))
    decreases |events|
  {
    hide Grew, OnLines;
    GrewNothing(k);
    if events != [] {
      LinesGrow(c, k, Lines(events[0]));
      EventsGrow(c, OnEvent(c, k, events[0]), events[1..]);
      GrewChain(k, OnEvent(c, k, events[0]), OnEvents(c, k, events));
    }
  }

  /** Over a whole stream, however split, the assembled and the spoken text are exactly the tokens handed on. */
  lemma TextsAreTokens(c: Codec, k: Sink, chunks: seq<string>)
    requires k.assembled == "" && k.log == [] && k.spoken == Some("")
    ensures var (_, end) := FeedAll(c, "", k, chunks);
            && end.assembled == Join(Tokens(end.log)) && end.spoken == Some(end.assembled)
  {
    hide Events, OnEvents;
    FeedIsTheFraming(c, k, chunks);
    var end := OnEvents(c, k, Events(Join(chunks)));
    EventsGrow(c, k, Events(Join(chunks)));
    var added :| GrewBy(k, end, added);
    assert [] + added == added;
    assert "" + Join(Tokens(added)) == Join(Tokens(added));
  }

  // ----- what the sink holds: tool calls

  /** The deltas a line brings, given whether there is no slot yet. */
  function LineCalls(c: Codec, noSlots: bool, line: string): seq<Delta> {
    match ParsedIn(c, line)
    case None => []
    case Some(parsed) =>
      if Has(parsed, "error") || ChoiceOf(parsed).None? || !ChoiceOf(parsed).value.Obj? then []
      else CallsIn(c, noSlots, ChoiceOf(parsed).value)
  }

  function LinesCalls(c: Codec, noSlots: bool, lines: seq<string>): seq<Delta>
    decreases |lines|
  {
    if lines == [] || Payload(lines[0]) == Some("[DONE]") then [] else
    var ds := LineCalls(c, noSlots, lines[0]);
    ds + LinesCalls(c, noSlots && ds == [], lines[1..])
  }

  /** All the deltas of a list of events, in order. */
  function Calls(c: Codec, noSlots: bool, events: seq<string>): seq<Delta>
    decreases |events|
  {
    if events == [] then [] else
    var ds := LinesCalls(c, noSlots, Lines(events[0]));
    ds + Calls(c, noSlots && ds == [], events[1..])
  }

  lemma LineTakes(c: Codec, k: Sink, line: string)
    requires k.tools.Some?
    ensures OnLine(c, k, line).tools == Some(TakeAll(k.tools.value, LineCalls(c, k.tools.value == [], line)))
  {
    hide CallsIn, Payload;
  }

  lemma {:induction false} LinesTake(c: Codec, k: Sink, lines: seq<string>)
    requires k.tools.Some?
    ensures OnLines(c, k, lines).tools == Some(TakeAll(k.tools.value, LinesCalls(c, k.tools.value == [], lines)))
    decreases |lines|
  {
    hide OnLine, LineCalls, Payload;
    if !(lines == [] || Payload(lines[0]) == Some("[DONE]")) {
      var slots := k.tools.value;
      var ds := LineCalls(c, slots == [], lines[0]);
      LineTakes(c, k, lines[0]);
      TakeAllEmpty(slots, ds);
      LinesTake(c, OnLine(c, k, lines[0]), lines[1..]);
      TakeAppend(slots, ds, LinesCalls(c, slots == [] && ds == [], lines[1..]));
    }
  }

  lemma {:induction false} EventsTake(c: Codec, k: Sink, events: seq<string>)
    requires k.tools.Some?
    ensures OnEvents(c, k, events).tools == Some(TakeAll(k.tools.value, Calls(c, k.tools.value == [], events)))
    decreases |events|
  {
    hide OnLines, LinesCalls;
    if events != [] {
      var slots := k.tools.value;
      var ds := LinesCalls(c, slots == [], Lines(events[0]));
      LinesTake(c, k, Lines(events[0]));
      TakeAllEmpty(slots, ds);
      EventsTake(c, OnEvent(c, k, events[0]), events[1..]);
      TakeAppend(slots, ds, Calls(c, slots == [] && ds == [], events[1..]));
    }
  }

  /**
   Over a whole stream, however split: as many slots as the largest index asks for, and each
   slot's arguments are the fragments sent for that index, in order.
   */
  lemma SlotsOfStream(c: Codec, k: Sink, chunks: seq<string>)
    requires k.tools == Some([])
    requires forall d :: d in Calls(c, true, Events(Join(chunks))) ==> !d.args.Replace?
    ensures var ds := Calls(c, true, Events(Join(chunks)));
            var tools := FeedAll(c, "", k, chunks).1.tools;
            && tools.Some? && |tools.value| == Width(ds)
            && forall i: nat :: i < |tools.value| ==> tools.value[i].args == Join(Fragments(Of(ds, i)))
  {
    hide Events, OnEvents, Calls;
    FeedIsTheFraming(c, k, chunks);
    EventsTake(c, k, Events(Join(chunks)));
    ArgumentsAreFragments(Calls(c, true, Events(Join(chunks))));
  }
}
