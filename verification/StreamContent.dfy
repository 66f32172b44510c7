/** What the reader of coli_sse.h makes of a stream, said in terms of the JSON on its lines alone. */
module StreamContent {
  import opened Text
  import opened ToolCalls
  import opened ColiSse

  // ----- lines

  /** Each line with its line feed. */
  function Unlines(lines: seq<string>): string
    decreases |lines|
  {
    if lines == [] then "" else lines[0] + "\n" + Unlines(lines[1..])
  }

  /** The lines of a text hold no line feed, and with one after each they are the text, closed by one if it was not. */
  lemma {:induction false} LinesAre(text: string)
    ensures forall line :: line in Lines(text) ==> '\n' !in line
    ensures Unlines(Lines(text)) == if text == "" || text[|text| - 1] == '\n' then text else text + "\n"
    decreases |text|
  {
    if text != "" {
      var at := Find(text, "\n", 0);
      if at == -1 {
        OneLineLeft(text);
        assert text + "\n" + "" == text + "\n";
        assert Unlines([text][1..]) == "";
      } else {
        var rest := text[at + 1..];
        LinesAre(rest);
        NoFeedBefore(text, at);
        assert text == text[..at] + "\n" + rest;
        var lines := Lines(text);
        assert lines == [text[..at]] + Lines(rest) && lines[1..] == Lines(rest);
      }
    }
  }

  lemma OneLineLeft(text: string)
    requires Find(text, "\n", 0) == -1
    ensures '\n' !in text
  {
    if i :| 0 <= i < |text| && text[i] == '\n' { assert IsAt(text, "\n", i); }
  }

  lemma NoFeedBefore(text: string, at: nat)
    requires Find(text, "\n", 0) == at
    ensures at < |text| && text[at] == '\n' && '\n' !in text[..at]
  {
    assert IsAt(text, "\n", at);
    forall i | 0 <= i < at ensures text[i] != '\n' {
      assert !IsAt(text, "\n", i) && text[i..i + 1] == [text[i]];
    }
  }

  /** A data line is `data: ` and a payload, and one carriage return at the end does not belong to it. */
  lemma PayloadIff(line: string, payload: string)
    ensures Payload(line) == Some(payload) <==>
            || line == "data: " + payload + "\r"
            || (line == "data: " + payload && (payload == "" || payload[|payload| - 1] != '\r'))
  {
    var plain := "data: " + payload;
    if line == plain + "\r" { assert DropCr(line) == plain; }
    if Payload(line) == Some(payload) {
      var kept := DropCr(line);
      assert kept == kept[..6] + kept[6..] == plain;
      if kept != line { assert line == kept + [line[|line| - 1]]; }
    }
  }

  // ----- what a line says

  predicate HasChoice(parsed: Json) {
    Has(parsed, "choices") && Field(parsed, "choices").Arr? && Field(parsed, "choices").items != []
  }

  /** The text of a choice's delta. */
  function ChoiceText(choice: Json): string {
    if Has(choice, "delta") then Or(StrAt(Field(choice, "delta"), "content"), "") else ""
  }

  /** The reason a choice finishes for, then its text, or a ping where a text or a thought is there but no text. */
  function ChoiceSaid(choice: Json): seq<Callback> {
    var reason := Or(StrAt(choice, "finish_reason"), "");
    (if reason != "" then [Finish(reason)] else [])
    + (if ChoiceText(choice) != "" then [Token(ChoiceText(choice))]
       else if Has(choice, "delta")
               && (Has(Field(choice, "delta"), "content") || Has(Field(choice, "delta"), "reasoning_content"))
       then [Ping] else [])
  }

  /** An error as it is reported; one whose message is no text is not. */
  function ErrorSaid(error: Json): seq<Callback> {
    if error.Str? then [Finish("error:" + error.s)]
    else if !error.Obj? then []
    else if !Has(error, "message") then [Finish("error:Backend generation failed.")]
    else if StrAt(error, "message").Some? then [Finish("error:" + StrAt(error, "message").value)]
    else []
  }

  /** The text on a line: that of its first choice, if it is no error. */
  function LineText(c: Codec, line: string): string {
    match ParsedIn(c, line)
    case None => ""
    case Some(parsed) =>
      if Has(parsed, "error") || !HasChoice(parsed) then "" else ChoiceText(Field(parsed, "choices").items[0])
  }

  /** The callbacks of a line: its error, or what its first choice says. */
  function LineSaid(c: Codec, line: string): seq<Callback> {
    match ParsedIn(c, line)
    case None => []
    case Some(parsed) =>
      if Has(parsed, "error") then ErrorSaid(Field(parsed, "error"))
      else if !HasChoice(parsed) then []
      else ChoiceSaid(Field(parsed, "choices").items[0])
  }

  /** The lines of an event up to `[DONE]`. */
  function Live(lines: seq<string>): seq<string>
    decreases |lines|
  {
    if lines == [] || Payload(lines[0]) == Some("[DONE]") then [] else [lines[0]] + Live(lines[1..])
  }

  /** All the lines of a stream that are looked at, in order. */
  function LiveLines(events: seq<string>): seq<string>
    decreases |events|
  {
    if events == [] then [] else Live(Lines(events[0])) + LiveLines(events[1..])
  }

  function Texts(c: Codec, lines: seq<string>): string
    decreases |lines|
  {
    if lines == [] then "" else LineText(c, lines[0]) + Texts(c, lines[1..])
  }

  function Said(c: Codec, lines: seq<string>): seq<Callback>
    decreases |lines|
  {
    if lines == [] then [] else LineSaid(c, lines[0]) + Said(c, lines[1..])
  }

  /** The texts and the log grew by this. */
  predicate Heard(a: Sink, b: Sink, text: string, said: seq<Callback>) {
    && b.log == a.log + said
    && b.assembled == a.assembled + text
    && b.spoken == if a.spoken.Some? then Some(a.spoken.value + text) else None
  }

  lemma HeardNothing(k: Sink)
    ensures Heard(k, k, "", [])
  {
    assert k.assembled + "" == k.assembled && k.log + [] == k.log;
    assert k.spoken.Some? ==> k.spoken.value + "" == k.spoken.value;
  }

  lemma HeardChain(a: Sink, b: Sink, d: Sink, x: string, y: string, xs: seq<Callback>, ys: seq<Callback>)
    requires Heard(a, b, x, xs) && Heard(b, d, y, ys)
    ensures Heard(a, d, x + y, xs + ys)
  {
    AddAssociates(a.assembled, x, y);
    if a.spoken.Some? { AddAssociates(a.spoken.value, x, y); }
    assert a.log + xs + ys == a.log + (xs + ys);
  }

  lemma ChoiceHeard(c: Codec, k: Sink, choice: Json)
    ensures Heard(k, OnChoice(c, k, choice), ChoiceText(choice), ChoiceSaid(choice))
  {
    hide CallsIn, TakeAll;
    HeardNothing(k);
    var reason := Or(StrAt(choice, "finish_reason"), "");
    var first := if reason != "" then [Finish(reason)] else [];
    var k1 := if reason != "" then k.(log := k.log + first) else k;
    assert Heard(k, k1, "", first);
    var end, after := OnChoice(c, k, choice), ChoiceSaid(choice)[|first|..];
    HeardNothing(k1);
    assert ChoiceSaid(choice) == first + after;
    assert Heard(k1, end, ChoiceText(choice), after);
    HeardChain(k, k1, end, "", ChoiceText(choice), first, after);
    assert "" + ChoiceText(choice) == ChoiceText(choice);
  }

  lemma ErrorHeard(c: Codec, k: Sink, parsed: Json)
    requires Has(parsed, "error")
    ensures Heard(k, OnParsed(c, k, parsed), "", ErrorSaid(Field(parsed, "error")))
  {
    hide OnChoice;
    HeardNothing(k);
    assert "error:" + "Backend generation failed." == "error:Backend generation failed.";
  }

  lemma LineHeard(c: Codec, k: Sink, line: string)
    ensures Heard(k, OnLine(c, k, line), LineText(c, line), LineSaid(c, line))
  {
    hide OnChoice, Payload, Heard, ErrorText, ErrorSaid, ChoiceText, ChoiceSaid;
    HeardNothing(k);
    var parsed := ParsedIn(c, line);
    if parsed.Some? {
      if Has(parsed.value, "error") {
        ErrorHeard(c, k, parsed.value);
      } else if HasChoice(parsed.value) {
        ChoiceHeard(c, k, Field(parsed.value, "choices").items[0]);
      }
    }
  }

  lemma {:induction false} LinesHeard(c: Codec, k: Sink, lines: seq<string>)
    ensures Heard(k, OnLines(c, k, lines), Texts(c, Live(lines)), Said(c, Live(lines)))
    decreases |lines|
  {
    hide Heard, OnLine, LineText, LineSaid, Payload;
    if lines == [] || Payload(lines[0]) == Some("[DONE]") {
      HeardNothing(k);
    } else {
      var next := OnLine(c, k, lines[0]);
      LineHeard(c, k, lines[0]);
      LinesHeard(c, next, lines[1..]);
      HeardChain(k, next, OnLines(c, next, lines[1..]), LineText(c, lines[0]), Texts(c, Live(lines[1..])),
                 LineSaid(c, lines[0]), Said(c, Live(lines[1..])));
      assert Live(lines)[1..] == Live(lines[1..]);
    }
  }

  lemma {:induction false} TextsAppend(c: Codec, a: seq<string>, b: seq<string>)
    ensures Texts(c, a + b) == Texts(c, a) + Texts(c, b) && Said(c, a + b) == Said(c, a) + Said(c, b)
    decreases |a|
  {
    hide LineText, LineSaid;
    if a == [] {
      assert a + b == b && "" + Texts(c, b) == Texts(c, b) && [] + Said(c, b) == Said(c, b);
    } else {
      assert (a + b)[0] == a[0] && (a + b)[1..] == a[1..] + b;
      TextsAppend(c, a[1..], b);
      AddAssociates(LineText(c, a[0]), Texts(c, a[1..]), Texts(c, b));
      assert LineSaid(c, a[0]) + Said(c, a[1..]) + Said(c, b) == LineSaid(c, a[0]) + (Said(c, a[1..]) + Said(c, b));
    }
  }

  lemma {:induction false} EventsHeard(c: Codec, k: Sink, events: seq<string>)
    ensures Heard(k, OnEvents(c, k, events), Texts(c, LiveLines(events)), Said(c, LiveLines(events)))
    decreases |events|
  {
    hide Heard, OnLines, Live, Lines, Texts, Said;
    if events == [] {
      HeardNothing(k);
      NothingSaid(c);
    } else {
      var live, next := Live(Lines(events[0])), OnEvent(c, k, events[0]);
      LinesHeard(c, k, Lines(events[0]));
      EventsHeard(c, next, events[1..]);
      HeardChain(k, next, OnEvents(c, next, events[1..]), Texts(c, live), Texts(c, LiveLines(events[1..])),
                 Said(c, live), Said(c, LiveLines(events[1..])));
      TextsAppend(c, live, LiveLines(events[1..]));
    }
  }

  lemma NothingSaid(c: Codec)
    ensures Texts(c, []) == "" && Said(c, []) == []
  {}

  /**
   Over a whole stream, however split: the assembled and the spoken text are the texts on the lines
   that are looked at, and the callbacks are what those lines say, in order.
   */
  lemma StreamIsHeard(c: Codec, k: Sink, chunks: seq<string>)
    ensures var lines := LiveLines(Events(Join(chunks)));
            Heard(k, FeedAll(c, "", k, chunks).1, Texts(c, lines), Said(c, lines))
  {
    hide Events, OnEvents, LiveLines, Heard, Join, FeedAll;
    FeedIsTheFraming(c, k, chunks);
    EventsHeard(c, k, Events(Join(chunks)));
  }

  // ----- tool calls

  /** The calls listed in a delta or a message. */
  function Listed(holder: Json): seq<Json> {
    if Has(holder, "tool_calls") && Field(holder, "tool_calls").Arr? then Field(holder, "tool_calls").items else []
  }

  /** The calls of a choice: those of its delta, or of its message while there has been none at all. */
  function ChoiceCalls(choice: Json, none: bool): seq<Json> {
    var own := if Has(choice, "delta") then Listed(Field(choice, "delta")) else [];
    if own == [] && none && Has(choice, "message") then Listed(Field(choice, "message")) else own
  }

  function LineItems(c: Codec, line: string, none: bool): seq<Json> {
    match ParsedIn(c, line)
    case None => []
    case Some(parsed) =>
      if Has(parsed, "error") || !HasChoice(parsed) then []
      else ChoiceCalls(Field(parsed, "choices").items[0], none)
  }

  /** All the calls listed on some lines, in order. */
  function Items(c: Codec, lines: seq<string>, none: bool): seq<Json>
    decreases |lines|
  {
    if lines == [] then [] else
    var items := LineItems(c, lines[0], none);
    items + Items(c, lines[1..], none && items == [])
  }

  lemma {:induction false} ItemsAppend(c: Codec, a: seq<string>, b: seq<string>, none: bool)
    ensures Items(c, a + b, none) == Items(c, a, none) + Items(c, b, none && Items(c, a, none) == [])
    decreases |a|
  {
    hide LineItems;
    if a == [] {
      assert a + b == b;
    } else {
      var items := LineItems(c, a[0], none);
      assert (a + b)[0] == a[0] && (a + b)[1..] == a[1..] + b;
      ItemsAppend(c, a[1..], b, none && items == []);
    }
  }

  lemma ReadAppend(c: Codec, a: seq<Json>, b: seq<Json>)
    ensures Read(c, a + b) == Read(c, a) + Read(c, b)
    ensures Read(c, a) == [] <==> a == []
  {
    hide ReadDelta;
  }

  lemma LineReads(c: Codec, line: string, none: bool)
    ensures LineCalls(c, none, line) == Read(c, LineItems(c, line, none))
  {
    hide Read, Payload;
    ReadAppend(c, [], []);
    var parsed := ParsedIn(c, line);
    if parsed.Some? && !Has(parsed.value, "error") && HasChoice(parsed.value) {
      var choice := Field(parsed.value, "choices").items[0];
      if Has(choice, "delta") { ReadAppend(c, Listed(Field(choice, "delta")), []); }
    }
  }

  lemma {:induction false} LinesRead(c: Codec, lines: seq<string>, none: bool)
    ensures LinesCalls(c, none, lines) == Read(c, Items(c, Live(lines), none))
    decreases |lines|
  {
    hide LineCalls, LineItems, Read, Payload;
    ReadAppend(c, [], []);
    if !(lines == [] || Payload(lines[0]) == Some("[DONE]")) {
      var items := LineItems(c, lines[0], none);
      LineReads(c, lines[0], none);
      LinesRead(c, lines[1..], none && items == []);
      assert Live(lines)[1..] == Live(lines[1..]);
      ReadAppend(c, items, Items(c, Live(lines[1..]), none && items == []));
    }
  }

  lemma {:induction false} EventsRead(c: Codec, events: seq<string>, none: bool)
    ensures Calls(c, none, events) == Read(c, Items(c, LiveLines(events), none))
    decreases |events|
  {
    hide LinesCalls, Items, Read, Live, Lines;
    ReadAppend(c, [], []);
    if events == [] {
      NothingCalled(c, none);
    } else {
      var live := Live(Lines(events[0]));
      var items := Items(c, live, none);
      LinesRead(c, Lines(events[0]), none);
      EventsRead(c, events[1..], none && items == []);
      ItemsAppend(c, live, LiveLines(events[1..]), none);
      ReadAppend(c, items, Items(c, LiveLines(events[1..]), none && items == []));
    }
  }

  lemma NothingCalled(c: Codec, none: bool)
    ensures Items(c, [], none) == []
  {}

  /** Over a whole stream, however split: the slots are those of the calls listed on the lines that are looked at. */
  lemma StreamIsCalled(c: Codec, k: Sink, chunks: seq<string>)
    requires k.tools == Some([])
    ensures var ds := Read(c, Items(c, LiveLines(Events(Join(chunks))), true));
            var tools := FeedAll(c, "", k, chunks).1.tools;
            tools == Some(TakeAll([], ds)) && |tools.value| == Width(ds)
  {
    hide Events, OnEvents, Calls, Items, Read, LiveLines, TakeAll;
    FeedIsTheFraming(c, k, chunks);
    EventsTake(c, k, Events(Join(chunks)));
    EventsRead(c, Events(Join(chunks)), true);
    SlotsAreSeparate([], Calls(c, true, Events(Join(chunks))));
  }
}
