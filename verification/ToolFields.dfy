/** What a slot of tool calls says besides its arguments, and how a delta is read from JSON. */
module ToolFields {
  import opened Text
  import opened ToolCalls

  /** The last value given, or what there was. */
  function Last<T>(xs: seq<Option<T>>, was: T): T
    decreases |xs|
  {
    if xs == [] then was else Last(xs[1..], Or(xs[0], was))
  }

  function Ids(ds: seq<Delta>): seq<Option<Option<string>>> {
    seq(|ds|, i requires 0 <= i < |ds| => if ds[i].id.Some? then Some(ds[i].id) else None)
  }

  function Kinds(ds: seq<Delta>): seq<Option<string>> { seq(|ds|, i requires 0 <= i < |ds| => ds[i].kind) }

  function Names(ds: seq<Delta>): seq<Option<string>> { seq(|ds|, i requires 0 <= i < |ds| => ds[i].name) }

  lemma {:induction false} PatchedFields(slot: Slot, ds: seq<Delta>)
    ensures var end := PatchAll(slot, ds);
            end.id == Last(Ids(ds), slot.id) && end.kind == Last(Kinds(ds), slot.kind)
            && end.name == Last(Names(ds), slot.name)
    decreases |ds|
  {
    if ds != [] {
      PatchedFields(Patch(slot, ds[0]), ds[1..]);
      assert Ids(ds)[1..] == Ids(ds[1..]) && Kinds(ds)[1..] == Kinds(ds[1..]) && Names(ds)[1..] == Names(ds[1..]);
    }
  }

  /** Each slot has the last id, type and name that were given for its index; no id, `function` and no name before. */
  lemma FieldsAreLast(ds: seq<Delta>)
    ensures var slots := TakeAll([], ds);
            forall i: nat :: i < |slots| ==>
              var own := Of(ds, i);
              && slots[i].id == Last(Ids(own), None)
              && slots[i].kind == Last(Kinds(own), "function")
              && slots[i].name == Last(Names(own), "")
  {
    hide Ids, Kinds, Names;
    SlotsAreSeparate([], ds);
    var slots := TakeAll([], ds);
    forall i: nat | i < |slots|
      ensures var own := Of(ds, i);
              && slots[i].id == Last(Ids(own), None)
              && slots[i].kind == Last(Kinds(own), "function")
              && slots[i].name == Last(Names(own), "")
    {
      PatchedFields(FRESH, Of(ds, i));
    }
  }

  /** The object under `function`, if there is one. */
  function Called(tc: Json): Json {
    if Has(tc, "function") && Field(tc, "function").Obj? then Field(tc, "function") else Null
  }

  /**
   How a delta reads: an id or a name counts only as a text that is not empty, a type as any text;
   arguments that are a text are added, none or a null keep what is there, and any other value replaces it.
   */
  lemma DeltaReads(c: Codec, tc: Json)
    ensures var d, fn := ReadDelta(c, tc), Called(tc);
            && (forall s: string :: d.id == Some(s) <==> s != "" && StrAt(tc, "id") == Some(s))
            && (forall s: string :: d.kind == Some(s) <==> StrAt(tc, "type") == Some(s))
            && (forall s: string :: d.name == Some(s) <==> s != "" && StrAt(fn, "name") == Some(s))
            && (forall s: string :: d.args == Append(s) <==> StrAt(fn, "arguments") == Some(s))
            && (d.args == Keep <==> !Has(fn, "arguments") || Field(fn, "arguments") == Null)
            && (d.args.Replace? ==> Has(fn, "arguments") && d.args.text == c.dump(Field(fn, "arguments")))
  {}

  /** A number that is no integer counts toward zero. */
  lemma FloatIndex(tc: Json, x: real)
    requires Has(tc, "index") && Field(tc, "index") == Float(x) && -2147483648.0 <= x < 2147483648.0
    ensures IndexOf(tc) as real <= (if x < 0.0 then 0.0 else x) < IndexOf(tc) as real + 1.0
  {}
}
