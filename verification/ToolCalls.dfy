/** The JSON values coli_sse.h looks at, and how it accumulates tool-call deltas into slots by index. */
module ToolCalls {
  import opened Text

  datatype Json =
    | Null
    | Bool(b: bool)
    | Int(i: int)
    | Float(x: real)
    | Str(s: string)
    | Arr(items: seq<Json>)
    | Obj(fields: map<string, Json>)

  /** The JSON library: parse throws on malformed text (None); dump writes a value. */
  datatype Codec = Codec(parse: string -> Option<Json>, dump: Json -> string)

  predicate Has(j: Json, key: string) { j.Obj? && key in j.fields }

  function Field(j: Json, key: string): Json
    requires Has(j, key)
  {
    j.fields[key]
  }

  function StrAt(j: Json, key: string): Option<string> {
    if Has(j, key) && Field(j, key).Str? then Some(Field(j, key).s) else None
  }

  // ----- one delta

  datatype Args = Keep | Append(text: string) | Replace(text: string)

  datatype Delta = Delta(index: nat, id: Option<string>, kind: Option<string>, name: Option<string>, args: Args)

  datatype Slot = Slot(id: Option<string>, kind: string, name: string, args: string)

  const FRESH := Slot(None, "function", "", "")

  const TWO31: int := 0x8000_0000

  /** get<int>() on a wider integer. */
  function Wrap32(i: int): (w: int)
    ensures -TWO31 <= w < TWO31
  {
    (i + TWO31) % (2 * TWO31) - TWO31
  }

  /** static_cast<int> on a double: toward zero, and the smallest int when out of range. */
  function Truncate(x: real): int {
    var t := if x >= 0.0 then x.Floor else -((-x).Floor);
    if -TWO31 <= t < TWO31 then t else -TWO31
  }

  /** The slot a tool call names: its index as an int, with anything else, or a negative one, taken as 0. */
  function IndexOf(tc: Json): (i: nat)
    ensures i < TWO31
  {
    if !Has(tc, "index") then 0 else
    var raw := match Field(tc, "index")
      case Int(i) => Wrap32(i)
      case Float(x) => Truncate(x)
      case _ => 0;
    Max(raw, 0)
  }

  function NonEmpty(s: Option<string>): Option<string> { if s == Some("") then None else s }

  function ReadDelta(c: Codec, tc: Json): Delta {
    var fn := if Has(tc, "function") && Field(tc, "function").Obj? then Field(tc, "function") else Null;
    var args := if !Has(fn, "arguments") then Keep else
                match Field(fn, "arguments")
                case Str(s) => Append(s)
                case Null => Keep
                case other => Replace(c.dump(other));
    Delta(IndexOf(tc), NonEmpty(StrAt(tc, "id")), StrAt(tc, "type"), NonEmpty(StrAt(fn, "name")), args)
  }

  function Or<T>(x: Option<T>, y: T): T { match x case Some(v) => v case None => y }

  function Patch(slot: Slot, d: Delta): Slot {
    Slot(if d.id.Some? then d.id else slot.id, Or(d.kind, slot.kind), Or(d.name, slot.name),
         match d.args case Keep => slot.args case Append(t) => slot.args + t case Replace(t) => t)
  }

  /** Grown with fresh slots until the index is there. */
  function Grown(slots: seq<Slot>, index: nat): (r: seq<Slot>)
    ensures |r| == Max(|slots|, index + 1)
    ensures slots <= r && forall i :: |slots| <= i < |r| ==> r[i] == FRESH
    decreases index + 1 - |slots|
  {
    if |slots| <= index then Grown(slots + [FRESH], index) else slots
  }

  function Take(slots: seq<Slot>, d: Delta): seq<Slot> {
    var grown := Grown(slots, d.index);
    grown[d.index := Patch(grown[d.index], d)]
  }

  function TakeAll(slots: seq<Slot>, ds: seq<Delta>): seq<Slot>
    decreases |ds|
  {
    if ds == [] then slots else TakeAll(Take(slots, ds[0]), ds[1..])
  }

  /** The deltas of a `delta` or `message` object. */
  function DeltasIn(c: Codec, j: Json): seq<Delta> {
    if Has(j, "tool_calls") && Field(j, "tool_calls").Arr? then Read(c, Field(j, "tool_calls").items) else []
  }

  function Read(c: Codec, items: seq<Json>): (ds: seq<Delta>)
    ensures |ds| == |items|
  {
    seq(|items|, i requires 0 <= i < |items| => ReadDelta(c, items[i]))
  }

  /** accumulate_tool_calls: the array grows one slot at a time and is patched in place. */
  method Accumulate(c: Codec, acc: seq<Slot>, delta: Json) returns (slots: seq<Slot>)
    ensures slots == TakeAll(acc, DeltasIn(c, delta))
  {
    slots := acc;
    if !Has(delta, "tool_calls") || !Field(delta, "tool_calls").Arr? { return; }
    var items := Field(delta, "tool_calls").items;
    ghost var ds := Read(c, items);
    assert ds[0..] == ds;
    for n := 0 to |items|
      invariant TakeAll(slots, ds[n..]) == TakeAll(acc, ds)
    {
      var d := ReadDelta(c, items[n]);
      ghost var before := slots;
      while |slots| <= d.index
        invariant Grown(slots, d.index) == Grown(before, d.index)
        decreases d.index + 1 - |slots|
      {
        slots := slots + [FRESH];
      }
      slots := slots[d.index := Patch(slots[d.index], d)];
      assert slots == Take(before, d);
      assert ds[n..][1..] == ds[n + 1..];
    }
  }

  // ----- what the array holds, slot by slot

  /** The deltas of one index, in order. */
  function Of(ds: seq<Delta>, i: nat): seq<Delta>
    decreases |ds|
  {
    if ds == [] then [] else (if ds[0].index == i then [ds[0]] else []) + Of(ds[1..], i)
  }

  function PatchAll(slot: Slot, ds: seq<Delta>): Slot
    decreases |ds|
  {
    if ds == [] then slot else PatchAll(Patch(slot, ds[0]), ds[1..])
  }

  /** One more than the largest index. */
  function Width(ds: seq<Delta>): (w: nat)
    ensures forall k :: 0 <= k < |ds| ==> ds[k].index < w
    ensures w > 0 ==> exists k :: 0 <= k < |ds| && ds[k].index == w - 1
    decreases |ds|
  {
    if ds == [] then 0
    else
      var w := Width(ds[1..]);
      assert forall k :: 1 <= k < |ds| ==> ds[k] == ds[1..][k - 1];
      Max(ds[0].index + 1, w)
  }

  function SlotAt(slots: seq<Slot>, i: nat): Slot { if i < |slots| then slots[i] else FRESH }

  /** Each slot depends on its own deltas only, and the array is just long enough. */
  lemma {:induction false} SlotsAreSeparate(slots: seq<Slot>, ds: seq<Delta>)
    ensures |TakeAll(slots, ds)| == Max(|slots|, Width(ds))
    ensures forall i: nat :: i < |TakeAll(slots, ds)| ==> TakeAll(slots, ds)[i] == PatchAll(SlotAt(slots, i), Of(ds, i))
    decreases |ds|
  {
    hide Patch;
    if ds != [] {
      var next := Take(slots, ds[0]);
      SlotsAreSeparate(next, ds[1..]);
      forall i: nat | i < |TakeAll(slots, ds)|
        ensures TakeAll(slots, ds)[i] == PatchAll(SlotAt(slots, i), Of(ds, i))
      {
        var own := if ds[0].index == i then [ds[0]] else [];
        assert Of(ds, i) == own + Of(ds[1..], i);
        if ds[0].index == i {
          assert Of(ds, i)[1..] == Of(ds[1..], i);
        } else {
          assert Of(ds, i) == Of(ds[1..], i);
        }
      }
    }
  }

  /** The order of deltas matters within an index only: any interleaving of the same streams gives the same array. */
  lemma InterleavingIsFree(slots: seq<Slot>, a: seq<Delta>, b: seq<Delta>)
    requires forall i :: Of(a, i) == Of(b, i)
    ensures TakeAll(slots, a) == TakeAll(slots, b)
  {
    SlotsAreSeparate(slots, a);
    SlotsAreSeparate(slots, b);
    hide Of;
    WidthOfStreams(a, b);
    WidthOfStreams(b, a);
  }

  lemma {:induction false} InOf(ds: seq<Delta>, k: nat)
    requires k < |ds|
    ensures Of(ds, ds[k].index) != []
    decreases |ds|
  {
    if k > 0 { InOf(ds[1..], k - 1); }
  }

  lemma {:induction false} OfIn(ds: seq<Delta>, i: nat)
    requires Of(ds, i) != []
    ensures exists k :: 0 <= k < |ds| && ds[k].index == i
    decreases |ds|
  {
    if ds[0].index != i {
      OfIn(ds[1..], i);
      var k :| 0 <= k < |ds[1..]| && ds[1..][k].index == i;
      assert ds[k + 1].index == i;
    }
  }

  lemma WidthOfStreams(a: seq<Delta>, b: seq<Delta>)
    requires forall i :: Of(a, i) == Of(b, i)
    ensures Width(a) <= Width(b)
  {
    if Width(a) > 0 {
      var k :| 0 <= k < |a| && a[k].index == Width(a) - 1;
      InOf(a, k);
      OfIn(b, a[k].index);
    }
  }

  /** Two neighbouring deltas of different indices commute. */
  lemma NeighboursCommute(slots: seq<Slot>, pre: seq<Delta>, x: Delta, y: Delta, post: seq<Delta>)
    requires x.index != y.index
    ensures TakeAll(slots, pre + [x, y] + post) == TakeAll(slots, pre + [y, x] + post)
  {
    forall i ensures Of(pre + [x, y] + post, i) == Of(pre + [y, x] + post, i) {
      OfAppend(pre + [x, y], post, i);
      OfAppend(pre + [y, x], post, i);
      OfAppend(pre, [x, y], i);
      OfAppend(pre, [y, x], i);
      assert [x, y][1..] == [y] && [y, x][1..] == [x];
    }
    InterleavingIsFree(slots, pre + [x, y] + post, pre + [y, x] + post);
  }

  lemma {:induction false} OfAppend(a: seq<Delta>, b: seq<Delta>, i: nat)
    ensures Of(a + b, i) == Of(a, i) + Of(b, i)
    decreases |a|
  {
    if a == [] {
      assert a + b == b;
    } else {
      OfAppend(a[1..], b, i);
      assert (a + b)[0] == a[0] && (a + b)[1..] == a[1..] + b;
      var own := if a[0].index == i then [a[0]] else [];
      assert Of(a + b, i) == own + (Of(a[1..], i) + Of(b, i));
    }
  }

  lemma {:induction false} TakeAppend(slots: seq<Slot>, a: seq<Delta>, b: seq<Delta>)
    ensures TakeAll(slots, a + b) == TakeAll(TakeAll(slots, a), b)
    decreases |a|
  {
    if a == [] {
      assert a + b == b;
    } else {
      TakeAppend(Take(slots, a[0]), a[1..], b);
      assert (a + b)[1..] == a[1..] + b;
    }
  }

  /** The fragments one index was sent. */
  function Fragments(ds: seq<Delta>): seq<string>
    decreases |ds|
  {
    if ds == [] then []
    else (match ds[0].args case Append(t) => [t] case _ => []) + Fragments(ds[1..])
  }

  lemma {:induction false} PatchedArgs(slot: Slot, ds: seq<Delta>)
    requires forall k :: 0 <= k < |ds| ==> !ds[k].args.Replace?
    ensures PatchAll(slot, ds).args == slot.args + Join(Fragments(ds))
    decreases |ds|
  {
    assert slot.args + Join([]) == slot.args;
    hide Patch, Join;
    if ds != [] {
      var own := match ds[0].args case Append(t) => [t] case _ => [];
      PatchedOnce(slot, ds[0]);
      PatchedArgs(Patch(slot, ds[0]), ds[1..]);
      JoinAppend(own, Fragments(ds[1..]));
      AddAssociates(slot.args, Join(own), Join(Fragments(ds[1..])));
    }
  }

  lemma PatchedOnce(slot: Slot, d: Delta)
    requires !d.args.Replace?
    ensures Patch(slot, d).args == slot.args + Join(match d.args case Append(t) => [t] case _ => [])
  {
    match d.args
    case Append(t) =>
      assert [t][1..] == [] && Join([t]) == t + "" == t;
    case Keep =>
      assert slot.args + "" == slot.args;
    case Replace(_) =>
  }

  lemma {:induction false} OfKeeps(ds: seq<Delta>, i: nat)
    requires forall k :: 0 <= k < |ds| ==> !ds[k].args.Replace?
    ensures forall k :: 0 <= k < |Of(ds, i)| ==> !Of(ds, i)[k].args.Replace?
    decreases |ds|
  {
    if ds != [] { OfKeeps(ds[1..], i); }
  }

  /**
   With string arguments only, each slot's arguments are its own fragments in order, in an array one
   longer than the largest index.
   */
  lemma ArgumentsAreFragments(ds: seq<Delta>)
    requires forall k :: 0 <= k < |ds| ==> !ds[k].args.Replace?
    ensures var slots := TakeAll([], ds);
            && |slots| == Width(ds)
            && forall i: nat :: i < |slots| ==> slots[i].args == Join(Fragments(Of(ds, i)))
  {
    SlotsAreSeparate([], ds);
    forall i: nat | i < |TakeAll([], ds)| ensures TakeAll([], ds)[i].args == Join(Fragments(Of(ds, i))) {
      OfKeeps(ds, i);
      PatchedArgs(FRESH, Of(ds, i));
    }
  }

  lemma TakeAllEmpty(slots: seq<Slot>, ds: seq<Delta>)
    ensures TakeAll(slots, ds) == [] <==> slots == [] && ds == []
  {
    SlotsAreSeparate(slots, ds);
  }

  lemma {:induction false} PatchAppend(slot: Slot, a: seq<Delta>, b: seq<Delta>)
    ensures PatchAll(slot, a + b) == PatchAll(PatchAll(slot, a), b)
    decreases |a|
  {
    if a == [] {
      assert a + b == b;
    } else {
      PatchAppend(Patch(slot, a[0]), a[1..], b);
      assert (a + b)[1..] == a[1..] + b;
    }
  }

  /** Arguments that arrive as a value and not as text start the slot's arguments over. */
  lemma ReplaceRestarts(slot: Slot, before: seq<Delta>, d: Delta, after: seq<Delta>)
    requires d.args.Replace? && forall k :: 0 <= k < |after| ==> !after[k].args.Replace?
    ensures PatchAll(slot, before + [d] + after).args == d.args.text + Join(Fragments(after))
  {
    PatchAppend(slot, before + [d], after);
    PatchAppend(slot, before, [d]);
    assert [d][1..] == [];
    PatchedArgs(PatchAll(slot, before + [d]), after);
  }

  /** An integer index is used as sent exactly when it is a non-negative 32-bit one; a wider one wraps first. */
  lemma IndexIsKept(tc: Json, i: int)
    requires Has(tc, "index") && Field(tc, "index") == Int(i)
    ensures IndexOf(tc) == i <==> 0 <= i < TWO31
    ensures i < 0 && i >= -TWO31 ==> IndexOf(tc) == 0
  {}
}
