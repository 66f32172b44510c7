/** The replace loop of edit_local_file in local_tools.cpp, which rewrites a file's bytes in place. */
module FileEdit {
  import opened Text

  datatype Edit = Missing | NotFound | Edited(data: string, count: nat)

  /** The text cut at the leftmost occurrences that do not overlap. */
  function Pieces(text: string, old': string): (ps: seq<string>)
    requires old' != ""
    ensures ps != []
    decreases |text|
  {
    var at := Find(text, old', 0);
    if at == -1 then [text] else [text[..at]] + Pieces(text[at + |old'|..], old')
  }

  function Between(pieces: seq<string>, sep: string): string
    requires pieces != []
    decreases |pieces|
  {
    if |pieces| == 1 then pieces[0] else pieces[0] + sep + Between(pieces[1..], sep)
  }

  /** Pieces that occurrences of `old'` separate, and no earlier cut was possible. */
  ghost predicate Leftmost(pieces: seq<string>, old': string) {
    && (forall i :: 0 <= i < |pieces| - 1 ==> Find(pieces[i] + old', old', 0) == |pieces[i]|)
    && (pieces != [] ==> !Contains(pieces[|pieces| - 1], old'))
  }

  lemma {:induction false} PiecesCut(text: string, old': string)
    requires old' != ""
    ensures Between(Pieces(text, old'), old') == text && Leftmost(Pieces(text, old'), old')
    decreases |text|
  {
    var at := Find(text, old', 0);
    if at == -1 {
      NowhereMeansAbsent(text, old');
    } else {
      var rest := text[at + |old'|..];
      PiecesCut(rest, old');
      FirstCut(text, old', at);
      var ps := Pieces(rest, old');
      assert Pieces(text, old')[1..] == ps;
      forall i | 0 <= i < |ps|
        ensures Find(([text[..at]] + ps)[i] + old', old', 0) == |([text[..at]] + ps)[i]|
      {
        if i > 0 { assert ([text[..at]] + ps)[i] == ps[i - 1]; }
      }
    }
  }

  lemma NowhereMeansAbsent(text: string, m: string)
    ensures Find(text, m, 0) == -1 <==> !Contains(text, m)
  {}

  lemma FirstCut(text: string, m: string, at: nat)
    requires Find(text, m, 0) == at
    ensures text == text[..at] + m + text[at + |m|..]
    ensures Find(text[..at] + m, m, 0) == at
  {
    HeadFound(text, m, at);
    hide Find;
    CutAround(text, m, at);
  }

  lemma CutAround(text: string, m: string, at: nat)
    requires IsAt(text, m, at)
    ensures text == text[..at] + m + text[at + |m|..]
  {}

  lemma HeadFound(text: string, m: string, at: nat)
    requires Find(text, m, 0) == at
    ensures Find(text[..at] + m, m, 0) == at
  {
    var head := text[0..at + |m|];
    assert text[at..at + |m|] == m;
    assert head == text[..at] + m;
    hide Find, IsAt;
    forall i | 0 <= i <= at ensures IsAt(head, m, i) == IsAt(text, m, i) { AtSlice(text, 0, at + |m|, m, i); }
    FindIs(head, m, 0, at);
  }

  /** The cut is unique: any leftmost pieces of a text are its pieces. */
  lemma {:induction false} CutIsUnique(pieces: seq<string>, old': string)
    requires old' != "" && pieces != [] && Leftmost(pieces, old')
    ensures Pieces(Between(pieces, old'), old') == pieces
    decreases |pieces|
  {
    var text := Between(pieces, old');
    if |pieces| == 1 {
      NowhereMeansAbsent(text, old');
    } else {
      var rest := Between(pieces[1..], old');
      assert text == (pieces[0] + old') + rest;
      FoundInFront(pieces[0] + old', rest, old', |pieces[0]|);
      forall i | 0 <= i < |pieces[1..]| - 1 ensures Find(pieces[1..][i] + old', old', 0) == |pieces[1..][i]| {
        assert pieces[1..][i] == pieces[i + 1];
      }
      CutIsUnique(pieces[1..], old');
      assert text[..|pieces[0]|] == pieces[0] && text[|pieces[0]| + |old'|..] == rest;
    }
  }

  lemma FoundInFront(x: string, y: string, m: string, at: nat)
    requires Find(x, m, 0) == at
    ensures Find(x + y, m, 0) == at
  {
    hide Find, IsAt;
    forall i | 0 <= i <= at ensures IsAt(x + y, m, i) == IsAt(x, m, i) { AtPrefix(x, y, m, i); }
    FindIs(x + y, m, 0, at);
  }

  /** What the edit makes of the file: every cut closed with the new text, or the first one only. */
  function EditOf(data: string, old': string, new': string, all: bool): Edit {
    if old' == "" || new' == "" then Missing else
    var ps := Pieces(data, old');
    if |ps| == 1 then NotFound
    else if all then Edited(Between(ps, new'), |ps| - 1)
    else Edited(ps[0] + new' + Between(ps[1..], old'), 1)
  }

  /** The loop of edit_local_file. It ends although the new text may hold the old one: the search goes on behind it. */
  method EditLocalFile(original: string, old': string, new': string, all: bool) returns (r: Edit)
    ensures r == EditOf(original, old', new', all)
  {
    hide IsAt, Find, Pieces, Between;
    if old' == "" || new' == "" { return Missing; }
    var data, count: nat := original, 0;
    var at := Find(data, old', 0);
    if at == -1 { LastPiece(original, old', new'); return NotFound; }
    if !all {
      OneEdit(original, old', new', at);
      data := data[..at] + new' + data[at + |old'|..];
      return Edited(data, 1);
    }
    ghost var front, rest := "", original;
    SomePieces(original, old');
    while at != -1
      invariant data == front + rest
      invariant at == if Find(rest, old', 0) == -1 then -1 else |front| + Find(rest, old', 0)
      invariant front + Between(Pieces(rest, old'), new') == Between(Pieces(original, old'), new')
      invariant count + |Pieces(rest, old')| == |Pieces(original, old')|
      decreases |rest|
    {
      ghost var k := Find(rest, old', 0);
      ghost var tail := rest[k + |old'|..];
      PiecesStep(rest, old', new', k);
      Spliced(front, rest, old', new', k, Between(Pieces(tail, old'), new'));
      data := data[..at] + new' + data[at + |old'|..];
      count := count + 1;
      front, rest := front + rest[..k] + new', tail;
      FindShift(front, rest, old');
      at := Find(data, old', at + |new'|);
    }
    LastPiece(rest, old', new');
    return Edited(data, count);
  }

  lemma SomePieces(text: string, old': string)
    requires old' != "" && Find(text, old', 0) != -1
    ensures |Pieces(text, old')| > 1
  {}

  lemma LastPiece(rest: string, old': string, new': string)
    requires old' != "" && Find(rest, old', 0) == -1
    ensures Pieces(rest, old') == [rest] && Between([rest], new') == rest
  {}

  lemma PiecesStep(rest: string, old': string, new': string, k: nat)
    requires old' != "" && Find(rest, old', 0) == k
    ensures var tail := rest[k + |old'|..];
            && Pieces(rest, old') == [rest[..k]] + Pieces(tail, old')
            && Between(Pieces(rest, old'), new') == rest[..k] + new' + Between(Pieces(tail, old'), new')
  {
    var ps := Pieces(rest[k + |old'|..], old');
    assert ([rest[..k]] + ps)[1..] == ps;
  }

  lemma Spliced(front: string, rest: string, old': string, new': string, k: nat, more: string)
    requires k + |old'| <= |rest|
    ensures var data, at := front + rest, |front| + k;
            data[..at] + new' + data[at + |old'|..] == (front + rest[..k] + new') + rest[k + |old'|..]
    ensures front + (rest[..k] + new' + more) == (front + rest[..k] + new') + more
  {}

  lemma OneEdit(original: string, old': string, new': string, k: nat)
    requires old' != "" && new' != "" && Find(original, old', 0) == k
    ensures EditOf(original, old', new', false) == Edited(original[..k] + new' + original[k + |old'|..], 1)
  {
    PiecesStep(original, old', new', k);
    PiecesCut(original[k + |old'|..], old');
    hide Pieces, Between, Find;
    var ps := Pieces(original[k + |old'|..], old');
    assert ([original[..k]] + ps)[1..] == ps;
  }

  // ----- undoing an edit

  lemma {:induction false} HoldsSeparator(pieces: seq<string>, sep: string)
    requires |pieces| > 1
    ensures IsAt(Between(pieces, sep), sep, |pieces[0]|)
    ensures Between(pieces, sep) == pieces[0] + sep + Between(pieces[1..], sep)
  {
    assert Between(pieces, sep)[|pieces[0]|..|pieces[0]| + |sep|] == sep;
  }

  /** A leftmost cut of a text stands no later than any other occurrence. */
  lemma CutIsFirst(head: string, m: string, tail: string, i: nat)
    requires Find(head + m, m, 0) == |head| && IsAt(head + m + tail, m, i)
    ensures |head| <= i
  {
    if i < |head| { AtPrefix(head + m, tail, m, i); }
  }

  /** Two ways to cut that spell the same texts under both separators, each leftmost for one of them, are the same. */
  lemma {:induction false} SameCuts(ps: seq<string>, qs: seq<string>, old': string, new': string)
    requires ps != [] && qs != [] && Leftmost(ps, old') && Leftmost(qs, new')
    requires Between(ps, old') == Between(qs, old') && Between(ps, new') == Between(qs, new')
    ensures ps == qs
    decreases |ps|
  {
    hide IsAt, Find;
    if |qs| > 1 { HoldsSeparator(qs, old'); }
    if |ps| > 1 { HoldsSeparator(ps, new'); }
    if |ps| > 1 && |qs| > 1 {
      var p, q := ps[0], qs[0];
      HoldsSeparator(ps, old');
      HoldsSeparator(qs, new');
      CutIsFirst(p, old', Between(ps[1..], old'), |q|);
      CutIsFirst(q, new', Between(qs[1..], new'), |p|);
      SamePrefix(p, q, old', Between(ps[1..], old'), Between(qs[1..], old'));
      SamePrefix(p, q, new', Between(ps[1..], new'), Between(qs[1..], new'));
      LeftmostRest(ps, old');
      LeftmostRest(qs, new');
      SameCuts(ps[1..], qs[1..], old', new');
      assert ps == [p] + ps[1..] && qs == [q] + qs[1..];
    }
  }

  lemma SamePrefix(p: string, q: string, m: string, x: string, y: string)
    requires |p| == |q| && p + m + x == q + m + y
    ensures p == q && x == y
  {
    assert p == (p + m + x)[..|p|] && q == (q + m + y)[..|q|];
    assert x == (p + m + x)[|p| + |m|..] && y == (q + m + y)[|q| + |m|..];
  }

  lemma LeftmostRest(ps: seq<string>, m: string)
    requires |ps| > 1 && Leftmost(ps, m)
    ensures Leftmost(ps[1..], m)
  {
    hide Find, Contains;
    forall i | 0 <= i < |ps[1..]| - 1 ensures Find(ps[1..][i] + m, m, 0) == |ps[1..][i]| {
      assert ps[1..][i] == ps[i + 1];
    }
  }

  /**
   Replacing everything and then replacing it back restores the file if and only if the new text
   is found first exactly where it was put.
   */
  lemma ReplaceBack(data: string, old': string, new': string)
    requires old' != "" && new' != "" && Contains(data, old')
    ensures var there := EditOf(data, old', new', true);
            && there.Edited?
            && (EditOf(there.data, new', old', true) == Edited(data, there.count) <==>
                Leftmost(Pieces(data, old'), new'))
  {
    hide Leftmost, Find;
    var ps := Pieces(data, old');
    PiecesCut(data, old');
    NowhereMeansAbsent(data, old');
    SomePieces(data, old');
    var there := Between(ps, new');
    var qs := Pieces(there, new');
    PiecesCut(there, new');
    if Leftmost(ps, new') { CutIsUnique(ps, new'); }
    if |qs| > 1 && Between(qs, old') == data { SameCuts(ps, qs, old', new'); }
  }
}
