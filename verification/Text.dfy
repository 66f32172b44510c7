/** Byte strings, one char per byte, and the search that std::string::find performs. */
module Text {

  datatype Option<+T> = None | Some(value: T)

  /** The pattern stands in the text at this index. */
  predicate IsAt(text: string, pattern: string, i: int) {
    0 <= i && i + |pattern| <= |text| && text[i..i + |pattern|] == pattern
  }

  /** The pattern stands somewhere in the text. */
  ghost predicate Contains(text: string, pattern: string) {
    exists i :: IsAt(text, pattern, i)
  }

  /** The leftmost index at or after `from` where the pattern stands; -1 is npos. */
  function Find(text: string, pattern: string, from: nat): (at: int)
    ensures at == -1 || from <= at <= |text| - |pattern|
    ensures at == -1 ==> forall i :: from <= i ==> !IsAt(text, pattern, i)
    ensures at != -1 ==> IsAt(text, pattern, at) && forall i :: from <= i < at ==> !IsAt(text, pattern, i)
    decreases |text| - from
  {
    if from + |pattern| > |text| then -1
    else if IsAt(text, pattern, from) then from
    else Find(text, pattern, from + 1)
  }

  /** An index with nothing before it is what Find reports. */
  lemma FindIs(text: string, pattern: string, from: nat, at: nat)
    requires from <= at && IsAt(text, pattern, at)
    requires forall i :: from <= i < at ==> !IsAt(text, pattern, i)
    ensures Find(text, pattern, from) == at
  {}

  lemma FindNone(text: string, pattern: string, from: nat)
    requires forall i :: from <= i ==> !IsAt(text, pattern, i)
    ensures Find(text, pattern, from) == -1
  {}

  /** Character k of a pattern that stands at `at`. */
  lemma CharAt(text: string, pattern: string, at: nat, k: nat)
    requires IsAt(text, pattern, at) && k < |pattern|
    ensures text[at + k] == pattern[k]
  {
    assert text[at..at + |pattern|][k] == text[at + k];
  }

  /** A pattern past the first part of a concatenation stands in the second. */
  lemma AtShift(x: string, y: string, m: string, i: int)
    requires i >= |x|
    ensures IsAt(x + y, m, i) == IsAt(y, m, i - |x|)
  {
    if i + |m| <= |x| + |y| {
      assert (x + y)[i..i + |m|] == y[i - |x|..i - |x| + |m|];
    }
  }

  /** A pattern that fits in the first part of a concatenation stands there. */
  lemma AtPrefix(x: string, y: string, m: string, i: nat)
    requires i + |m| <= |x|
    ensures IsAt(x + y, m, i) == IsAt(x, m, i)
  {
    assert (x + y)[i..i + |m|] == x[i..i + |m|];
  }

  /** A pattern in a slice stands in the whole. */
  lemma AtSlice(s: string, a: nat, b: nat, m: string, i: nat)
    requires a <= b <= |s| && i + |m| <= b - a
    ensures IsAt(s[a..b], m, i) == IsAt(s, m, a + i)
  {
    var x, y := s[a..b][i..i + |m|], s[a + i..a + i + |m|];
    forall k | 0 <= k < |m| ensures x[k] == y[k] {
      assert x[k] == s[a..b][i + k] == s[a + i + k];
    }
    assert x == y;
  }

  lemma FindShift(x: string, y: string, m: string)
    ensures Find(x + y, m, |x|) == if Find(y, m, 0) == -1 then -1 else |x| + Find(y, m, 0)
  {
    hide IsAt, Find;
    var s := x + y;
    var at, to := Find(y, m, 0), Find(s, m, |x|);
    if at != -1 { AtShift(x, y, m, |x| + at); }
    if to != -1 { AtShift(x, y, m, to); }
  }

  /** The concatenation of a list of strings. */
  function Join(parts: seq<string>): string {
    if parts == [] then "" else parts[0] + Join(parts[1..])
  }

  lemma JoinFirst(parts: seq<string>)
    requires parts != []
    ensures Join(parts) == parts[0] + Join(parts[1..])
  {}

  lemma AddAssociates(a: string, b: string, c: string)
    ensures a + b + c == a + (b + c)
  {}

  lemma {:induction false} JoinAppend(a: seq<string>, b: seq<string>)
    ensures Join(a + b) == Join(a) + Join(b)
  {
    if a == [] {
      assert a + b == b;
    } else {
      JoinAppend(a[1..], b);
      JoinFirst(a + b);
      JoinFirst(a);
      assert (a + b)[1..] == a[1..] + b;
      hide Join;
      AddAssociates(a[0], Join(a[1..]), Join(b));
    }
  }

  /** isspace in the C locale. */
  predicate IsSpace(c: char) { c == ' ' || '\t' <= c <= '\r' }

  /** The text from its first character that is no space. */
  function TrimLeft(s: string): (r: string)
    ensures |r| <= |s| && (r != "" ==> !IsSpace(r[0]))
    decreases |s|
  {
    if s != "" && IsSpace(s[0]) then TrimLeft(s[1..]) else s
  }

  function Min(a: int, b: int): int { if a < b then a else b }

  function Max(a: int, b: int): int { if a < b then b else a }
}
