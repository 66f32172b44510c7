/** Splitting a quoted argument line in local_tools.cpp, and quoting paths for one. */
module RegTokens {
  import opened Text

  function QuotePath(path: string): string { "\"" + path + "\"" }

  /** The first place where the character test holds, or the length. */
  function Until(s: string, stop: char -> bool): (n: nat)
    ensures n <= |s| && (forall i :: 0 <= i < n ==> !stop(s[i])) && (n < |s| ==> stop(s[n]))
    decreases |s|
  {
    if s == "" || stop(s[0]) then 0 else 1 + Until(s[1..], stop)
  }

  function IsQuote(c: char): bool { c == '"' }

  function Cons(token: string, rest: Option<seq<string>>): Option<seq<string>> {
    match rest case None => None case Some(tokens) => Some([token] + tokens)
  }

  /** The tokens; None is an unterminated quote. */
  function SplitTokens(args: string): Option<seq<string>>
    decreases |args|
  {
    var s := TrimLeft(args);
    if s == "" then Some([])
    else if s[0] == '"' then
      var n := Until(s[1..], IsQuote);
      if n == |s| - 1 then None else Cons(s[1..n + 1], SplitTokens(s[n + 2..]))
    else
      var n := Until(s, IsSpace);
      Cons(s[..n], SplitTokens(s[n..]))
  }

  function Prepend(tokens: seq<string>, rest: Option<seq<string>>): Option<seq<string>> {
    match rest case None => None case Some(more) => Some(tokens + more)
  }

  lemma PrependNothing(r: Option<seq<string>>)
    ensures Prepend([], r) == r
  {
    if r.Some? { assert [] + r.value == r.value; }
  }

  lemma PrependOne(tokens: seq<string>, token: string, r: Option<seq<string>>)
    ensures Prepend(tokens, Cons(token, r)) == Prepend(tokens + [token], r)
  {
    if r.Some? { assert tokens + ([token] + r.value) == tokens + [token] + r.value; }
  }

  method SplitRegTokens(args: string) returns (r: Option<seq<string>>)
    ensures r == SplitTokens(args)
  {
    var tokens, i := [], 0;
    assert args[0..] == args;
    PrependNothing(SplitTokens(args));
    while i < |args|
      invariant 0 <= i <= |args|
      invariant SplitTokens(args) == Prepend(tokens, SplitTokens(args[i..]))
      decreases |args| - i
    {
      ghost var entered := i;
      while i < |args| && IsSpace(args[i])
        invariant entered <= i <= |args| && TrimLeft(args[i..]) == TrimLeft(args[entered..])
      {
        assert args[i..][1..] == args[i + 1..];
        i := i + 1;
      }
      SameTokens(args[entered..], args[i..]);
      if i >= |args| { break; }
      var token: string;
      if args[i] == '"' {
        i, token := ReadQuoted(args, i);
        if i > |args| { return None; }
      } else {
        i, token := ReadWord(args, i);
      }
      PrependOne(tokens, token, SplitTokens(args[i..]));
      tokens := tokens + [token];
    }
    assert args[|args|..] == "";
    assert tokens + [] == tokens;
    return Some(tokens);
  }

  lemma SameTokens(a: string, b: string)
    requires TrimLeft(a) == TrimLeft(b)
    ensures SplitTokens(a) == SplitTokens(b)
  {}

  /** The characters up to the closing quote; a result past the end is an unterminated quote. */
  method ReadQuoted(args: string, start: nat) returns (i: nat, token: string)
    requires start < |args| && args[start] == '"'
    ensures i > |args| ==> SplitTokens(args[start..]) == None
    ensures i <= |args| ==> i > start && SplitTokens(args[start..]) == Cons(token, SplitTokens(args[i..]))
  {
    hide SplitTokens;
    i, token := start + 1, "";
    while i < |args| && args[i] != '"'
      invariant start + 1 <= i <= |args| && token == args[start + 1..i]
      invariant forall k :: start < k < i ==> args[k] != '"'
    {
      token := token + [args[i]];
      i := i + 1;
    }
    QuotedIs(args[start..], |token|);
    if i >= |args| { return |args| + 1, token; }
    assert args[start..][|token| + 2..] == args[i + 1..];
    assert args[start..][1..|token| + 1] == token;
    i := i + 1;
  }

  lemma QuotedIs(s: string, n: nat)
    requires n < |s| && s[0] == '"' && forall i :: 1 <= i <= n ==> s[i] != '"'
    requires n + 1 < |s| ==> s[n + 1] == '"'
    ensures SplitTokens(s) == if n + 1 == |s| then None else Cons(s[1..n + 1], SplitTokens(s[n + 2..]))
  {
    UntilIs(s[1..], IsQuote, n);
    assert TrimLeft(s) == s;
  }

  method ReadWord(args: string, start: nat) returns (i: nat, token: string)
    requires start < |args| && args[start] != '"' && !IsSpace(args[start])
    ensures start < i <= |args| && SplitTokens(args[start..]) == Cons(token, SplitTokens(args[i..]))
  {
    i, token := start, "";
    while i < |args| && !IsSpace(args[i])
      invariant start <= i <= |args| && token == args[start..i]
      invariant forall c :: c in token ==> !IsSpace(c)
    {
      token := token + [args[i]];
      i := i + 1;
    }
    UntilIs(args[start..], IsSpace, |token|);
    assert TrimLeft(args[start..]) == args[start..];
    assert args[start..][|token|..] == args[i..];
    assert args[start..][..|token|] == token;
  }

  lemma {:induction false} UntilIs(s: string, stop: char -> bool, n: nat)
    requires n <= |s| && (forall i :: 0 <= i < n ==> !stop(s[i])) && (n < |s| ==> stop(s[n]))
    ensures Until(s, stop) == n
    decreases |s|
  {
    if n > 0 { UntilIs(s[1..], stop, n - 1); }
  }

  // ----- the round trip

  function Quoted(tokens: seq<string>): string
    decreases |tokens|
  {
    if tokens == [] then "" else QuotePath(tokens[0]) + (if |tokens| == 1 then "" else " ") + Quoted(tokens[1..])
  }

  /** A quoted text that holds no quote is read back whole; one that does is read up to it. */
  lemma QuotedReads(t: string, rest: string)
    ensures var n := Until(t, IsQuote);
            SplitTokens(QuotePath(t) + rest) == Cons(t[..n], SplitTokens((t[n..] + "\"" + rest)[1..]))
    ensures Until(t, IsQuote) == |t| <==> '"' !in t
  {
    var n := Until(t, IsQuote);
    var s := QuotePath(t) + rest;
    assert s[0] == '"' && TrimLeft(s) == s;
    assert s[1..] == t + "\"" + rest;
    UntilIs(s[1..], IsQuote, n);
    assert s[1..n + 1] == t[..n];
    assert s[n + 2..] == (t[n..] + "\"" + rest)[1..];
    if '"' in t {
      var i :| 0 <= i < |t| && t[i] == '"';
      assert n <= i;
    }
  }

  lemma ConsIs(token: string, r: Option<seq<string>>, tokens: seq<string>)
    requires tokens != []
    ensures Cons(token, r) == Some(tokens) <==> token == tokens[0] && r == Some(tokens[1..])
  {
    if r.Some? {
      assert ([token] + r.value)[1..] == r.value;
      assert [tokens[0]] + tokens[1..] == tokens;
    }
  }

  /** One quoted token in front of a line. */
  lemma QuotedFirst(t: string, gap: string, line: string, tokens: seq<string>)
    requires gap == "" || gap == " "
    requires tokens != [] && tokens[0] == t
    ensures SplitTokens(QuotePath(t) + (gap + line)) == Some(tokens) <==>
            '"' !in t && SplitTokens(line) == Some(tokens[1..])
  {
    hide SplitTokens, QuotePath;
    var n := Until(t, IsQuote);
    var rest := gap + line;
    QuotedReads(t, rest);
    var after := (t[n..] + "\"" + rest)[1..];
    ConsIs(t[..n], SplitTokens(after), tokens);
    if '"' in t {
      assert |t[..n]| != |t|;
    } else {
      assert t[..n] == t;
      assert t[n..] + "\"" + rest == "\"" + rest;
      assert after == rest;
      if gap == " " { assert rest[1..] == line && IsSpace(rest[0]); } else { assert rest == line; }
      SameTokens(rest, line);
    }
  }

  /** Quoting tokens one by one and splitting the line gives them back if and only if none holds a quote. */
  lemma {:induction false} QuotedRoundTrip(tokens: seq<string>)
    ensures SplitTokens(Quoted(tokens)) == Some(tokens) <==> forall t :: t in tokens ==> '"' !in t
    decreases |tokens|
  {
    assert SplitTokens("") == Some([]);
    hide SplitTokens, QuotePath;
    if tokens != [] {
      var t, more := tokens[0], tokens[1..];
      var gap := if |tokens| == 1 then "" else " ";
      assert QuotePath(t) + gap + Quoted(more) == QuotePath(t) + (gap + Quoted(more));
      QuotedFirst(t, gap, Quoted(more), tokens);
      QuotedRoundTrip(more);
      assert tokens == [t] + more;
    }
  }

  /** The line built for a bare path is read as `query` and that path, unless the path holds a quote. */
  lemma QueryRoundTrip(path: string)
    ensures SplitTokens("query " + QuotePath(path)) == Some(["query", path]) <==> '"' !in path
  {
    var s := "query " + QuotePath(path);
    QueryWord(QuotePath(path));
    assert SplitTokens("") == Some([]);
    hide SplitTokens, QuotePath;
    SameTokens(" " + QuotePath(path), QuotePath(path));
    ConsIs("query", SplitTokens(QuotePath(path)), ["query", path]);
    assert ["query", path][1..] == [path];
    QuotedFirst(path, "", "", [path]);
    assert QuotePath(path) + ("" + "") == QuotePath(path);
    assert [path][1..] == [];
  }

  lemma QueryWord(rest: string)
    ensures SplitTokens("query " + rest) == Cons("query", SplitTokens(" " + rest))
    ensures TrimLeft(" " + rest) == TrimLeft(rest)
  {
    var s := "query " + rest;
    assert s[0] == 'q' && TrimLeft(s) == s;
    UntilIs(s, IsSpace, 5);
    assert s[..5] == "query" && s[5..] == " " + rest;
    assert (" " + rest)[1..] == rest;
  }
}
