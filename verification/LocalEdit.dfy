/**
 The multi-file edit of local_edit.cpp: hunks are composed on a working copy, the files are
 written one by one, and the originals go back when a write or the check fails.
 */
module LocalEdit {
  import opened Text
  import opened ApplyBlocks

  type Files = map<string, string>

  // ----- line ends

  function StripCr(s: string): string
    decreases |s|
  {
    if s == "" then "" else (if s[0] == '\r' then "" else [s[0]]) + StripCr(s[1..])
  }

  function BreakLines(s: string): string
    decreases |s|
  {
    if s == "" then "" else (if s[0] == '\n' then "\r\n" else [s[0]]) + BreakLines(s[1..])
  }

  function ToCrlf(s: string): string { BreakLines(StripCr(s)) }

  /** match_file_newlines for one text. */
  function Matched(text: string, body: string): string {
    if Find(body, "\r\n", 0) != -1 then ToCrlf(text) else StripCr(text)
  }

  // ----- planning: the hunks on a working copy

  /** What the outside answers while one hunk is planned: two reads, and where the excerpt centres (-1 for nowhere). */
  datatype Answer = Answer(read: bool, readAgain: bool, at: int)

  datatype Plan = Plan(working: Files, originals: Files, edited: seq<string>, preview: string, beforeHash: string)

  /** The parts that stay fixed during a call: the path jail and the content hash. */
  datatype Env = Env(pathOk: string -> bool, hash: string -> string)

  const EMPTY := Plan(map[], map[], [], "", "")

  /** The window of the file on disk that an old text must be copied from. */
  function Excerpt(body: string, at: int): string {
    if at < 0 || at > |body| then
      if |body| > 4000 then body[|body| - 4000..] else body
    else
      var start := if at > 800 then at - 800 else 0;
      body[start..Min(start + 2400, |body|)]
  }

  function ExcerptOf(disk: Files, path: string, a: Answer): string {
    if a.readAgain && path in disk then Excerpt(disk[path], a.at) else ""
  }

  /** The working text of a path at its turn. */
  function BodyOf(p: Plan, disk: Files, path: string, a: Answer): Option<string> {
    if path in p.working then Some(p.working[path])
    else if a.read && path in disk then Some(disk[path])
    else None
  }

  /** Reading a file for the first time records its original, and the preview if there is none yet. */
  function Opened(env: Env, p: Plan, path: string, body: string): Plan {
    var p := if path in p.working then p
             else p.(originals := p.originals[path := body],
                     beforeHash := if p.preview == "" then env.hash(body) else p.beforeHash);
    if p.preview == "" then p.(preview := path) else p
  }

  /** The text with the hunk applied, or None where the program skips it. */
  function Swapped(body: string, h: Hunk, bound: string): Option<string> {
    var oldText, newText := Matched(h.oldText, body), Matched(h.newText, body);
    if body == "" && oldText == "" then Some(newText) else
    var at := Find(body, oldText, 0);
    if at == -1 || Find(body, oldText, at + 1) != -1 then None
    else if bound != "" && Find(StripCr(bound), StripCr(oldText), 0) == -1 then None
    else Some(body[..at] + newText + body[at + |oldText|..])
  }

  /** What a hunk makes of the plan's text for its path; None is a skipped hunk. */
  function NewBody(env: Env, p: Plan, disk: Files, h: Hunk, a: Answer): Option<string> {
    if !env.pathOk(h.path) then None else
    match BodyOf(p, disk, h.path, a)
    case None => None
    case Some(body) => Swapped(body, h, ExcerptOf(disk, h.path, a))
  }

  function Turn(env: Env, p: Plan, disk: Files, h: Hunk, a: Answer): Plan {
    if !env.pathOk(h.path) || BodyOf(p, disk, h.path, a).None? then p else
    var q := Opened(env, p, h.path, BodyOf(p, disk, h.path, a).value);
    match NewBody(env, p, disk, h, a)
    case None => q
    case Some(body) =>
      q.(working := q.working[h.path := body],
         edited := if h.path in q.edited then q.edited else q.edited + [h.path])
  }

  function PlanOf(env: Env, p: Plan, disk: Files, hunks: seq<Hunk>, answers: seq<Answer>): Plan
    requires |hunks| == |answers|
    decreases |hunks|
  {
    if hunks == [] then p
    else PlanOf(env, Turn(env, p, disk, hunks[0], answers[0]), disk, hunks[1..], answers[1..])
  }

  /** The hunks that were not skipped, in order. */
  function Accepted(env: Env, p: Plan, disk: Files, hunks: seq<Hunk>, answers: seq<Answer>): seq<Hunk>
    requires |hunks| == |answers|
    decreases |hunks|
  {
    if hunks == [] then [] else
    (if NewBody(env, p, disk, hunks[0], answers[0]).Some? then [hunks[0]] else [])
    + Accepted(env, Turn(env, p, disk, hunks[0], answers[0]), disk, hunks[1..], answers[1..])
  }

  // ----- what an edit means, apart from how the program does it

  /** The text stands in the body exactly once, here. */
  ghost predicate OnlyAt(body: string, text: string, at: int) {
    IsAt(body, text, at) && forall i :: IsAt(body, text, i) ==> i == at
  }

  /** The hunk's only occurrence, with the file's line ends, is replaced and nothing else changes. */
  ghost predicate Applies(h: Hunk, from: string, to: string) {
    exists at :: OnlyAt(from, Matched(h.oldText, from), at)
                 && to == from[..at] + Matched(h.newText, from) + from[at + |Matched(h.oldText, from)|..]
  }

  /** The hunks apply one after the other. */
  ghost predicate Rewrites(hs: seq<Hunk>, from: string, to: string)
    decreases |hs|
  {
    if hs == [] then from == to else exists mid :: Applies(hs[0], from, mid) && Rewrites(hs[1..], mid, to)
  }

  /** The hunks of one path, in order. */
  function For(hs: seq<Hunk>, path: string): seq<Hunk>
    decreases |hs|
  {
    if hs == [] then [] else For(hs[..|hs| - 1], path) + if hs[|hs| - 1].path == path then [hs[|hs| - 1]] else []
  }

  /** A hunk is applied exactly when its old text stands once, and in the excerpt if there is one. */
  lemma SwappedIff(body: string, h: Hunk, bound: string, to: string)
    ensures var oldText := Matched(h.oldText, body);
            Swapped(body, h, bound) == Some(to) <==>
            (Applies(h, body, to)
             && (bound == "" || (body == "" && oldText == "") || Contains(StripCr(bound), StripCr(oldText))))
  {
    hide StripCr, Matched, Find;
    var oldText := Matched(h.oldText, body);
    var at := Find(body, oldText, 0);
    var inBound := Find(StripCr(bound), StripCr(oldText), 0);
    assert inBound != -1 <==> Contains(StripCr(bound), StripCr(oldText));
    if at != -1 {
      var next := Find(body, oldText, at + 1);
      assert IsAt(body, oldText, at);
      if next == -1 {
        assert OnlyAt(body, oldText, at);
      } else {
        assert IsAt(body, oldText, next) && !OnlyAt(body, oldText, at);
        assert forall i :: !OnlyAt(body, oldText, i);
      }
      if body == "" && oldText == "" {
        assert OnlyAt(body, oldText, 0);
        assert body[..0] + Matched(h.newText, body) + body[0..] == Matched(h.newText, body);
      }
    } else {
      assert forall i :: !OnlyAt(body, oldText, i);
      assert oldText == "" ==> IsAt(body, oldText, 0);
    }
  }

  lemma AppliesOnce(h: Hunk, from: string, a: string, b: string)
    requires Applies(h, from, a) && Applies(h, from, b)
    ensures a == b
  {
    hide Matched, IsAt;
  }

  /** A list of hunks rewrites a text in one way only. */
  lemma {:induction false} RewritesOnce(hs: seq<Hunk>, from: string, a: string, b: string)
    requires Rewrites(hs, from, a) && Rewrites(hs, from, b)
    ensures a == b
    decreases |hs|
  {
    hide Applies;
    if hs != [] {
      var x :| Applies(hs[0], from, x) && Rewrites(hs[1..], x, a);
      var y :| Applies(hs[0], from, y) && Rewrites(hs[1..], y, b);
      AppliesOnce(hs[0], from, x, y);
      RewritesOnce(hs[1..], x, a, b);
    }
  }

  lemma {:induction false} RewritesAppend(hs: seq<Hunk>, h: Hunk, from: string, mid: string, to: string)
    requires Rewrites(hs, from, mid) && Applies(h, mid, to)
    ensures Rewrites(hs + [h], from, to)
    decreases |hs|
  {
    hide Applies;
    if hs == [] {
      assert (hs + [h])[1..] == [] && Rewrites([], to, to);
    } else {
      var next :| Applies(hs[0], from, next) && Rewrites(hs[1..], next, mid);
      RewritesAppend(hs[1..], h, next, mid, to);
      assert (hs + [h])[1..] == hs[1..] + [h];
    }
  }

  ghost predicate StandsOnce(body: string, text: string) { exists at :: OnlyAt(body, text, at) }

  /** Why a hunk is refused at its turn, given the texts edited so far. */
  ghost predicate Refused(env: Env, texts: Files, disk: Files, h: Hunk, a: Answer) {
    || !env.pathOk(h.path)
    || (h.path !in texts && !(a.read && h.path in disk))
    || var text := if h.path in texts then texts[h.path] else disk[h.path];
       var oldText, bound := Matched(h.oldText, text), ExcerptOf(disk, h.path, a);
       || !StandsOnce(text, oldText)
       || (bound != "" && (text != "" || oldText != "") && !Contains(StripCr(bound), StripCr(oldText)))
  }

  /**
   What is accepted of a list of hunks: exactly those that are not refused at their turn, in order,
   each applied to its text before the next is looked at.
   */
  ghost predicate Sifts(env: Env, texts: Files, disk: Files, hunks: seq<Hunk>, answers: seq<Answer>,
                        accepted: seq<Hunk>)
    requires |hunks| == |answers|
    decreases |hunks|
  {
    if hunks == [] then accepted == []
    else if Refused(env, texts, disk, hunks[0], answers[0]) then
      Sifts(env, texts, disk, hunks[1..], answers[1..], accepted)
    else
      var h := hunks[0];
      var text := if h.path in texts then texts[h.path] else disk[h.path];
      && accepted != [] && accepted[0] == h
      && exists to ::
           Applies(h, text, to) && Sifts(env, texts[h.path := to], disk, hunks[1..], answers[1..], accepted[1..])
  }

  /** A hunk is skipped exactly when it is refused; otherwise it is applied. */
  lemma SkippedIffRefused(env: Env, p: Plan, disk: Files, h: Hunk, a: Answer)
    ensures var to := NewBody(env, p, disk, h, a);
            && (to.None? <==> Refused(env, p.working, disk, h, a))
            && (to.Some? ==> Applies(h, if h.path in p.working then p.working[h.path] else disk[h.path], to.value))
    ensures Turn(env, p, disk, h, a).working ==
            var to := NewBody(env, p, disk, h, a); if to.Some? then p.working[h.path := to.value] else p.working
  {
    hide Matched, StripCr, Swapped, Excerpt, Applies, StandsOnce;
    if env.pathOk(h.path) && BodyOf(p, disk, h.path, a).Some? {
      var text, bound := BodyOf(p, disk, h.path, a).value, ExcerptOf(disk, h.path, a);
      if NewBody(env, p, disk, h, a).Some? {
        SwappedIff(text, h, bound, NewBody(env, p, disk, h, a).value);
        StandsIffApplies(h, text);
        assert !Refused(env, p.working, disk, h, a);
      } else if !Refused(env, p.working, disk, h, a) {
        StandsIffApplies(h, text);
        var to :| Applies(h, text, to);
        SwappedIff(text, h, bound, to);
      }
    }
  }

  lemma StandsIffApplies(h: Hunk, from: string)
    ensures (exists to :: Applies(h, from, to)) <==> StandsOnce(from, Matched(h.oldText, from))
  {
    hide Matched;
    if at :| OnlyAt(from, Matched(h.oldText, from), at) {
      var to := from[..at] + Matched(h.newText, from) + from[at + |Matched(h.oldText, from)|..];
      assert Applies(h, from, to);
    }
  }

  lemma {:induction false} AcceptedIsSifted(env: Env, p: Plan, disk: Files, hunks: seq<Hunk>, answers: seq<Answer>)
    requires |hunks| == |answers|
    ensures Sifts(env, p.working, disk, hunks, answers, Accepted(env, p, disk, hunks, answers))
    decreases |hunks|
  {
    hide NewBody, Turn, Refused, Applies;
    if hunks != [] {
      var h, a := hunks[0], answers[0];
      SkippedIffRefused(env, p, disk, h, a);
      AcceptedIsSifted(env, Turn(env, p, disk, h, a), disk, hunks[1..], answers[1..]);
      var to := NewBody(env, p, disk, h, a);
      var more := Accepted(env, Turn(env, p, disk, h, a), disk, hunks[1..], answers[1..]);
      if to.Some? {
        assert Accepted(env, p, disk, hunks, answers)[1..] == more;
        assert Sifts(env, p.working[h.path := to.value], disk, hunks[1..], answers[1..], more);
      } else {
        assert Accepted(env, p, disk, hunks, answers) == more;
      }
    }
  }

  lemma NotRefusedReads(env: Env, texts: Files, disk: Files, h: Hunk, a: Answer)
    requires !Refused(env, texts, disk, h, a)
    ensures h.path in texts || h.path in disk
  {}

  /** One list only is accepted. */
  lemma {:induction false} SiftsOnce(env: Env, texts: Files, disk: Files, hunks: seq<Hunk>, answers: seq<Answer>,
                                     a: seq<Hunk>, b: seq<Hunk>)
    requires |hunks| == |answers|
    requires Sifts(env, texts, disk, hunks, answers, a) && Sifts(env, texts, disk, hunks, answers, b)
    ensures a == b
    decreases |hunks|
  {
    hide Refused, Applies;
    if hunks != [] {
      var h := hunks[0];
      if Refused(env, texts, disk, h, answers[0]) {
        SiftsOnce(env, texts, disk, hunks[1..], answers[1..], a, b);
      } else {
        NotRefusedReads(env, texts, disk, h, answers[0]);
        var text := if h.path in texts then texts[h.path] else disk[h.path];
        var x :| Applies(h, text, x) && Sifts(env, texts[h.path := x], disk, hunks[1..], answers[1..], a[1..]);
        var y :| Applies(h, text, y) && Sifts(env, texts[h.path := y], disk, hunks[1..], answers[1..], b[1..]);
        AppliesOnce(h, text, x, y);
        SiftsOnce(env, texts[h.path := x], disk, hunks[1..], answers[1..], a[1..], b[1..]);
        assert a == [a[0]] + a[1..] && b == [b[0]] + b[1..];
      }
    }
  }

  /** The previewed file is that of the first hunk whose path is allowed and whose file can be read. */
  ghost predicate Previews(env: Env, disk: Files, hunks: seq<Hunk>, answers: seq<Answer>, path: string)
    requires |hunks| == |answers|
  {
    exists k :: 0 <= k < |hunks| && Readable(env, disk, hunks[k], answers[k]) && path == hunks[k].path
                && forall j :: 0 <= j < k ==> !Readable(env, disk, hunks[j], answers[j])
  }

  predicate Readable(env: Env, disk: Files, h: Hunk, a: Answer) { env.pathOk(h.path) && a.read && h.path in disk }

  lemma {:induction false} PreviewStays(env: Env, p: Plan, disk: Files, hunks: seq<Hunk>, answers: seq<Answer>)
    requires |hunks| == |answers| && p.preview != ""
    ensures PlanOf(env, p, disk, hunks, answers).preview == p.preview
    decreases |hunks|
  {
    hide NewBody, BodyOf;
    if hunks != [] { PreviewStays(env, Turn(env, p, disk, hunks[0], answers[0]), disk, hunks[1..], answers[1..]); }
  }

  /** As long as nothing was read there are no working texts, so each hunk needs its own read. */
  lemma {:induction false} PreviewIsFirst(env: Env, p: Plan, disk: Files, hunks: seq<Hunk>, answers: seq<Answer>)
    requires |hunks| == |answers| && p.preview == "" && p.working == map[] && !env.pathOk("")
    ensures var path := PlanOf(env, p, disk, hunks, answers).preview;
            if path == "" then forall k :: 0 <= k < |hunks| ==> !Readable(env, disk, hunks[k], answers[k])
            else Previews(env, disk, hunks, answers, path)
    decreases |hunks|
  {
    hide NewBody;
    if hunks != [] {
      var h, a := hunks[0], answers[0];
      var next := Turn(env, p, disk, h, a);
      if Readable(env, disk, h, a) {
        PreviewStays(env, next, disk, hunks[1..], answers[1..]);
      } else {
        assert next == p;
        PreviewIsFirst(env, p, disk, hunks[1..], answers[1..]);
        var path := PlanOf(env, p, disk, hunks[1..], answers[1..]).preview;
        if path != "" {
          var k :| 0 <= k < |hunks[1..]| && Readable(env, disk, hunks[1..][k], answers[1..][k])
                   && path == hunks[1..][k].path
                   && forall j :: 0 <= j < k ==> !Readable(env, disk, hunks[1..][j], answers[1..][j]);
          forall j | 0 <= j < k + 1 ensures !Readable(env, disk, hunks[j], answers[j]) {
            if j > 0 { assert hunks[1..][j - 1] == hunks[j] && answers[1..][j - 1] == answers[j]; }
          }
          assert hunks[1..][k] == hunks[k + 1] && answers[1..][k] == answers[k + 1];
        } else {
          forall j | 0 <= j < |hunks| ensures !Readable(env, disk, hunks[j], answers[j]) {
            if j > 0 { assert hunks[1..][j - 1] == hunks[j] && answers[1..][j - 1] == answers[j]; }
          }
        }
      }
    }
  }

  // ----- a plan is exactly its accepted hunks

  /** The texts are the originals rewritten by the accepted hunks of each path, and there are no others. */
  ghost predicate TextsFollow(accepted: seq<Hunk>, p: Plan) {
    && (forall q :: q in p.working <==> For(accepted, q) != [])
    && (forall q :: q in p.working ==> q in p.originals && Rewrites(For(accepted, q), p.originals[q], p.working[q]))
  }

  /** The originals are what the disk holds, and the preview is one of them. */
  ghost predicate OriginalsTrue(env: Env, disk: Files, p: Plan) {
    && (forall q :: q in p.originals ==> env.pathOk(q) && q in disk && p.originals[q] == disk[q])
    && (p.preview == "" <==> p.originals == map[])
    && (p.preview != "" ==> p.preview in p.originals && p.beforeHash == env.hash(p.originals[p.preview]))
  }

  /** The edited list names each changed file once. */
  ghost predicate EditedOnce(p: Plan) {
    && (forall q :: q in p.edited <==> q in p.working)
    && (forall i, j :: 0 <= i < j < |p.edited| ==> p.edited[i] != p.edited[j])
  }

  ghost predicate Good(env: Env, disk: Files, accepted: seq<Hunk>, p: Plan) {
    TextsFollow(accepted, p) && OriginalsTrue(env, disk, p) && EditedOnce(p)
  }

  lemma OpenKeeps(env: Env, disk: Files, accepted: seq<Hunk>, p: Plan, h: Hunk, a: Answer)
    requires Good(env, disk, accepted, p) && env.pathOk(h.path) && h.path != ""
    requires BodyOf(p, disk, h.path, a).Some?
    ensures var q := Opened(env, p, h.path, BodyOf(p, disk, h.path, a).value);
            Good(env, disk, accepted, q) && h.path in q.originals && q.working == p.working && q.edited == p.edited
  {
    hide For, Rewrites;
  }

  lemma TurnKeeps(env: Env, disk: Files, accepted: seq<Hunk>, p: Plan, h: Hunk, a: Answer)
    requires Good(env, disk, accepted, p) && !env.pathOk("")
    ensures var more := if NewBody(env, p, disk, h, a).Some? then [h] else [];
            Good(env, disk, accepted + more, Turn(env, p, disk, h, a))
  {
    if !env.pathOk(h.path) || BodyOf(p, disk, h.path, a).None? {
      assert accepted + [] == accepted;
    } else {
      OpenKeeps(env, disk, accepted, p, h, a);
      var body := BodyOf(p, disk, h.path, a).value;
      var q := Opened(env, p, h.path, body);
      var to := NewBody(env, p, disk, h, a);
      if to.None? {
        assert accepted + [] == accepted;
      } else {
        SwappedIff(body, h, ExcerptOf(disk, h.path, a), to.value);
        AcceptKeeps(env, disk, accepted, q, h, body, to.value);
      }
    }
  }

  lemma AcceptKeeps(env: Env, disk: Files, accepted: seq<Hunk>, q: Plan, h: Hunk, body: string, to: string)
    requires Good(env, disk, accepted, q) && h.path in q.originals
    requires body == if h.path in q.working then q.working[h.path] else q.originals[h.path]
    requires Applies(h, body, to)
    ensures Good(env, disk, accepted + [h],
                 q.(working := q.working[h.path := to],
                    edited := if h.path in q.edited then q.edited else q.edited + [h.path]))
  {
    hide Rewrites, Applies, For, Find, Matched, OriginalsTrue;
    var p := q.(working := q.working[h.path := to],
                edited := if h.path in q.edited then q.edited else q.edited + [h.path]);
    forall path ensures For(accepted + [h], path) == For(accepted, path) + if h.path == path then [h] else [] {
      ForAppend(accepted, h, path);
    }
    RewritesNothing(body);
    RewritesAppend(For(accepted, h.path), h, q.originals[h.path], body, to);
    forall path | path in p.working
      ensures path in p.originals && Rewrites(For(accepted + [h], path), p.originals[path], p.working[path])
    {
      if path != h.path {
        assert For(accepted, path) + [] == For(accepted, path);
      }
    }
    assert TextsFollow(accepted + [h], p);
    assert EditedOnce(p) by { hide TextsFollow; }
    SameOriginals(env, disk, q, p);
  }

  lemma SameOriginals(env: Env, disk: Files, p: Plan, q: Plan)
    requires OriginalsTrue(env, disk, p)
    requires p.originals == q.originals && p.preview == q.preview && p.beforeHash == q.beforeHash
    ensures OriginalsTrue(env, disk, q)
  {}

  lemma RewritesNothing(body: string)
    ensures Rewrites([], body, body)
  {}

  lemma ForAppend(hs: seq<Hunk>, h: Hunk, path: string)
    ensures For(hs + [h], path) == For(hs, path) + if h.path == path then [h] else []
  {
    assert (hs + [h])[..|hs|] == hs;
  }

  lemma {:induction false} PlanKeeps(env: Env, disk: Files, accepted: seq<Hunk>, p: Plan, hunks: seq<Hunk>,
                                     answers: seq<Answer>)
    requires |hunks| == |answers| && Good(env, disk, accepted, p) && !env.pathOk("")
    ensures Good(env, disk, accepted + Accepted(env, p, disk, hunks, answers), PlanOf(env, p, disk, hunks, answers))
    decreases |hunks|
  {
    hide Good, Turn, NewBody;
    if hunks == [] {
      assert accepted + [] == accepted;
    } else {
      var more := if NewBody(env, p, disk, hunks[0], answers[0]).Some? then [hunks[0]] else [];
      var next := Turn(env, p, disk, hunks[0], answers[0]);
      TurnKeeps(env, disk, accepted, p, hunks[0], answers[0]);
      PlanKeeps(env, disk, accepted + more, next, hunks[1..], answers[1..]);
      var rest := Accepted(env, next, disk, hunks[1..], answers[1..]);
      assert accepted + more + rest == accepted + (more + rest);
    }
  }

  /** Every plan's texts are the files on disk rewritten, in order, by their own accepted hunks. */
  lemma PlanIsItsHunks(env: Env, disk: Files, hunks: seq<Hunk>, answers: seq<Answer>)
    requires |hunks| == |answers| && !env.pathOk("")
    ensures Good(env, disk, Accepted(env, EMPTY, disk, hunks, answers), PlanOf(env, EMPTY, disk, hunks, answers))
  {
    PlanKeeps(env, disk, [], EMPTY, hunks, answers);
    var all := Accepted(env, EMPTY, disk, hunks, answers);
    assert [] + all == all;
  }

  // ----- the excerpt rule

  lemma StripFirst(c: char, s: string)
    ensures StripCr([c] + s) == (if c == '\r' then "" else [c]) + StripCr(s)
  {
    assert ([c] + s)[1..] == s;
  }

  lemma {:induction false} StripAppend(a: string, b: string)
    ensures StripCr(a + b) == StripCr(a) + StripCr(b)
    decreases |a|
  {
    assert StripCr("") == "";
    hide StripCr;
    if a == "" {
      assert a + b == b;
    } else {
      var c, more := a[0], a[1..];
      StripAppend(more, b);
      assert a == [c] + more && a + b == [c] + (more + b);
      StripFirst(c, more + b);
      StripFirst(c, more);
      AddAssociates(if c == '\r' then "" else [c], StripCr(more), StripCr(b));
    }
  }

  lemma {:induction false} StripOfStripped(s: string)
    requires '\r' !in s
    ensures StripCr(s) == s
    decreases |s|
  {
    if s != "" {
      assert s[0] in s && forall c :: c in s[1..] ==> c in s;
      StripOfStripped(s[1..]);
    }
  }

  lemma {:induction false} StripIsFree(s: string)
    ensures '\r' !in StripCr(s)
    decreases |s|
  {
    if s != "" { StripIsFree(s[1..]); }
  }

  lemma {:induction false} StripOfBroken(s: string)
    requires '\r' !in s
    ensures StripCr(BreakLines(s)) == s
    decreases |s|
  {
    if s != "" {
      assert s[0] in s && forall c :: c in s[1..] ==> c in s;
      StripOfBroken(s[1..]);
      var first := if s[0] == '\n' then "\r\n" else [s[0]];
      StripAppend(first, BreakLines(s[1..]));
      assert StripCr(first) == [s[0]] by {
        assert s[0] == '\n' ==> first[1..] == "\n";
        assert StripCr("\n") == "\n";
      }
    }
  }

  /** Matching line ends changes carriage returns only. */
  lemma MatchedStrips(text: string, body: string)
    ensures StripCr(Matched(text, body)) == StripCr(text)
  {
    hide Find;
    StripIsFree(text);
    StripOfStripped(StripCr(text));
    StripOfBroken(StripCr(text));
  }

  lemma ContainsInSlice(a: string, b: string, c: string, m: string)
    requires Contains(b, m)
    ensures Contains(a + b + c, m)
  {
    var i :| IsAt(b, m, i);
    assert (a + b + c)[|a| + i..|a| + i + |m|] == m by {
      assert (a + b + c)[|a| + i..|a| + i + |m|] == b[i..i + |m|];
    }
    assert IsAt(a + b + c, m, |a| + i);
  }

  /** The excerpt is a window of the file, empty only for an empty file. */
  lemma ExcerptIsWindow(body: string, at: int)
    ensures exists a: string, c: string :: body == a + Excerpt(body, at) + c
    ensures body != "" ==> Excerpt(body, at) != ""
  {
    var e := Excerpt(body, at);
    if at < 0 || at > |body| {
      var start := if |body| > 4000 then |body| - 4000 else 0;
      assert body == body[..start] + e + "";
    } else {
      var start := if at > 800 then at - 800 else 0;
      var stop := Min(start + 2400, |body|);
      assert body == body[..start] + body[start..stop] + body[stop..];
    }
  }

  /** The file on disk holds what the working text holds, carriage returns aside, or shows an excerpt. */
  ghost predicate Anchored(disk: Files, path: string, a: Answer, body: string) {
    path in disk && (ExcerptOf(disk, path, a) != "" || Contains(StripCr(disk[path]), StripCr(body)))
  }

  /** An accepted hunk copies its old text from the file as it stands on disk, if that is anchored. */
  lemma OldTextIsOnDisk(env: Env, p: Plan, disk: Files, h: Hunk, a: Answer)
    requires NewBody(env, p, disk, h, a).Some?
    requires Anchored(disk, h.path, a, BodyOf(p, disk, h.path, a).value)
    ensures Contains(StripCr(disk[h.path]), StripCr(h.oldText))
  {
    hide Matched, StripCr, Swapped, Excerpt;
    var body, bound := BodyOf(p, disk, h.path, a).value, ExcerptOf(disk, h.path, a);
    var oldText := Matched(h.oldText, body);
    SwappedIff(body, h, bound, NewBody(env, p, disk, h, a).value);
    MatchedStrips(h.oldText, body);
    if oldText == "" && body == "" {
      EmptyIsAnywhere(StripCr(disk[h.path]));
    } else if bound != "" {
      ExcerptIsWindow(disk[h.path], a.at);
      var x: string, y: string :| disk[h.path] == x + bound + y;
      StripAppend(x + bound, y);
      StripAppend(x, bound);
      ContainsInSlice(StripCr(x), StripCr(bound), StripCr(y), StripCr(h.oldText));
    } else {
      var at :| OnlyAt(body, oldText, at);
      StrippedContains(body, oldText);
      ContainsThrough(StripCr(disk[h.path]), StripCr(body), StripCr(h.oldText));
    }
  }

  lemma StrippedContains(s: string, m: string)
    requires Contains(s, m)
    ensures Contains(StripCr(s), StripCr(m))
  {
    hide StripCr;
    var i :| IsAt(s, m, i);
    assert s == s[..i] + m + s[i + |m|..];
    StripAppend(s[..i] + m, s[i + |m|..]);
    StripAppend(s[..i], m);
    assert IsAt(StripCr(m), StripCr(m), 0);
    ContainsInSlice(StripCr(s[..i]), StripCr(m), StripCr(s[i + |m|..]), StripCr(m));
  }

  lemma ContainsThrough(s: string, m: string, part: string)
    requires Contains(s, m) && Contains(m, part)
    ensures Contains(s, part)
  {
    var i :| IsAt(s, m, i);
    assert s == s[..i] + m + s[i + |m|..];
    ContainsInSlice(s[..i], m, s[i + |m|..], part);
  }

  lemma EmptyIsAnywhere(s: string)
    ensures StripCr("") == "" && Contains(s, "")
  {
    assert IsAt(s, "", 0);
  }

  // ----- line ends survive an edit

  predicate BreakOk(s: string, i: nat)
    requires i < |s|
  {
    && (s[i] == '\n' ==> i > 0 && s[i - 1] == '\r')
    && (s[i] == '\r' ==> i + 1 < |s| && s[i + 1] == '\n')
  }

  /** Every line break is CR LF and no carriage return stands alone. */
  predicate CrLf(s: string) { forall i :: 0 <= i < |s| ==> BreakOk(s, i) }

  predicate Uniform(s: string) { '\r' !in s || CrLf(s) }

  lemma CrLfAppend(a: string, b: string)
    requires CrLf(a) && CrLf(b)
    ensures CrLf(a + b)
  {
    forall i | 0 <= i < |a + b| ensures BreakOk(a + b, i) {
      if i < |a| { assert BreakOk(a, i); } else { assert BreakOk(b, i - |a|); }
    }
  }

  lemma {:induction false} BrokenIsCrLf(s: string)
    requires '\r' !in s
    ensures CrLf(BreakLines(s))
    decreases |s|
  {
    if s != "" {
      assert s[0] in s && forall c :: c in s[1..] ==> c in s;
      BrokenIsCrLf(s[1..]);
      CrLfAppend(if s[0] == '\n' then "\r\n" else [s[0]], BreakLines(s[1..]));
    }
  }

  /** Cutting a CR LF text around a CR LF part leaves CR LF on both sides. */
  lemma CutKeepsCrLf(s: string, t: string, at: nat)
    requires CrLf(s) && CrLf(t) && IsAt(s, t, at) && t != ""
    ensures CrLf(s[..at]) && CrLf(s[at + |t|..])
  {
    CharAt(s, t, at, 0);
    CharAt(s, t, at, |t| - 1);
    assert BreakOk(t, 0) && BreakOk(t, |t| - 1);
    forall i | 0 <= i < at ensures BreakOk(s[..at], i) {
      assert BreakOk(s, i);
    }
    var rest := s[at + |t|..];
    forall i | 0 <= i < |rest| ensures BreakOk(rest, i) {
      assert BreakOk(s, at + |t| + i);
    }
  }

  /** A file whose line ends are all of one kind keeps them so through every list of hunks. */
  lemma {:induction false} LineEndsStayUniform(hs: seq<Hunk>, from: string, to: string)
    requires Rewrites(hs, from, to) && Uniform(from)
    ensures Uniform(to)
    decreases |hs|
  {
    hide Applies, Uniform;
    if hs != [] {
      var mid :| Applies(hs[0], from, mid) && Rewrites(hs[1..], mid, to);
      OneEditStaysUniform(hs[0], from, mid);
      LineEndsStayUniform(hs[1..], mid, to);
    }
  }

  lemma OneEditStaysUniform(h: Hunk, from: string, to: string)
    requires Applies(h, from, to) && Uniform(from)
    ensures Uniform(to)
  {
    hide StripCr, BreakLines, CrLf;
    var oldText, newText := Matched(h.oldText, from), Matched(h.newText, from);
    var at :| OnlyAt(from, oldText, at) && to == from[..at] + newText + from[at + |oldText|..];
    StripIsFree(h.oldText);
    StripIsFree(h.newText);
    if Find(from, "\r\n", 0) == -1 {
      BreakFree(from);
      assert '\r' !in to;
    } else {
      HasReturn(from);
      BrokenIsCrLf(StripCr(h.oldText));
      BrokenIsCrLf(StripCr(h.newText));
      EmptyIsTwice(from, at);
      CutKeepsCrLf(from, oldText, at);
      CrLfAppend(from[..at], newText);
      CrLfAppend(from[..at] + newText, from[at + |oldText|..]);
    }
  }

  lemma EmptyIsTwice(s: string, at: int)
    requires s != ""
    ensures !OnlyAt(s, "", at)
  {
    assert IsAt(s, "", 0) && IsAt(s, "", 1);
  }

  lemma BreakFree(s: string)
    requires Uniform(s) && Find(s, "\r\n", 0) == -1
    ensures '\r' !in s
  {
    if '\r' in s {
      var i :| 0 <= i < |s| && s[i] == '\r';
      assert BreakOk(s, i);
      assert s[i..i + 2] == "\r\n";
      assert IsAt(s, "\r\n", i);
    }
  }

  lemma HasReturn(s: string)
    requires Find(s, "\r\n", 0) != -1
    ensures '\r' in s && |s| >= 2
  {
    CharAt(s, "\r\n", Find(s, "\r\n", 0), 0);
  }

  // ----- when the excerpt rule keeps old texts to the disk

  /** Every old text that a hunk for this path could now be accepted with stands in the file on disk. */
  ghost predicate OnlyFromDisk(env: Env, p: Plan, disk: Files, path: string, a: Answer) {
    forall h: Hunk :: h.path == path && NewBody(env, p, disk, h, a).Some? ==>
      path in disk && Contains(StripCr(disk[path]), StripCr(h.oldText))
  }

  lemma {:induction false} BrokenAgain(s: string)
    requires CrLf(s)
    ensures BreakLines(StripCr(s)) == s
    decreases |s|
  {
    if s != "" {
      assert BreakOk(s, 0);
      var n := if s[0] == '\r' then 2 else 1;
      forall i | 0 <= i < |s[n..]| ensures BreakOk(s[n..], i) {
        assert BreakOk(s, n + i) && BreakOk(s, n - 1);
      }
      BrokenAgain(s[n..]);
      if n == 2 { BreakAgain(s); }
    }
  }

  lemma BreakAgain(s: string)
    requires |s| >= 2 && s[0] == '\r' && s[1] == '\n'
    ensures BreakLines(StripCr(s)) == "\r\n" + BreakLines(StripCr(s[2..]))
  {
    assert s[1..][1..] == s[2..];
    var more := StripCr(s[2..]);
    assert StripCr(s) == "" + StripCr(s[1..]) == ['\n'] + more;
    assert (['\n'] + more)[1..] == more;
  }

  /** With line ends of one kind, a text is its own old text as the program matches it. */
  lemma MatchedItself(body: string)
    requires Uniform(body)
    ensures Matched(body, body) == body
  {
    hide StripCr, BreakLines, CrLf;
    if Find(body, "\r\n", 0) == -1 {
      BreakFree(body);
      StripOfStripped(body);
    } else {
      HasReturn(body);
      BrokenAgain(body);
    }
  }

  /**
   Old texts come from the disk if the file is anchored; and for a working text with line ends of one
   kind only then: its own whole text would be accepted as an old text.
   */
  lemma OnlyFromDiskIff(env: Env, p: Plan, disk: Files, path: string, a: Answer)
    requires env.pathOk(path) && path in disk && BodyOf(p, disk, path, a).Some?
    ensures var body := BodyOf(p, disk, path, a).value;
            && (Anchored(disk, path, a, body) ==> OnlyFromDisk(env, p, disk, path, a))
            && (Uniform(body) ==> (OnlyFromDisk(env, p, disk, path, a) <==> Anchored(disk, path, a, body)))
  {
    hide Matched, StripCr, Swapped, Uniform, Excerpt;
    var body := BodyOf(p, disk, path, a).value;
    if Anchored(disk, path, a, body) {
      forall h: Hunk | h.path == path && NewBody(env, p, disk, h, a).Some?
        ensures path in disk && Contains(StripCr(disk[path]), StripCr(h.oldText))
      {
        OldTextIsOnDisk(env, p, disk, h, a);
      }
    } else if Uniform(body) {
      var h := Hunk(path, body, "");
      MatchedItself(body);
      WholeIsSwapped(body, h);
      assert NewBody(env, p, disk, h, a).Some?;
    }
  }

  /** Where no excerpt is shown, the whole text is accepted as an old text. */
  lemma WholeIsSwapped(body: string, h: Hunk)
    requires h.oldText == body && Matched(body, body) == body
    ensures Swapped(body, h, "").Some?
  {
    hide Matched;
    assert IsAt(body, body, 0);
  }

  /** The rule fails on an empty file: the second hunk's old text is what the first one wrote. */
  lemma EmptyFileIsNotAnchored(env: Env, at: int)
    requires env.pathOk("f")
    ensures var disk, hunks := map["f" := ""], [Hunk("f", "", "abc"), Hunk("f", "abc", "def")];
            var a := Answer(true, true, at);
            && Accepted(env, EMPTY, disk, hunks, [a, a]) == hunks
            && !Contains(StripCr(disk["f"]), StripCr("abc"))
  {
    var disk, a := map["f" := ""], Answer(true, true, at);
    var one, two := Hunk("f", "", "abc"), Hunk("f", "abc", "def");
    PlainSwaps();
    hide Swapped, StripCr;
    assert ExcerptOf(disk, "f", a) == "";
    var p := Turn(env, EMPTY, disk, one, a);
    assert NewBody(env, EMPTY, disk, one, a) == Some("abc") && p.working["f"] == "abc";
    assert NewBody(env, p, disk, two, a) == Some("def");
    TwoAccepted(env, disk, one, two, a);
  }

  lemma TwoAccepted(env: Env, disk: Files, one: Hunk, two: Hunk, a: Answer)
    requires NewBody(env, EMPTY, disk, one, a).Some? && NewBody(env, Turn(env, EMPTY, disk, one, a), disk, two, a).Some?
    ensures Accepted(env, EMPTY, disk, [one, two], [a, a]) == [one, two]
  {
    hide NewBody, Turn;
    assert [one, two][1..] == [two] && [a, a][1..] == [a] && [two][1..] == [];
    assert Accepted(env, Turn(env, EMPTY, disk, one, a), disk, [two], [a]) == [two];
  }

  lemma PlainSwaps()
    ensures Swapped("", Hunk("f", "", "abc"), "") == Some("abc")
    ensures Swapped("abc", Hunk("f", "abc", "def"), "") == Some("def")
    ensures StripCr("") == "" && !Contains("", StripCr("abc"))
  {
    PlainTexts();
    hide StripCr, Matched;
    assert IsAt("abc", "abc", 0);
    assert "abc"[..0] + "def" + "abc"[3..] == "def";
  }

  lemma PlainTexts()
    ensures StripCr("") == "" && StripCr("abc") == "abc" && StripCr("def") == "def"
    ensures forall t :: Matched(t, "") == StripCr(t) && Matched(t, "abc") == StripCr(t)
  {
    hide StripCr, Find;
    StripOfStripped("");
    StripOfStripped("abc");
    StripOfStripped("def");
    NoReturn("");
    NoReturn("abc");
  }

  lemma NoReturn(s: string)
    requires '\r' !in s
    ensures Find(s, "\r\n", 0) == -1
  {
    hide Find;
    if Find(s, "\r\n", 0) != -1 { HasReturn(s); }
  }

  // ----- how line ends are matched, and where the excerpt lies

  /**
   A text matched to a body differs from it in carriage returns only: it has CR LF ends throughout where
   the body has any CR LF, even among other line ends, and no carriage return at all otherwise. There is
   only one such text.
   */
  lemma MatchedLineEnds(text: string, body: string, other: string)
    ensures var m := Matched(text, body);
            && StripCr(m) == StripCr(text)
            && (if Contains(body, "\r\n") then CrLf(m) else '\r' !in m)
            && (StripCr(other) == StripCr(text) && (if Contains(body, "\r\n") then CrLf(other) else '\r' !in other)
                ==> other == m)
  {
    hide StripCr, BreakLines, Find;
    MatchedStrips(text, body);
    StripIsFree(text);
    BrokenIsCrLf(StripCr(text));
    HasBreakIff(body);
    if '\r' !in other { StripOfStripped(other); }
    if CrLf(other) { BrokenAgain(other); }
  }

  lemma HasBreakIff(s: string)
    ensures Find(s, "\r\n", 0) != -1 <==> Contains(s, "\r\n")
  {
    hide IsAt;
    if Find(s, "\r\n", 0) != -1 { assert IsAt(s, "\r\n", Find(s, "\r\n", 0)); }
    if i :| IsAt(s, "\r\n", i) { NotBelowZero(s, "\r\n", i); }
  }

  lemma NotBelowZero(s: string, m: string, i: int)
    requires IsAt(s, m, i)
    ensures 0 <= i && i + |m| <= |s|
  {}

  /** The place of a text of n characters at i within an excerpt around `at`: 800 before and 1600 after, or the end. */
  predicate InExcerpt(size: nat, at: int, i: nat, n: nat) {
    if 0 <= at <= size then at - 800 <= i && i + n <= Max(at + 1600, 2400) else size - 4000 <= i
  }

  /** The excerpt shows exactly the texts that stand around the place, in 2400 characters, or among the last 4000. */
  lemma ExcerptShows(body: string, at: int, m: string)
    requires m != ""
    ensures |Excerpt(body, at)| <= (if 0 <= at <= |body| then 2400 else 4000)
    ensures Contains(Excerpt(body, at), m) <==> exists i: nat :: IsAt(body, m, i) && InExcerpt(|body|, at, i, |m|)
  {
    var start := if 0 <= at <= |body| then Max(at - 800, 0) else Max(|body| - 4000, 0);
    var stop := if 0 <= at <= |body| then Min(start + 2400, |body|) else |body|;
    assert Excerpt(body, at) == body[start..stop];
    SliceShows(body, start, stop, m);
    forall i: nat | IsAt(body, m, i) ensures InExcerpt(|body|, at, i, |m|) <==> start <= i && i + |m| <= stop {
      NotBelowZero(body, m, i);
    }
  }

  lemma SliceShows(body: string, start: nat, stop: nat, m: string)
    requires start <= stop <= |body|
    ensures Contains(body[start..stop], m) <==> exists i: nat :: IsAt(body, m, i) && start <= i && i + |m| <= stop
  {
    hide IsAt;
    var e := body[start..stop];
    if i :| IsAt(e, m, i) {
      NotBelowZero(e, m, i);
      AtSlice(body, start, stop, m, i);
      assert IsAt(body, m, start + i);
    }
    if i: nat :| IsAt(body, m, i) && start <= i && i + |m| <= stop {
      AtSlice(body, start, stop, m, i - start);
      assert IsAt(e, m, i - start);
    }
  }
}
