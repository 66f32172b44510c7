/**
 The transaction of local_edit.cpp over a directory of files. A file is replaced by writing its
 temporary sibling and renaming that over it, so a failed write leaves at most the sibling behind.
 */
module EditTransaction {
  import opened Text
  import opened ApplyBlocks
  import opened LocalEdit

  const SUFFIX := ".edit.tmp"

  /** The sibling a file is written through. */
  function Temp(path: string): string { path + SUFFIX }

  function Temps(paths: set<string>): set<string> { set p | p in paths :: Temp(p) }

  function At(files: Files, path: string): Option<string> {
    if path in files then Some(files[path]) else None
  }

  /** A directory after every text of `w` was written in the order of the map. */
  function Written(files: Files, w: Files): Files { (files - Temps(w.Keys)) + w }

  // ----- the order of std::map

  predicate Less(a: string, b: string)
    decreases |a|
  {
    b != "" && (a == "" || a[0] < b[0] || (a[0] == b[0] && Less(a[1..], b[1..])))
  }

  lemma {:induction false} LessOrder(a: string, b: string)
    ensures a == b || Less(a, b) || Less(b, a)
    ensures !(Less(a, b) && Less(b, a)) && !Less(a, a)
    decreases |a|
  {
    if a != "" && b != "" && a[0] == b[0] {
      LessOrder(a[1..], b[1..]);
      assert a == [a[0]] + a[1..] && b == [b[0]] + b[1..];
    }
    if a != "" { LessOrder(a[1..], a[1..]); }
  }

  lemma {:induction false} LessTransitive(a: string, b: string, c: string)
    requires Less(a, b) && Less(b, c)
    ensures Less(a, c)
    decreases |a|
  {
    if a != "" && a[0] == b[0] && b[0] == c[0] {
      LessTransitive(a[1..], b[1..], c[1..]);
    }
  }

  /** A file comes before its own temporary sibling. */
  lemma {:induction false} LessTemp(path: string)
    ensures Less(path, Temp(path))
    decreases |path|
  {
    if path != "" {
      LessTemp(path[1..]);
      assert Temp(path)[1..] == Temp(path[1..]);
    }
  }

  predicate First(paths: set<string>, p: string) {
    p in paths && forall q :: q in paths ==> q == p || Less(p, q)
  }

  lemma {:induction false} FirstExists(paths: set<string>)
    requires paths != {}
    ensures exists p :: First(paths, p)
    decreases |paths|
  {
    hide Less;
    var some :| some in paths;
    var rest := paths - {some};
    if rest == {} {
      assert forall q :: q in paths && q != some ==> q in rest;
      assert First(paths, some);
    } else {
      FirstExists(rest);
      var p :| First(rest, p);
      FirstOfTwo(rest, some, p);
      assert paths == rest + {some};
    }
  }

  lemma FirstOfTwo(rest: set<string>, some: string, p: string)
    requires First(rest, p) && some !in rest
    ensures First(rest + {some}, if Less(some, p) then some else p)
  {
    hide Less;
    LessOrder(some, p);
    if Less(some, p) {
      forall q | q in rest ensures Less(some, q) {
        if q != p { LessTransitive(some, p, q); }
      }
    }
  }

  // ----- what the writes leave

  /** Equal on every file that is not the temporary sibling of a touched one. */
  ghost predicate Same(a: Files, b: Files, touched: set<string>) {
    forall p :: p !in Temps(touched) ==> At(a, p) == At(b, p)
  }

  /** Every file is as it was or as `w` has it. */
  ghost predicate Between(a: Files, b: Files, w: Files) {
    forall p :: p !in Temps(w.Keys) ==> At(b, p) == At(a, p) || (p in w && At(b, p) == Some(w[p]))
  }

  /** Each file is rewritten by exactly its accepted hunks, in order, and the others are unchanged. */
  ghost predicate Edits(a: Files, b: Files, accepted: seq<Hunk>, touched: set<string>) {
    forall p :: p !in Temps(touched) ==>
      if For(accepted, p) == [] then At(a, p) == At(b, p)
      else p in a && p in b && Rewrites(For(accepted, p), a[p], b[p])
  }

  /** One more file in order: its sibling was not written before it. */
  lemma WrittenMore(files: Files, w: Files, todo: set<string>, p: string)
    requires todo <= w.Keys && p in todo
    requires forall d, t :: d in w.Keys - todo && t in todo ==> Less(d, t)
    ensures Written(files, w - (todo - {p})) == (Written(files, w - todo) - {Temp(p)})[p := w[p]]
  {
    hide Less, Temp;
    LessTemp(p);
    LessOrder(p, Temp(p));
    if Temp(p) in w.Keys - todo { LessOrder(p, Temp(p)); }
    assert (w - (todo - {p})).Keys == (w - todo).Keys + {p};
    assert Temps((w - (todo - {p})).Keys) == Temps((w - todo).Keys) + {Temp(p)};
  }

  function Answers(hunks: seq<Hunk>, ask: nat -> Answer): (answers: seq<Answer>)
    ensures |answers| == |hunks|
  {
    seq(|hunks|, i requires 0 <= i < |hunks| => ask(i))
  }

  /** The first pass takes the blocks of the model's answer, or else the operator's own. */
  function FirstHunks(first: string, user: string): seq<Hunk> {
    var hunks := Parse(first, 0, MAX_HUNKS);
    if hunks == [] then Parse(user, 0, MAX_HUNKS) else hunks
  }

  /** Some hunk can be applied to these files. */
  predicate Takes(env: Env, files: Files, hunks: seq<Hunk>, ask: nat -> Answer) {
    Accepted(env, EMPTY, files, hunks, Answers(hunks, ask)) != []
  }

  /** Some hunk of the first pass can be applied, or else one of the second. */
  predicate Wanted(env: Env, files: Files, first: string, user: string, second: Option<string>, ask: nat -> Answer,
                   askAgain: nat -> Answer) {
    || Takes(env, files, FirstHunks(first, user), ask)
    || (second.Some? && Takes(env, files, Parse(second.value, 0, MAX_HUNKS), askAgain))
  }

  class Repo {
    var files: Files
    /** No write ever fails on this disk. */
    const healthy: bool

    /** write_all: open the sibling, fill it, rename it. Each of the three may fail. */
    method WriteAll(path: string, body: string) returns (ok: bool)
      modifies this
      ensures ok ==> files == (old(files) - {Temp(path)})[path := body]
      ensures !ok ==> files - {Temp(path)} == old(files) - {Temp(path)}
      ensures healthy ==> ok
    {
      var open: bool := *;
      var filled: bool := *;
      var moved: bool := *;
      if !open && !healthy { return false; }
      var part: string := *;
      files := files[Temp(path) := if filled then body else part];
      if !filled && !healthy { return false; }
      if !moved && !healthy { return false; }
      files := (files - {Temp(path)})[path := body];
      return true;
    }

    /** The write loop of apply_hunks, which stops at the first failure. */
    method WriteWorking(w: Files) returns (failed: Option<string>, wrote: bool)
      modifies this
      ensures failed.None? ==> files == Written(old(files), w) && wrote == (w != map[])
      ensures failed.Some? ==> failed.value in w && Between(old(files), files, w)
      ensures failed.Some? && !wrote ==> files - {Temp(failed.value)} == old(files) - {Temp(failed.value)}
      ensures healthy ==> failed.None?
    {
      hide Less, Temp;
      var todo := w.Keys;
      wrote := false;
      assert w - todo == map[];
      while todo != {}
        invariant todo <= w.Keys
        invariant forall d, t :: d in w.Keys - todo && t in todo ==> Less(d, t)
        invariant files == Written(old(files), w - todo)
        invariant wrote <==> todo != w.Keys
      {
        FirstExists(todo);
        var p :| First(todo, p);
        ghost var before := files;
        var ok := WriteAll(p, w[p]);
        if !ok {
          forall q | q !in Temps(w.Keys)
            ensures At(files, q) == At(old(files), q) || (q in w && At(files, q) == Some(w[q]))
          {
            assert q != Temp(p);
            assert At(files, q) == At(files - {Temp(p)}, q) == At(before - {Temp(p)}, q) == At(before, q);
            assert q !in Temps((w - todo).Keys);
          }
          assert !wrote ==> w - todo == map[];
          return Some(p), wrote;
        }
        WrittenMore(old(files), w, todo, p);
        wrote := true;
        todo := todo - {p};
      }
      assert w - todo == w;
      return None, wrote;
    }

    /** restore_originals, which goes on after a failure. */
    method RestoreOriginals(originals: Files) returns (ok: bool)
      modifies this
      ensures ok ==> files == Written(old(files), originals)
      ensures Between(old(files), files, originals)
      ensures healthy ==> ok
    {
      hide Less, Temp;
      var todo := originals.Keys;
      ok := true;
      assert originals - todo == map[];
      while todo != {}
        invariant todo <= originals.Keys
        invariant forall d, t :: d in originals.Keys - todo && t in todo ==> Less(d, t)
        invariant ok ==> files == Written(old(files), originals - todo)
        invariant healthy ==> ok
        invariant Between(old(files), files, originals)
      {
        FirstExists(todo);
        var p :| First(todo, p);
        ghost var before := files;
        var done := WriteAll(p, originals[p]);
        if !done { ok := false; }
        WrittenMore(old(files), originals, todo, p);
        forall q | q !in Temps(originals.Keys)
          ensures At(files, q) == At(old(files), q) || (q in originals && At(files, q) == Some(originals[q]))
        {
          assert q != Temp(p);
          assert !done ==> At(files, q) == At(files - {Temp(p)}, q) == At(before - {Temp(p)}, q) == At(before, q);
        }
        todo := todo - {p};
      }
      assert originals - todo == originals;
    }

    method DeleteTemp(path: string)
      modifies this
      ensures files == old(files) || files == old(files) - {Temp(path)}
    {
      var gone: bool := *;
      if gone { files := files - {Temp(path)}; }
    }

    /** The planning loop of apply_hunks; nothing is written. */
    method PlanHunks(env: Env, hunks: seq<Hunk>, answers: seq<Answer>) returns (p: Plan, count: nat)
      requires |hunks| == |answers|
      ensures p == PlanOf(env, EMPTY, files, hunks, answers)
      ensures count == |Accepted(env, EMPTY, files, hunks, answers)|
    {
      hide ExcerptOf, Swapped;
      p, count := EMPTY, 0;
      for i := 0 to |hunks|
        invariant PlanOf(env, p, files, hunks[i..], answers[i..]) == PlanOf(env, EMPTY, files, hunks, answers)
        invariant count + |Accepted(env, p, files, hunks[i..], answers[i..])|
                  == |Accepted(env, EMPTY, files, hunks, answers)|
      {
        var h, a := hunks[i], answers[i];
        assert hunks[i..][1..] == hunks[i + 1..] && answers[i..][1..] == answers[i + 1..];
        ghost var next := Turn(env, p, files, h, a);
        ghost var kept := NewBody(env, p, files, h, a);
        var body := BodyOf(p, files, h.path, a);
        if env.pathOk(h.path) && body.Some? {
          p := Opened(env, p, h.path, body.value);
          var to := Swapped(body.value, h, ExcerptOf(files, h.path, a));
          assert to == kept;
          if to.Some? {
            p := p.(working := p.working[h.path := to.value]);
            if h.path !in p.edited { p := p.(edited := p.edited + [h.path]); }
            count := count + 1;
          }
        }
        assert p == next;
      }
    }

    /** apply_hunks: plan, then write, and put everything back at the first failed write. */
    method ApplyHunks(env: Env, hunks: seq<Hunk>, answers: seq<Answer>) returns (out: Outcome, ghost restored: bool)
      requires |hunks| == |answers| && !env.pathOk("")
      modifies this
      ensures out.plan == PlanOf(env, EMPTY, old(files), hunks, answers)
      ensures out.ok ==> out.plan.working != map[] && files == Written(old(files), out.plan.working)
      ensures out.ok ==>
                out.afterHash == if out.plan.preview !in out.plan.working then ""
                                 else env.hash(out.plan.working[out.plan.preview])
      ensures !out.ok && (restored || !out.wrote) ==> Same(old(files), files, out.plan.originals.Keys)
      ensures out.ok ==> Accepted(env, EMPTY, old(files), hunks, answers) != []
      ensures Accepted(env, EMPTY, old(files), hunks, answers) == [] ==> files == old(files) && !out.wrote
      ensures healthy && Accepted(env, EMPTY, old(files), hunks, answers) != [] ==> out.ok
    {
      hide PlanOf, Accepted, Written, Between, Same;
      var p, count := PlanHunks(env, hunks, answers);
      ghost var before := files;
      PlanIsItsHunks(env, files, hunks, answers);
      SomeAccepted(Accepted(env, EMPTY, files, hunks, answers), p);
      SameItself(files, p.originals.Keys);
      if count == 0 { return Outcome(false, false, p, ""), true; }
      var failed, wrote := WriteWorking(p.working);
      if failed.Some? {
        ghost var middle := files;
        var back := RestoreOriginals(p.originals);
        ghost var after := files;
        DeleteTemp(failed.value);
        UndoneSame(before, middle, after, files, p, failed.value, back, wrote);
        return Outcome(false, wrote, p, ""), back;
      }
      return Outcome(true, wrote, p, if p.preview in p.working then env.hash(p.working[p.preview]) else ""), true;
    }

    /** One pass, on files equal to the start but for siblings of the files touched before. */
    method Pass(env: Env, hunks: seq<Hunk>, ask: nat -> Answer, ghost start: Files, ghost before: set<string>)
      returns (out: Outcome, ghost accepted: seq<Hunk>, ghost touched: set<string>, ghost restored: bool)
      requires !env.pathOk("") && Same(start, files, before)
      modifies this
      ensures out.ok ==> Planned(env, start, out, accepted, touched) && Edits(start, files, accepted, touched)
      ensures out.ok ==> accepted != [] && Carries(files, out.plan.working)
      ensures !out.ok && (restored || !out.wrote) ==> Same(start, files, touched)
      ensures !Takes(env, old(files), hunks, ask) ==> !out.ok && !out.wrote && files == old(files)
      ensures healthy && Takes(env, old(files), hunks, ask) ==> out.ok
      ensures accepted == Accepted(env, EMPTY, old(files), hunks, Answers(hunks, ask))
      ensures touched == before + out.plan.originals.Keys
      ensures out.plan == PlanOf(env, EMPTY, old(files), hunks, Answers(hunks, ask))
    {
      hide Edits, Planned, Same, Written, PlanOf, Accepted, Carries, Good;
      var answers := Answers(hunks, ask);
      ghost var disk := files;
      out, restored := ApplyHunks(env, hunks, answers);
      accepted, touched := Accepted(env, EMPTY, disk, hunks, answers), before + out.plan.originals.Keys;
      PlanIsItsHunks(env, disk, hunks, answers);
      if out.ok {
        WrittenEdits(env, start, disk, accepted, out, before, touched);
      } else if restored || !out.wrote {
        SameChain(start, disk, files, before, out.plan.originals.Keys);
      }
    }

    /** The first pass, and the second one when the first wrote nothing and the model can be asked again. */
    method Passes(env: Env, first: string, user: string, second: Option<string>, ask: nat -> Answer,
                  askAgain: nat -> Answer)
      returns (out: Outcome, ghost accepted: seq<Hunk>, ghost touched: set<string>, ghost restored: bool,
               ghost from: Start)
      requires !env.pathOk("")
      modifies this
      ensures out.ok ==> Planned(env, old(files), out, accepted, touched) && Edits(old(files), files, accepted, touched)
      ensures out.ok ==> Picked(env, old(files), healthy, first, user, second, ask, askAgain, from, accepted,
                                out.plan.preview)
      ensures Same(old(files), from.disk, touched)
      ensures !Wanted(env, old(files), first, user, second, ask, askAgain) && healthy ==> files == old(files)
      ensures out.ok ==> accepted != [] && Carries(files, out.plan.working)
      ensures !out.ok && restored ==> Same(old(files), files, touched)
      ensures healthy ==> (out.ok <==> Wanted(env, old(files), first, user, second, ask, askAgain))
    {
      hide Edits, Planned, Same, Takes, Parse, Carries, Picked, Accepted, PlanOf;
      ghost var start := files;
      out, accepted, touched, restored := NOTHING, [], {}, true;
      from := Start(false, files);
      SameItself(files, {});
      var hunks := ParseApplyBlocks(first);
      if hunks == [] { hunks := ParseApplyBlocks(user); }
      NoneToTake(env, files, ask);
      NoneToTake(env, files, askAgain);
      if hunks != [] {
        out, accepted, touched, restored := Pass(env, hunks, ask, start, {});
        SameItself(start, touched);
        if out.ok { FirstPicked(env, start, healthy, first, user, second, ask, askAgain, from, out.plan); }
      }
      if !out.ok && second.Some? && !out.wrote {
        hunks := ParseApplyBlocks(second.value);
        if hunks == [] { return NOTHING, accepted, touched, restored, from; }
        from := Start(true, files);
        ghost var before := touched;
        out, accepted, touched, restored := Pass(env, hunks, askAgain, start, touched);
        SameMore(start, from.disk, before, touched);
        if out.ok { SecondPicked(env, start, healthy, first, user, second, ask, askAgain, from, out.plan); }
      }
    }

    /** The edit check: an outside program that may run or not, pass or not, and leave any files behind. */
    method Check() returns (ran: bool, ok: bool)
      modifies this
    {
      ran := *;
      ok := *;
      files := *;
    }

    /**
     maybe_apply. `second` is what the model answers when it is asked again, None when it cannot be
     asked. The ghost trace says what happened on the way: the hunks that were applied, the files
     touched, the files before and after the check, and whether every restoring write succeeded.
     */
    method MaybeApply(env: Env, wanted: bool, first: string, user: string, second: Option<string>,
                      ask: nat -> Answer, askAgain: nat -> Answer)
      returns (r: Result, ghost t: Trace)
      requires !env.pathOk("")
      modifies this
      ensures r.attempted == wanted
      ensures !wanted ==> !t.checked && files == old(files)
      ensures t.checked ==>
                && Picked(env, old(files), healthy, first, user, second, ask, askAgain, t.from, t.accepted, r.preview)
                && Same(old(files), t.from.disk, t.touched)
      ensures healthy && !t.checked ==> files == old(files)
      ensures r.applied <==> t.checked && r.checkRan && r.checkOk
      ensures r.applied ==> !r.rolledBack && files == t.left
      ensures healthy && wanted ==> (t.checked <==> Wanted(env, old(files), first, user, second, ask, askAgain))
      ensures t.checked ==> t.accepted != [] && Edits(old(files), t.given, t.accepted, t.touched)
      ensures t.checked ==> HashesTrue(env, old(files), r, t)
      ensures t.checked && !r.applied ==>
                && (r.rolledBack <==> t.restored)
                && (t.restored ==> Restored(old(files), t, files))
      ensures !t.checked ==> !r.applied && !r.rolledBack && (t.restored ==> Same(old(files), files, t.touched))
    {
      hide Edits, Planned, HashesTrue, Restored, Same, Written, Carries, Wanted, Picked;
      ghost var start := files;
      r := Result(wanted, false, false, false, false, "", "", "");
      SameItself(files, {});
      if !wanted { return r, Trace([], {}, files, files, true, false, Start(false, files)); }
      var out;
      ghost var accepted, touched, restored, from;
      out, accepted, touched, restored, from := Passes(env, first, user, second, ask, askAgain);
      r := r.(applied := out.ok, beforeHash := out.plan.beforeHash, afterHash := out.afterHash,
              preview := out.plan.preview);
      ghost var given := files;
      t := Trace(accepted, touched, given, given, restored, out.ok, from);
      if out.ok {
        var ran, ok := Check();
        r := r.(checkRan := ran, checkOk := ok);
        t := t.(left := files, restored := true);
        if !ran || !ok {
          r := r.(applied := false);
          var back := RestoreOriginals(out.plan.originals);
          if back { r := r.(rolledBack := true, afterHash := r.beforeHash); }
          t := t.(restored := back);
        }
        HashesFollow(env, start, out, r, t);
        if t.restored && !r.applied { RestoredFollows(env, start, out, t, files); }
      }
    }
  }

  datatype Result = Result(
    attempted: bool, applied: bool, checkRan: bool, checkOk: bool, rolledBack: bool,
    beforeHash: string, afterHash: string, preview: string)

  /** Which pass came last, and the files it found. */
  datatype Start = Start(again: bool, disk: Files)

  /** What happened on the way: the hunks applied, the files touched, and the files the check was given and left. */
  datatype Trace = Trace(
    accepted: seq<Hunk>, touched: set<string>, given: Files, left: Files, restored: bool, checked: bool, from: Start)

  /** The hunks that the list of blocks offered to a pass leaves unrefused, and the file it previews. */
  ghost predicate PickedFrom(env: Env, disk: Files, hunks: seq<Hunk>, ask: nat -> Answer, accepted: seq<Hunk>,
                             preview: string) {
    && Sifts(env, map[], disk, hunks, Answers(hunks, ask), accepted)
    && Previews(env, disk, hunks, Answers(hunks, ask), preview)
  }

  /**
   The accepted hunks are exactly the unrefused ones of one list: the blocks of the first answer, or of
   the operator where that has none; or those of the second answer, which is only looked at where the
   first pass took nothing, or could not write at all.
   */
  ghost predicate Picked(env: Env, start: Files, healthy: bool, first: string, user: string, second: Option<string>,
                         ask: nat -> Answer, askAgain: nat -> Answer, from: Start, accepted: seq<Hunk>,
                         preview: string) {
    var answered := Parse(first, 0, MAX_HUNKS);
    var hunks := if answered != [] then answered else Parse(user, 0, MAX_HUNKS);
    if !from.again then from.disk == start && PickedFrom(env, start, hunks, ask, accepted, preview)
    else
      && second.Some?
      && PickedFrom(env, from.disk, Parse(second.value, 0, MAX_HUNKS), askAgain, accepted, preview)
      && (healthy ==> from.disk == start && Sifts(env, map[], start, hunks, Answers(hunks, ask), []))
  }

  lemma PassPicks(env: Env, disk: Files, hunks: seq<Hunk>, ask: nat -> Answer)
    requires !env.pathOk("")
    ensures Sifts(env, map[], disk, hunks, Answers(hunks, ask),
                  Accepted(env, EMPTY, disk, hunks, Answers(hunks, ask)))
    ensures var p := PlanOf(env, EMPTY, disk, hunks, Answers(hunks, ask));
            p.preview != "" ==> Previews(env, disk, hunks, Answers(hunks, ask), p.preview)
  {
    hide Accepted, PlanOf, Sifts, Previews;
    AcceptedIsSifted(env, EMPTY, disk, hunks, Answers(hunks, ask));
    PreviewIsFirst(env, EMPTY, disk, hunks, Answers(hunks, ask));
  }

  /** Something accepted means something previewed. */
  lemma PreviewGiven(env: Env, disk: Files, hunks: seq<Hunk>, answers: seq<Answer>)
    requires |hunks| == |answers| && !env.pathOk("") && Accepted(env, EMPTY, disk, hunks, answers) != []
    ensures PlanOf(env, EMPTY, disk, hunks, answers).preview != ""
  {
    hide Accepted, PlanOf, For, Rewrites;
    PlanIsItsHunks(env, disk, hunks, answers);
    SomeAccepted(Accepted(env, EMPTY, disk, hunks, answers), PlanOf(env, EMPTY, disk, hunks, answers));
    var p := PlanOf(env, EMPTY, disk, hunks, answers);
    assert p.working.Keys != {};
    var q :| q in p.working.Keys;
    assert q in p.originals;
  }

  lemma FirstPicked(env: Env, start: Files, healthy: bool, first: string, user: string, second: Option<string>,
                    ask: nat -> Answer, askAgain: nat -> Answer, from: Start, p: Plan)
    requires !env.pathOk("") && from == Start(false, start)
    requires var hunks := FirstHunks(first, user);
             && Accepted(env, EMPTY, start, hunks, Answers(hunks, ask)) != []
             && p == PlanOf(env, EMPTY, start, hunks, Answers(hunks, ask))
    ensures var hunks := FirstHunks(first, user);
            Picked(env, start, healthy, first, user, second, ask, askAgain, from,
                   Accepted(env, EMPTY, start, hunks, Answers(hunks, ask)), p.preview)
  {
    hide Accepted, PlanOf, Sifts, Previews, Parse;
    var hunks := FirstHunks(first, user);
    PassPicks(env, start, hunks, ask);
    PreviewGiven(env, start, hunks, Answers(hunks, ask));
  }

  lemma SecondPicked(env: Env, start: Files, healthy: bool, first: string, user: string, second: Option<string>,
                     ask: nat -> Answer, askAgain: nat -> Answer, from: Start, p: Plan)
    requires !env.pathOk("") && from.again && second.Some?
    requires healthy ==> from.disk == start && !Takes(env, start, FirstHunks(first, user), ask)
    requires var hunks := Parse(second.value, 0, MAX_HUNKS);
             && Accepted(env, EMPTY, from.disk, hunks, Answers(hunks, askAgain)) != []
             && p == PlanOf(env, EMPTY, from.disk, hunks, Answers(hunks, askAgain))
    ensures var hunks := Parse(second.value, 0, MAX_HUNKS);
            Picked(env, start, healthy, first, user, second, ask, askAgain, from,
                   Accepted(env, EMPTY, from.disk, hunks, Answers(hunks, askAgain)), p.preview)
  {
    hide Accepted, PlanOf, Sifts, Previews, Parse;
    var hunks := Parse(second.value, 0, MAX_HUNKS);
    PassPicks(env, from.disk, hunks, askAgain);
    PreviewGiven(env, from.disk, hunks, Answers(hunks, askAgain));
    if healthy { PassPicks(env, start, FirstHunks(first, user), ask); }
  }

  lemma SameMore(a: Files, b: Files, first: set<string>, more: set<string>)
    requires Same(a, b, first) && first <= more
    ensures Same(a, b, more)
  {
    hide Temp;
    assert Temps(first) <= Temps(more);
  }

  const NOTHING := Outcome(false, false, EMPTY, "")

  /** The last pass wrote hunks whose originals are the files as they were at the start. */
  ghost predicate Planned(env: Env, start: Files, out: Outcome, accepted: seq<Hunk>, touched: set<string>) {
    && accepted != [] && out.plan.originals.Keys <= touched
    && (forall p :: For(accepted, p) != [] <==> p in out.plan.working)
    && out.plan.working.Keys <= out.plan.originals.Keys
    && (forall p :: p in out.plan.originals && p !in Temps(touched) ==> p in start && start[p] == out.plan.originals[p])
    && out.plan.preview in out.plan.originals
    && out.plan.beforeHash == env.hash(out.plan.originals[out.plan.preview])
    && out.afterHash == if out.plan.preview !in out.plan.working then ""
                        else env.hash(out.plan.working[out.plan.preview])
  }

  predicate Carries(files: Files, w: Files) { forall p :: p in w ==> p in files && files[p] == w[p] }

  /** The reported hashes are those of the previewed file before and after, or none after for a file left unedited. */
  ghost predicate HashesTrue(env: Env, start: Files, r: Result, t: Trace) {
    r.preview !in Temps(t.touched) ==>
      && r.preview in start && r.beforeHash == env.hash(start[r.preview])
      && r.afterHash == if r.rolledBack then r.beforeHash
                        else if For(t.accepted, r.preview) == [] then ""
                        else if r.preview in t.given then env.hash(t.given[r.preview]) else ""
  }

  /** Every edited file is back, and all others are as the check left them. */
  ghost predicate Restored(start: Files, t: Trace, end: Files) {
    && (forall p :: p !in Temps(t.touched) ==>
          At(end, p) == At(start, p) || (For(t.accepted, p) == [] && At(end, p) == At(t.left, p)))
    && (t.left == t.given ==> Same(start, end, t.touched))
  }

  lemma SameChain(a: Files, b: Files, c: Files, first: set<string>, second: set<string>)
    requires Same(a, b, first) && Same(b, c, second)
    ensures Same(a, c, first + second)
  {
    hide Temp;
    assert Temps(first + second) == Temps(first) + Temps(second);
  }

  /** A pass that wrote its plan on files equal to the start rewrote the start by its accepted hunks. */
  lemma WrittenEdits(env: Env, start: Files, disk: Files, accepted: seq<Hunk>, out: Outcome,
                     before: set<string>, touched: set<string>)
    requires Good(env, disk, accepted, out.plan) && Same(start, disk, before)
    requires touched == before + out.plan.originals.Keys
    requires out.plan.working != map[]
    requires out.afterHash == if out.plan.preview !in out.plan.working then ""
                              else env.hash(out.plan.working[out.plan.preview])
    ensures Edits(start, Written(disk, out.plan.working), accepted, touched)
    ensures Planned(env, start, out, accepted, touched)
    ensures accepted != [] && Carries(Written(disk, out.plan.working), out.plan.working)
  {
    hide Temp, Rewrites, For;
    SomeAccepted(accepted, out.plan);
    assert Temps(touched) == Temps(before) + Temps(out.plan.originals.Keys);
    assert Temps(out.plan.working.Keys) <= Temps(out.plan.originals.Keys);
    var end := Written(disk, out.plan.working);
    forall p | p !in Temps(touched)
      ensures if For(accepted, p) == [] then At(start, p) == At(end, p)
              else p in start && p in end && Rewrites(For(accepted, p), start[p], end[p])
    {
      assert At(start, p) == At(disk, p);
    }
    forall p | p in out.plan.originals && p !in Temps(touched) ensures p in start && start[p] == out.plan.originals[p] {
      assert At(start, p) == At(disk, p);
    }
  }

  /** ok and wrote of apply_hunks, what it planned, and its after-hash. */
  datatype Outcome = Outcome(ok: bool, wrote: bool, plan: Plan, afterHash: string)

  lemma NoneToTake(env: Env, files: Files, ask: nat -> Answer)
    ensures !Takes(env, files, [], ask)
  {}

  lemma SameItself(files: Files, touched: set<string>)
    ensures Same(files, files, touched)
  {}

  lemma SomeAccepted(accepted: seq<Hunk>, p: Plan)
    requires TextsFollow(accepted, p)
    ensures accepted == [] <==> p.working == map[]
  {
    if accepted != [] {
      ForAppend(accepted[..|accepted| - 1], accepted[|accepted| - 1], accepted[|accepted| - 1].path);
      assert accepted == accepted[..|accepted| - 1] + [accepted[|accepted| - 1]];
      assert accepted[|accepted| - 1].path in p.working;
    } else {
      assert forall q :: q !in p.working;
      assert p.working.Keys == {};
    }
  }

  /**
   After a failed write: putting the originals back undoes the transaction, and before the first
   write there is nothing to undo.
   */
  lemma UndoneSame(before: Files, middle: Files, after: Files, end: Files, p: Plan, failed: string, back: bool,
                   wrote: bool)
    requires p.working.Keys <= p.originals.Keys && failed in p.working
    requires forall q :: q in p.originals ==> q in before && p.originals[q] == before[q]
    requires Between(before, middle, p.working)
    requires !wrote ==> middle - {Temp(failed)} == before - {Temp(failed)}
    requires back ==> after == Written(middle, p.originals)
    requires Between(middle, after, p.originals)
    requires end == after || end == after - {Temp(failed)}
    ensures back || !wrote ==> Same(before, end, p.originals.Keys)
  {
    hide Temp;
    if back || !wrote {
      forall q | q !in Temps(p.originals.Keys) ensures At(before, q) == At(end, q) {
        assert q != Temp(failed) && q !in Temps(p.working.Keys);
        assert At(end, q) == At(after, q);
        if !wrote {
          assert At(before, q) == At(before - {Temp(failed)}, q) == At(middle - {Temp(failed)}, q) == At(middle, q);
        }
      }
    }
  }

  lemma HashesFollow(env: Env, start: Files, out: Outcome, r: Result, t: Trace)
    requires Planned(env, start, out, t.accepted, t.touched)
    requires Carries(t.given, out.plan.working)
    requires r.preview == out.plan.preview && r.beforeHash == out.plan.beforeHash
    requires r.afterHash == if r.rolledBack then r.beforeHash else out.afterHash
    ensures HashesTrue(env, start, r, t)
  {}

  lemma RestoredFollows(env: Env, start: Files, out: Outcome, t: Trace, end: Files)
    requires Planned(env, start, out, t.accepted, t.touched) && Edits(start, t.given, t.accepted, t.touched)
    requires end == Written(t.left, out.plan.originals)
    ensures Restored(start, t, end)
  {
    hide Temp, Rewrites, For;
    assert Temps(out.plan.originals.Keys) <= Temps(t.touched);
    forall p | p !in Temps(t.touched)
      ensures At(end, p) == At(start, p) || (For(t.accepted, p) == [] && At(end, p) == At(t.left, p))
      ensures t.left == t.given ==> At(start, p) == At(end, p)
    {
      if p !in out.plan.originals {
        assert For(t.accepted, p) == [];
      }
    }
  }

  // ----- the temporary siblings, which a rename consumes

  /** Writing a plan adds exactly its texts if and only if no edited file has its sibling on disk outside the plan. */
  lemma WrittenExactly(files: Files, w: Files)
    ensures Written(files, w) == files + w <==> forall p :: p in w && Temp(p) in files ==> Temp(p) in w
  {
    hide Temp;
    if forall p :: p in w && Temp(p) in files ==> Temp(p) in w {
      assert Written(files, w) == files + w;
    } else {
      var p :| p in w && Temp(p) in files && Temp(p) !in w;
      assert Temp(p) in Temps(w.Keys);
      assert Temp(p) in files + w && Temp(p) !in Written(files, w);
    }
  }

  /** Writing and then restoring is no change at all if and only if no touched file has an untouched sibling on disk. */
  lemma UndoExactly(files: Files, w: Files, originals: Files)
    requires w.Keys <= originals.Keys
    requires forall p :: p in originals ==> p in files && originals[p] == files[p]
    ensures Written(Written(files, w), originals) == files <==>
            forall p :: p in originals && Temp(p) in files ==> Temp(p) in originals
  {
    hide Temp;
    var end := Written(Written(files, w), originals);
    if forall p :: p in originals && Temp(p) in files ==> Temp(p) in originals {
      assert end == files;
    } else {
      var p :| p in originals && Temp(p) in files && Temp(p) !in originals;
      assert Temp(p) in Temps(originals.Keys);
      assert Temp(p) !in end;
    }
  }
}
