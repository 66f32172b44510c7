/** strip_replayed_prefix of main.cpp: a continuation that begins by repeating what was already said. */
module ReplayedPrefix {
  import opened Text
  import opened NgramLoop

  const PROBE: nat := 48
  const OVERLAP: nat := 24

  /** The longest common prefix. */
  function Common(a: string, b: string): (n: nat)
    ensures n <= |a| && n <= |b| && a[..n] == b[..n]
    ensures n < |a| && n < |b| ==> a[n] != b[n]
    decreases |a|
  {
    if a != "" && b != "" && a[0] == b[0] then
      var n := Common(a[1..], b[1..]);
      assert a[..n + 1] == [a[0]] + a[1..][..n] && b[..n + 1] == [b[0]] + b[1..][..n];
      n + 1
    else 0
  }

  /** The last n characters of `prior` are the first n of `next`. */
  predicate Overlaps(prior: string, next: string, n: nat) {
    n <= |prior| && n <= |next| && next[..n] == prior[|prior| - n..]
  }

  /** `next` starts the way `prior` does, over up to 48 characters. */
  predicate StartsOver(prior: string, next: string) {
    Common(prior, next) >= Min(PROBE, |prior|)
  }

  /** How much of the trimmed continuation is dropped. */
  ghost predicate Dropped(prior: string, next: string, n: nat) {
    if prior == "" || next == "" then n == 0
    else if StartsOver(prior, next) then n == Common(prior, next)
    else if forall m: nat :: m >= OVERLAP ==> !Overlaps(prior, next, m) then n == 0
    else n >= OVERLAP && Overlaps(prior, next, n) && forall m: nat :: m > n ==> !Overlaps(prior, next, m)
  }

  /** One amount only is dropped; what is dropped was already said, at the start of `prior` or at its end. */
  lemma DroppedWasSaid(prior: string, next: string, n: nat, m: nat)
    requires Dropped(prior, next, n) && Dropped(prior, next, m)
    ensures n == m && n <= |next| && n <= |prior|
    ensures next[..n] == prior[..n] || next[..n] == prior[|prior| - n..]
  {
    hide Common;
    assert next[..0] == prior[..0];
  }

  /** Saying all of `prior` again adds only what follows it. */
  lemma WholeReplay(prior: string, more: string)
    requires prior != ""
    ensures StartsOver(prior, prior + more) && forall n: nat :: Dropped(prior, prior + more, n) ==> n == |prior|
    ensures Common(prior, prior + more) == |prior|
  {
    CommonIs(prior, prior + more, |prior|);
  }

  method StripReplayedPrefix(prior: string, text: string) returns (r: string)
    ensures exists n: nat ::
              Dropped(prior, TrimCopy(text), n) && n <= |TrimCopy(text)| && r == TrimCopy(TrimCopy(text)[n..])
  {
    hide TrimCopy;
    var next := TrimCopy(text);
    TrimTwice(text);
    assert next[0..] == next;
    if prior == "" || next == "" {
      assert Dropped(prior, next, 0);
      return next;
    }
    var probe := if |prior| < PROBE then |prior| else PROBE;
    ProbeIs(prior, next, probe);
    if probe <= |next| && next[..probe] == prior[..probe] {
      var i, n := 0, Min(|prior|, |next|);
      while i < n && prior[i] == next[i]
        invariant 0 <= i <= n && prior[..i] == next[..i]
      {
        i := i + 1;
      }
      CommonIs(prior, next, i);
      assert Dropped(prior, next, i);
      return TrimCopy(next[i..]);
    }
    var len := Min(|prior|, |next|);
    while len >= OVERLAP
      invariant 0 <= len <= |prior| && len <= |next|
      invariant forall m: nat :: m > len ==> !Overlaps(prior, next, m)
    {
      if next[..len] == prior[|prior| - len..] {
        assert Overlaps(prior, next, len);
        assert Dropped(prior, next, len);
        return TrimCopy(next[len..]);
      }
      len := len - 1;
    }
    assert Dropped(prior, next, 0);
    return next;
  }

  lemma {:induction false} CommonAtLeast(a: string, b: string, n: nat)
    requires n <= |a| && n <= |b| && a[..n] == b[..n]
    ensures Common(a, b) >= n
    decreases |a|
  {
    if n > 0 {
      assert a[0] == a[..n][0] == b[..n][0] == b[0];
      assert a[1..][..n - 1] == a[..n][1..] && b[1..][..n - 1] == b[..n][1..];
      CommonAtLeast(a[1..], b[1..], n - 1);
    }
  }

  lemma {:induction false} CommonIs(a: string, b: string, n: nat)
    requires n <= |a| && n <= |b| && a[..n] == b[..n] && (n == |a| || n == |b| || a[n] != b[n])
    ensures Common(a, b) == n
    decreases |a|
  {
    if n > 0 {
      assert a[0] == a[..n][0] == b[..n][0] == b[0];
      assert a[1..][..n - 1] == a[..n][1..] && b[1..][..n - 1] == b[..n][1..];
      CommonIs(a[1..], b[1..], n - 1);
    }
  }

  lemma ProbeIs(prior: string, next: string, probe: nat)
    requires probe == Min(PROBE, |prior|)
    ensures StartsOver(prior, next) <==> probe <= |next| && next[..probe] == prior[..probe]
  {
    var c := Common(prior, next);
    if c >= probe {
      assert prior[..probe] == prior[..c][..probe] == next[..c][..probe] == next[..probe];
    }
    if probe <= |next| && next[..probe] == prior[..probe] {
      CommonAtLeast(prior, next, probe);
    }
  }
}
