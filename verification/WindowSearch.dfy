/** The binary search both planners of desk_review_plan.py use to cut a run of lines. */
module WindowSearch {
  import opened Text

  /** The end fits and one more does not; `fits` need not be monotone. */
  ghost predicate CutAt(fits: nat -> bool, first: nat, last: nat, end: nat) {
    first < end <= last && fits(end) && (end == last || !fits(end + 1))
  }

  /** The search by halving, from a range and the best end so far. */
  function Search(fits: nat -> bool, low: nat, high: int, chosen: Option<nat>): Option<nat>
    requires low <= high + 1
    decreases high - low + 1
  {
    if low > high then chosen else
    var end := (low + high) / 2;
    if fits(end) then Search(fits, end + 1, high, Some(end)) else Search(fits, low, end - 1, chosen)
  }

  /** Some end in first+1..last that fits while the next does not; none only if the single line first+1 does not fit. */
  method LastFit(fits: nat -> bool, first: nat, last: nat) returns (chosen: Option<nat>)
    requires first < last
    ensures chosen == Search(fits, first + 1, last, None)
    ensures chosen.Some? ==> CutAt(fits, first, last, chosen.value)
    ensures chosen.None? ==> !fits(first + 1)
  {
    chosen := None;
    var low, high := first + 1, last;
    while low <= high
      invariant first < low <= high + 1 <= last + 1
      invariant Search(fits, low, high, chosen) == Search(fits, first + 1, last, None)
      invariant high == last || !fits(high + 1)
      invariant chosen.None? ==> low == first + 1
      invariant chosen.Some? ==> chosen.value == low - 1 && first < chosen.value && fits(chosen.value)
      decreases high - low
    {
      var end := (low + high) / 2;
      if fits(end) {
        chosen := Some(end);
        low := end + 1;
      } else {
        high := end - 1;
      }
    }
  }

  ghost predicate Monotone(fits: nat -> bool, first: nat, last: nat) {
    forall a, b :: first < a <= b <= last && fits(b) ==> fits(a)
  }

  /** When shorter runs fit whenever longer ones do, a cut is the longest run that fits. */
  lemma CutIsLargest(fits: nat -> bool, first: nat, last: nat, end: nat)
    requires CutAt(fits, first, last, end) && Monotone(fits, first, last)
    ensures forall e :: first < e <= last ==> (fits(e) <==> e <= end)
  {}

  /** Then a single line that does not fit means that no run can begin there; without it, it need not. */
  lemma NoneFits(fits: nat -> bool, first: nat, last: nat)
    requires first < last && Monotone(fits, first, last)
    ensures !fits(first + 1) <==> forall e :: first < e <= last ==> !fits(e)
  {}

  /** The points the search tries while nothing fits: halfway, then halfway below that, and so on. */
  function Halves(low: nat, high: int): (points: seq<nat>)
    requires low <= high + 1
    ensures forall m :: m in points ==> low <= m <= high
    decreases high - low + 1
  {
    if low > high then [] else
    var mid := (low + high) / 2;
    [mid] + Halves(low, mid - 1)
  }

  /** What is chosen is in range and fits, and a choice is never given up. */
  lemma {:induction false} SearchKeeps(fits: nat -> bool, low: nat, high: int, chosen: Option<nat>)
    requires low <= high + 1
    ensures var r := Search(fits, low, high, chosen);
            && (chosen.Some? ==> r.Some?)
            && (r.Some? ==> r == chosen || (low <= r.value <= high && fits(r.value)))
    decreases high - low + 1
  {
    if low <= high {
      var mid := (low + high) / 2;
      if fits(mid) { SearchKeeps(fits, mid + 1, high, Some(mid)); } else { SearchKeeps(fits, low, mid - 1, chosen); }
    }
  }

  /** For any counter: the search gives up exactly when none of its halving points fits. */
  lemma {:induction false} GivesUpIff(fits: nat -> bool, low: nat, high: int)
    requires low <= high + 1
    ensures Search(fits, low, high, None).None? <==> forall m :: m in Halves(low, high) ==> !fits(m)
    ensures Search(fits, low, high, None).None? && low <= high ==> !fits(low)
    decreases high - low + 1
  {
    if low <= high {
      var mid := (low + high) / 2;
      assert Halves(low, high)[0] == mid;
      if fits(mid) {
        SearchKeeps(fits, mid + 1, high, Some(mid));
      } else {
        GivesUpIff(fits, low, mid - 1);
      }
    }
  }
}
