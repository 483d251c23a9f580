/**
 * The whole-part statistics the heuristic layout strategy decides on: the
 * chord ratio (`get_chord_ratio`), the mean pitch of a part's single notes,
 * and the median of all its pitches (`get_median_pitch`). The source's
 * floating-point quotients are modelled as exact rationals; the lemmas give
 * their integer, cross-multiplied equivalents.
 */
module Statistics {
  import opened Document
  import opened Sorting

  /** The chord ratio a part must exceed to count as two fused voices. */
  const CombinedRatio: real := 0.3

  /** The split pitch used when a part has no pitches at all (middle C). */
  const DefaultSplitPitch: int := 60

  /** `get_chord_ratio`: the share of chords among the note-bearing events, 0 when there are none. */
  function ChordRatio(notes: seq<Event>): (r: real)
    ensures 0.0 <= r <= 1.0
    ensures notes == [] ==> r == 0.0
  {
    if notes == [] then 0.0 else ChordCount(notes) as real / |notes| as real
  }

  /** `get_chord_ratio(p) > 0.3`: the part fuses more than one voice. */
  predicate IsCombined(p: Part) {
    ChordRatio(Notes(p)) > CombinedRatio
  }

  lemma MultiplyBack(x: real, n: real)
    requires n > 0.0
    ensures (x / n) * n == x
  {
  }

  lemma ScaleCompare(a: real, b: real, n: real)
    requires n > 0.0
    ensures a > b <==> a * n > b * n
    ensures a < b <==> a * n < b * n
  {
  }

  /** Comparing a quotient with a number is comparing the dividend with the scaled number. */
  lemma QuotientCompare(x: real, n: real, y: real)
    requires n > 0.0
    ensures x / n > y <==> x > y * n
    ensures x / n < y <==> x < y * n
  {
    MultiplyBack(x, n);
    ScaleCompare(x / n, y, n);
  }

  /** Comparing two quotients is comparing the cross-multiplied dividends. */
  lemma CrossCompare(x: real, m: real, y: real, n: real)
    requires m > 0.0 && n > 0.0
    ensures x / m > y / n <==> x * n > y * m
  {
    var p, q := x / m, y / n;
    MultiplyBack(x, m);
    MultiplyBack(y, n);
    assert m * n > 0.0;
    ScaleCompare(p, q, m * n);
    assert p * (m * n) == (p * m) * n;
    assert q * (m * n) == (q * n) * m;
  }

  /** The ratio test in integers: more than 3 chords in every 10 note-bearing events. */
  lemma CombinedIffCrossMultiplied(notes: seq<Event>)
    ensures ChordRatio(notes) > CombinedRatio <==> 10 * ChordCount(notes) > 3 * |notes|
  {
    if notes != [] {
      var c, n := ChordCount(notes) as real, |notes| as real;
      QuotientCompare(c, n, 0.3);
      assert (10 * ChordCount(notes)) as real == 10.0 * c;
      assert (3 * |notes|) as real == 3.0 * n;
    }
  }

  function Sum(ps: seq<int>): int {
    if ps == [] then 0 else Sum(ps[..|ps| - 1]) + ps[|ps| - 1]
  }

  /** `sum(pitches) / len(pitches)`. */
  function Mean(ps: seq<int>): real
    requires ps != []
  {
    Sum(ps) as real / |ps| as real
  }

  lemma {:induction false} SumBounds(ps: seq<int>, lo: int, hi: int)
    requires forall p :: p in ps ==> lo <= p <= hi
    ensures |ps| * lo <= Sum(ps) <= |ps| * hi
  {
    if ps != [] {
      var init := ps[..|ps| - 1];
      assert forall p :: p in init ==> p in ps;
      SumBounds(init, lo, hi);
      assert ps[|ps| - 1] in ps;
      assert Sum(ps) == Sum(init) + ps[|ps| - 1];
      assert |ps| * lo == |init| * lo + lo && |ps| * hi == |init| * hi + hi;
    }
  }

  lemma CastProduct(a: int, b: int)
    ensures (a * b) as real == a as real * b as real
  {
  }

  /** The mean lies between the lowest and the highest pitch. */
  lemma MeanWithinRange(ps: seq<int>, lo: int, hi: int)
    requires ps != [] && forall p :: p in ps ==> lo <= p <= hi
    ensures lo as real <= Mean(ps) <= hi as real
  {
    SumBounds(ps, lo, hi);
    var n, s := |ps| as real, Sum(ps) as real;
    CastProduct(|ps|, lo);
    CastProduct(|ps|, hi);
    assert lo as real * n <= s <= hi as real * n;
    QuotientCompare(s, n, lo as real);
    QuotientCompare(s, n, hi as real);
  }

  /** Comparing two means is comparing cross-multiplied sums. */
  lemma MeanGreaterIffCrossMultiplied(a: seq<int>, b: seq<int>)
    requires a != [] && b != []
    ensures Mean(a) > Mean(b) <==> Sum(a) * |b| > Sum(b) * |a|
  {
    CrossCompare(Sum(a) as real, |a| as real, Sum(b) as real, |b| as real);
    CastProduct(Sum(a), |b|);
    CastProduct(Sum(b), |a|);
  }

  /**
   * The mean the combined-pair test compares (`ranges[i][2]`): the mean of
   * the part's single-note pitches, 0 when it has none. Chords do not take part.
   */
  function RangeMean(p: Part): real {
    var ps := SinglePitches(Notes(p));
    if ps == [] then 0.0 else Mean(ps)
  }

  // ---------------------------------------------------------------------
  // The median of `get_median_pitch`

  /** How many of the pitches lie strictly below `bound`. */
  function CountBelow(ps: seq<int>, bound: int): (n: nat)
    ensures n <= |ps|
  {
    if ps == [] then 0 else CountBelow(ps[..|ps| - 1], bound) + (if ps[|ps| - 1] < bound then 1 else 0)
  }

  /**
   * `m` is the upper median of `ps`: a member such that at most half of the
   * pitches (rounded down) lie below it and more than that lie at or below it.
   */
  ghost predicate IsUpperMedian(ps: seq<int>, m: int) {
    m in ps && CountBelow(ps, m) <= |ps| / 2 < CountBelow(ps, m + 1)
  }

  function PitchKey(p: int): real {
    p as real
  }

  /** `sorted(ps)[len(ps) // 2]`. */
  function UpperMedian(ps: seq<int>): int
    requires ps != []
  {
    SortByOrderedPermutation(ps, PitchKey, false);
    SortBy(ps, PitchKey, false)[|ps| / 2]
  }

  /** The split pitch of `get_median_pitch`: the upper median, or 60 when there are no pitches. */
  function MedianOrDefault(ps: seq<int>): int {
    if ps == [] then DefaultSplitPitch else UpperMedian(ps)
  }

  lemma {:induction false} CountBelowAppend(a: seq<int>, b: seq<int>, bound: int)
    ensures CountBelow(a + b, bound) == CountBelow(a, bound) + CountBelow(b, bound)
    decreases |b|
  {
    if b == [] {
      assert a + b == a;
    } else {
      assert (a + b)[..|a + b| - 1] == a + b[..|b| - 1];
      CountBelowAppend(a, b[..|b| - 1], bound);
    }
  }

  lemma {:induction false} CountBelowMonotone(ps: seq<int>, b1: int, b2: int)
    requires b1 <= b2
    ensures CountBelow(ps, b1) <= CountBelow(ps, b2)
  {
    if ps != [] {
      CountBelowMonotone(ps[..|ps| - 1], b1, b2);
    }
  }

  /** Counting depends only on which pitches occur how often, not on their order. */
  lemma {:induction false} CountBelowPermutation(s: seq<int>, t: seq<int>, bound: int)
    requires multiset(s) == multiset(t)
    ensures CountBelow(s, bound) == CountBelow(t, bound)
    decreases |s|
  {
    if s == [] {
      assert |t| == |multiset(t)| == 0;
    } else {
      var init, last := s[..|s| - 1], s[|s| - 1];
      assert s == init + [last];
      assert last in multiset(t);
      var j :| 0 <= j < |t| && t[j] == last;
      var rest := t[..j] + t[j + 1..];
      assert t == t[..j] + [last] + t[j + 1..];
      assert multiset(rest) == multiset(t) - multiset{last};
      CountBelowPermutation(init, rest, bound);
      CountBelowAppend(t[..j], [last], bound);
      CountBelowAppend(t[..j] + [last], t[j + 1..], bound);
      CountBelowAppend(t[..j], t[j + 1..], bound);
    }
  }

  /** In an ascending sequence, every element before position `k` is at most `s[k]`, every later one at least. */
  lemma {:induction false} SortedRank(s: seq<int>, k: nat)
    requires k < |s| && Ordered(s, PitchKey, false)
    ensures CountBelow(s, s[k]) <= k
    ensures CountBelow(s, s[k] + 1) >= k + 1
  {
    var lower, upper := s[..k + 1], s[k + 1..];
    assert s == lower + upper;
    CountBelowAppend(lower, upper, s[k]);
    CountBelowAppend(lower, upper, s[k] + 1);
    assert s[..k + 1] == s[..k] + [s[k]];
    CountBelowAppend(s[..k], [s[k]], s[k]);
    CountBelowAppend(s[..k], [s[k]], s[k] + 1);
    assert CountBelow([s[k]], s[k]) == 0 by {
      assert [s[k]][..0] == [];
    }
    assert CountBelow([s[k]], s[k] + 1) == 1 by {
      assert [s[k]][..0] == [];
    }
    AllAtMost(s, k);
    NoneBelow(s, k);
  }

  lemma AllAtMost(s: seq<int>, k: nat)
    requires k < |s| && Ordered(s, PitchKey, false)
    ensures CountBelow(s[..k], s[k] + 1) == k
  {
    forall j | 0 <= j < k ensures s[j] <= s[k] {
      assert !Precedes(s[k], s[j], PitchKey, false);
    }
    CountAllBelow(s[..k], s[k] + 1);
  }

  lemma NoneBelow(s: seq<int>, k: nat)
    requires k < |s| && Ordered(s, PitchKey, false)
    ensures CountBelow(s[k + 1..], s[k]) == 0
  {
    forall j | k < j < |s| ensures s[j] >= s[k] {
      assert !Precedes(s[j], s[k], PitchKey, false);
    }
    CountNoneBelow(s[k + 1..], s[k]);
  }

  lemma {:induction false} CountAllBelow(ps: seq<int>, bound: int)
    requires forall i :: 0 <= i < |ps| ==> ps[i] < bound
    ensures CountBelow(ps, bound) == |ps|
  {
    if ps != [] {
      CountAllBelow(ps[..|ps| - 1], bound);
    }
  }

  lemma {:induction false} CountNoneBelow(ps: seq<int>, bound: int)
    requires forall i :: 0 <= i < |ps| ==> ps[i] >= bound
    ensures CountBelow(ps, bound) == 0
  {
    if ps != [] {
      CountNoneBelow(ps[..|ps| - 1], bound);
    }
  }

  /** `sorted(ps)[len(ps) // 2]` is the upper median of `ps`. */
  lemma UpperMedianIsMedian(ps: seq<int>)
    requires ps != []
    ensures IsUpperMedian(ps, UpperMedian(ps))
  {
    var s := SortBy(ps, PitchKey, false);
    SortByOrderedPermutation(ps, PitchKey, false);
    var k := |ps| / 2;
    var m := s[k];
    assert m in multiset(s);
    SortedRank(s, k);
    CountBelowPermutation(s, ps, m);
    CountBelowPermutation(s, ps, m + 1);
  }

  /** The upper median is unique: any two pitches with the median property are equal. */
  lemma UpperMedianUnique(ps: seq<int>, a: int, b: int)
    requires IsUpperMedian(ps, a) && IsUpperMedian(ps, b)
    ensures a == b
  {
    if a < b {
      CountBelowMonotone(ps, a + 1, b);
    } else if b < a {
      CountBelowMonotone(ps, b + 1, a);
    }
  }

  /**
   * `get_median_pitch`: collects every pitch of the part's notes and chords,
   * sorts them and takes the element at half the length; 60 when there are none.
   */
  method GetMedianPitch(p: Part) returns (m: int)
    ensures m == MedianOrDefault(AllPitches(Notes(p)))
    ensures AllPitches(Notes(p)) == [] ==> m == DefaultSplitPitch
    ensures AllPitches(Notes(p)) != [] ==> IsUpperMedian(AllPitches(Notes(p)), m)
  {
    var notes := Notes(p);
    var pitches := [];
    var i := 0;
    while i < |notes|
      invariant 0 <= i <= |notes|
      invariant pitches == AllPitches(notes[..i])
    {
      var n := notes[i];
      assert notes[..i + 1][..i] == notes[..i];
      if n.Chord? {
        var j := 0;
        while j < |n.pitches|
          invariant 0 <= j <= |n.pitches|
          invariant pitches == AllPitches(notes[..i]) + n.pitches[..j]
        {
          assert n.pitches[..j + 1] == n.pitches[..j] + [n.pitches[j]];
          pitches := pitches + [n.pitches[j]];
          j := j + 1;
        }
        assert n.pitches[..j] == n.pitches;
      } else if n.Note? {
        pitches := pitches + [n.pitch];
      }
      i := i + 1;
    }
    assert notes[..i] == notes;
    if pitches != [] {
      var sorted := StableSort(pitches, PitchKey, false);
      SortByOrderedPermutation(pitches, PitchKey, false);
      m := sorted[|sorted| / 2];
      UpperMedianIsMedian(pitches);
    } else {
      m := DefaultSplitPitch;
    }
  }
}
