/**
 * The feature stage of the detector: what a probe yields, the result
 * record kept per feature, the counts and support rate read from the list
 * of results, the comparator that orders that list and the in-place sort
 * that applies it, and the colour tier of the final score.
 */
module Features {

  /** What calling a feature's `test()` does: it returns a truthiness, or it throws. */
  datatype ProbeOutcome = Returns(value: bool) | Throws

  /** A feature definition, with the outcome its probe has in the current environment. */
  datatype Feature = Feature(name: string, probe: ProbeOutcome)

  /** One entry of `detectionResults`. */
  datatype FeatureResult = FeatureResult(name: string, supported: bool)

  /** Points taken off the score for each unsupported feature. */
  const MissingFeaturePenalty: nat := 3

  predicate AllReturn(features: seq<Feature>)
  {
    forall k :: 0 <= k < |features| ==> features[k].probe.Returns?
  }

  /** The position of the first probe that throws: the one that aborts `features.map(...)`. */
  function FirstThrow(features: seq<Feature>): (k: nat)
    requires !AllReturn(features)
    ensures k < |features| && features[k].probe.Throws?
    ensures AllReturn(features[..k])
  {
    if features[0].probe.Throws? then 0
    else
      assert features[1..][..FirstThrow(features[1..])] == features[1..1 + FirstThrow(features[1..])];
      1 + FirstThrow(features[1..])
  }

  /** The record `{ name, supported }` built for a feature whose probe returned. */
  function ResultOf(f: Feature): (r: FeatureResult)
    requires f.probe.Returns?
    ensures r.name == f.name && r.supported == f.probe.value
  {
    FeatureResult(f.name, f.probe.value)
  }

  /** `features.map(...)`: one record per feature, in definition order. */
  function Results(features: seq<Feature>): (rs: seq<FeatureResult>)
    requires AllReturn(features)
    ensures |rs| == |features|
    ensures forall k :: 0 <= k < |rs| ==> rs[k].name == features[k].name && rs[k].supported == features[k].probe.value
  {
    seq(|features|, k requires 0 <= k < |features| => ResultOf(features[k]))
  }

  /** `filter(item => item.supported).length` */
  function CountSupported(rs: seq<FeatureResult>): (n: nat)
    ensures n <= |rs|
  {
    if rs == [] then 0 else (if rs[0].supported then 1 else 0) + CountSupported(rs[1..])
  }

  /** `filter(item => !item.supported).length` */
  function CountUnsupported(rs: seq<FeatureResult>): (n: nat)
    ensures n <= |rs|
  {
    if rs == [] then 0 else (if rs[0].supported then 0 else 1) + CountUnsupported(rs[1..])
  }

  /** The points the feature stage takes off for its records: 3 for each unsupported one. */
  function ProbePenalty(rs: seq<FeatureResult>): nat
  {
    MissingFeaturePenalty * CountUnsupported(rs)
  }

  /** One more record costs 3 points when it is unsupported and nothing otherwise. */
  lemma ProbePenaltyAppend(rs: seq<FeatureResult>, r: FeatureResult)
    ensures ProbePenalty(rs + [r]) == ProbePenalty(rs) + (if r.supported then 0 else MissingFeaturePenalty)
  {
    CountsConcat(rs, [r]);
    assert [r][1..] == [];
  }

  /** Every record is counted exactly once, as supported or as unsupported. */
  lemma {:induction false} CountsPartition(rs: seq<FeatureResult>)
    ensures CountSupported(rs) + CountUnsupported(rs) == |rs|
  {
    if rs != [] {
      CountsPartition(rs[1..]);
    }
  }

  /** Both counts add up over a concatenation. */
  lemma {:induction false} CountsConcat(s: seq<FeatureResult>, t: seq<FeatureResult>)
    ensures CountSupported(s + t) == CountSupported(s) + CountSupported(t)
    ensures CountUnsupported(s + t) == CountUnsupported(s) + CountUnsupported(t)
  {
    if s == [] {
      assert s + t == t;
    } else {
      assert (s + t)[1..] == s[1..] + t;
      CountsConcat(s[1..], t);
    }
  }

  /** Reordering the records changes neither count: counting after the sort counts the probes. */
  lemma {:induction false} CountsPermutation(s: seq<FeatureResult>, t: seq<FeatureResult>)
    requires multiset(s) == multiset(t)
    ensures CountSupported(s) == CountSupported(t)
    ensures CountUnsupported(s) == CountUnsupported(t)
  {
    if s == [] {
      assert |t| == |multiset(t)| == 0;
    } else {
      var x := s[0];
      assert x in multiset(t);
      var k :| 0 <= k < |t| && t[k] == x;
      var rest := t[..k] + t[k + 1..];
      CountsRemove(t, k);
      assert s == [x] + s[1..];
      CountsConcat([x], s[1..]);
      assert multiset(s[1..]) == multiset(s) - multiset{x};
      CountsPermutation(s[1..], rest);
    }
  }

  /** Taking out the record at `k` leaves the other records, counted the same way. */
  lemma CountsRemove(t: seq<FeatureResult>, k: nat)
    requires k < |t|
    ensures multiset(t[..k] + t[k + 1..]) == multiset(t) - multiset{t[k]}
    ensures CountSupported(t) == CountSupported(t[..k] + t[k + 1..]) + CountSupported([t[k]])
    ensures CountUnsupported(t) == CountUnsupported(t[..k] + t[k + 1..]) + CountUnsupported([t[k]])
  {
    var before, middle, after := t[..k], [t[k]], t[k + 1..];
    SplitAt(t, k);
    CountsConcat(before + middle, after);
    CountsConcat(before, middle);
    CountsConcat(before, after);
  }

  /** A sequence is the part before `k`, the element at `k`, and the part after. */
  lemma SplitAt(t: seq<FeatureResult>, k: nat)
    requires k < |t|
    ensures t == t[..k] + [t[k]] + t[k + 1..]
  {
    assert t[..k + 1] == t[..k] + [t[k]];
    assert t == t[..k + 1] + t[k + 1..];
  }

  /** `getSupportRate`: `Math.round(100 * supported / total)`, and 0 when there are no records. */
  function SupportRate(rs: seq<FeatureResult>): (r: nat)
    ensures r <= 100
    ensures |rs| == 0 ==> r == 0
  {
    if |rs| == 0 then 0
    else
      CountsPartition(rs);
      RoundedPercent(CountSupported(rs), |rs|)
  }

  /**
   * The support rate is the whole number nearest to the exact percentage of
   * supported records, halves rounding up.
   */
  lemma SupportRateRounds(rs: seq<FeatureResult>)
    requires |rs| > 0
    ensures (2 * SupportRate(rs) - 1) * |rs| <= 200 * CountSupported(rs) < (2 * SupportRate(rs) + 1) * |rs|
  {
    CountsPartition(rs);
    RoundedPercentRounds(CountSupported(rs), |rs|);
  }

  /** `Math.round(100 * s / n)` on exact rationals. */
  function RoundedPercent(s: nat, n: nat): (r: nat)
    requires 0 < n && s <= n
    ensures r <= 100
  {
    RoundedPercentRounds(s, n);
    (200 * s + n) / (2 * n)
  }

  /** `(200 * s + n) / (2 * n)` is `100 * s / n` rounded half up, and at most 100. */
  lemma RoundedPercentRounds(s: nat, n: nat)
    requires 0 < n && s <= n
    ensures (200 * s + n) / (2 * n) <= 100
    ensures (2 * ((200 * s + n) / (2 * n)) - 1) * n <= 200 * s < (2 * ((200 * s + n) / (2 * n)) + 1) * n
  {
    var q := (200 * s + n) / (2 * n);
    var m := (200 * s + n) % (2 * n);
    QuotientBounds(s, n, q, m);
  }

  /** The bounds of `RoundedPercentRounds`, stated for any quotient `q` and remainder `m` of `200 * s + n` by `2 * n`. */
  lemma QuotientBounds(s: nat, n: nat, q: int, m: int)
    requires 0 < n && s <= n
    requires 200 * s + n == 2 * n * q + m && 0 <= m < 2 * n
    ensures q <= 100
    ensures (2 * q - 1) * n <= 200 * s < (2 * q + 1) * n
  {
    assert (2 * q - 1) * n == 2 * n * q - n;
    assert (2 * q + 1) * n == 2 * n * q + n;
  }

  /**
   * The comparator handed to `sort`: supported records first; within equal
   * status, `collate` on the names (the engine's `localeCompare`).
   */
  function Compare(a: FeatureResult, b: FeatureResult, collate: (string, string) -> int): int
  {
    if a.supported != b.supported then (if a.supported then -1 else 1)
    else collate(a.name, b.name)
  }

  /**
   * What `sort` needs of a comparator: its sign flips when the arguments are
   * swapped, and "not after" is transitive.
   */
  ghost predicate ConsistentCollation(collate: (string, string) -> int)
  {
    && (forall x, y :: collate(x, y) < 0 <==> collate(y, x) > 0)
    && (forall x, y, z :: collate(x, y) <= 0 && collate(y, z) <= 0 ==> collate(x, z) <= 0)
  }

  /** No record is strictly after a later one. */
  ghost predicate SortedBy(s: seq<FeatureResult>, collate: (string, string) -> int)
  {
    forall i, j :: 0 <= i < j < |s| ==> Compare(s[i], s[j], collate) <= 0
  }

  /** The comparator inherits consistency from the collation of the names: its sign flips when the arguments are swapped, and "not after" is transitive. */
  lemma CompareConsistent(a: FeatureResult, b: FeatureResult, c: FeatureResult, collate: (string, string) -> int)
    requires ConsistentCollation(collate)
    ensures Compare(a, b, collate) < 0 <==> Compare(b, a, collate) > 0
    ensures Compare(a, b, collate) <= 0 && Compare(b, c, collate) <= 0 ==> Compare(a, c, collate) <= 0
  {
    if Compare(a, b, collate) <= 0 && Compare(b, c, collate) <= 0 {
      if a.supported == b.supported && b.supported == c.supported {
        assert collate(a.name, b.name) <= 0 && collate(b.name, c.name) <= 0;
      }
    }
  }

  /**
   * A sorted list is exactly one in which every supported record precedes
   * every unsupported one and records of equal status are in name order.
   */
  lemma SortedMeaning(s: seq<FeatureResult>, collate: (string, string) -> int)
    ensures SortedBy(s, collate) <==>
      (&& (forall i, j :: 0 <= i < j < |s| && s[j].supported ==> s[i].supported)
       && (forall i, j :: 0 <= i < j < |s| && s[i].supported == s[j].supported ==> collate(s[i].name, s[j].name) <= 0))
  {
    if SortedBy(s, collate) {
      forall i, j | 0 <= i < j < |s| && s[j].supported ensures s[i].supported {
        assert Compare(s[i], s[j], collate) <= 0;
      }
    }
  }

  /**
   * `detectionResults.value.sort(comparator)`, in place. The engine's sort is
   * stable; an insertion sort, stable too, stands in for it. The contract
   * states that the array ends in comparator order and is a permutation of
   * what it held; stability is not stated.
   */
  method SortResults(a: array<FeatureResult>, collate: (string, string) -> int)
    requires ConsistentCollation(collate)
    modifies a
    ensures SortedBy(a[..], collate)
    ensures multiset(a[..]) == old(multiset(a[..]))
  {
    var i := 0;
    while i < a.Length
      invariant 0 <= i <= a.Length
      invariant SortedBy(a[..i], collate)
      invariant multiset(a[..]) == old(multiset(a[..]))
    {
      InsertLast(a, i, collate);
      i := i + 1;
    }
    assert a[..a.Length] == a[..];
  }

  /**
   * Halfway through inserting `s[i]`: the moving record sits at `j`, the
   * records before it and those from it up to `i` are each in order, and
   * nothing before `j` is after anything past `j`.
   */
  ghost predicate Inserting(s: seq<FeatureResult>, j: nat, i: nat, collate: (string, string) -> int)
  {
    && j <= i < |s|
    && (forall k, l :: 0 <= k < l < j ==> Compare(s[k], s[l], collate) <= 0)
    && (forall k, l :: j <= k < l <= i ==> Compare(s[k], s[l], collate) <= 0)
    && (forall k, l :: 0 <= k < j < l <= i ==> Compare(s[k], s[l], collate) <= 0)
  }

  /** Swapping the moving record with a predecessor that is after it keeps the insertion invariant. */
  lemma InsertingSwap(s: seq<FeatureResult>, j: nat, i: nat, collate: (string, string) -> int)
    requires ConsistentCollation(collate)
    requires Inserting(s, j, i, collate) && 0 < j && Compare(s[j - 1], s[j], collate) > 0
    ensures Inserting(s[j - 1 := s[j]][j := s[j - 1]], j - 1, i, collate)
  {
    CompareConsistent(s[j - 1], s[j], s[j], collate);
  }

  /** Once the moving record is not before its predecessor, `s[..i + 1]` is in order. */
  lemma InsertingDone(s: seq<FeatureResult>, j: nat, i: nat, collate: (string, string) -> int)
    requires ConsistentCollation(collate)
    requires Inserting(s, j, i, collate) && (j == 0 || Compare(s[j - 1], s[j], collate) <= 0)
    ensures SortedBy(s[..i + 1], collate)
  {
    forall k, l | 0 <= k < l <= i ensures Compare(s[k], s[l], collate) <= 0 {
      if k < j && l == j && k < j - 1 {
        CompareConsistent(s[k], s[j - 1], s[j], collate);
      }
    }
  }

  /** Swapping two neighbours at or before `i` permutes the records and keeps those after `i`. */
  lemma SwapPermutes(s: seq<FeatureResult>, j: nat, i: nat)
    requires 0 < j <= i < |s|
    ensures multiset(s[j - 1 := s[j]][j := s[j - 1]]) == multiset(s)
    ensures s[j - 1 := s[j]][j := s[j - 1]][i + 1..] == s[i + 1..]
  {
    var t := s[j - 1 := s[j]][j := s[j - 1]];
    assert t == s[..j - 1] + [s[j], s[j - 1]] + s[j + 1..];
    assert s == s[..j - 1] + [s[j - 1], s[j]] + s[j + 1..];
  }

  /** Moves `a[i]` left past every record of `a[..i]` that the comparator puts after it. */
  method InsertLast(a: array<FeatureResult>, i: nat, collate: (string, string) -> int)
    requires ConsistentCollation(collate)
    requires i < a.Length && SortedBy(a[..i], collate)
    modifies a
    ensures SortedBy(a[..i + 1], collate)
    ensures multiset(a[..]) == old(multiset(a[..]))
    ensures a[i + 1..] == old(a[i + 1..])
  {
    var j: nat := i;
    assert Inserting(a[..], j, i, collate);
    while j > 0 && Compare(a[j - 1], a[j], collate) > 0
      invariant Inserting(a[..], j, i, collate)
      invariant multiset(a[..]) == old(multiset(a[..]))
      invariant a[i + 1..] == old(a[i + 1..])
    {
      ghost var before := a[..];
      InsertingSwap(before, j, i, collate);
      SwapPermutes(before, j, i);
      a[j - 1], a[j] := a[j], a[j - 1];
      assert a[..] == before[j - 1 := before[j]][j := before[j - 1]];
      j := j - 1;
    }
    InsertingDone(a[..], j, i, collate);
    assert a[..][..i + 1] == a[..i + 1];
  }

  /** `scoreColorClass`: the colour tier of a score. */
  function ScoreColorClass(score: int): (c: string)
    ensures c == "score-green" <==> score == 100
    ensures c == "score-yellow" <==> 80 <= score && score != 100
    ensures c == "score-orange" <==> 70 <= score < 80
    ensures c == "score-red" <==> score < 70
  {
    if score == 100 then "score-green"
    else if score >= 80 then "score-yellow"
    else if score >= 70 then "score-orange"
    else "score-red"
  }
}
