/**
 * The legend's list of markers (`LegendCardView.uniqueMarkers`): the distinct
 * markers of its input, sorted by raw value.
 */
module LegendCard {
  import opened Boards

  /** String `<`: lexicographic by character. The raw values compared here are ASCII. */
  predicate StringLess(a: string, b: string) {
    if a == [] then b != []
    else if b == [] then false
    else a[0] < b[0] || (a[0] == b[0] && StringLess(a[1..], b[1..]))
  }

  /** The six markers in increasing raw-value order: "an" < "go" < "good" < "ha" < "hon" < "teki". */
  const MarkersByRawValue: seq<Marker> := [An, Go, Good, Ha, Hon, Teki]

  /** A marker's place in raw-value order. */
  function Rank(m: Marker): (r: nat)
    ensures r < |MarkersByRawValue| && MarkersByRawValue[r] == m
  {
    match m
    case An => 0
    case Go => 1
    case Good => 2
    case Ha => 3
    case Hon => 4
    case Teki => 5
  }

  lemma {:induction false} StringLessIrreflexive(a: string)
    ensures !StringLess(a, a)
  {
    if a != [] { StringLessIrreflexive(a[1..]); }
  }

  lemma {:induction false} StringLessAsymmetric(a: string, b: string)
    requires StringLess(a, b)
    ensures !StringLess(b, a)
  {
    if a != [] && b != [] && a[0] == b[0] { StringLessAsymmetric(a[1..], b[1..]); }
  }

  lemma {:induction false} StringLessTransitive(a: string, b: string, c: string)
    requires StringLess(a, b) && StringLess(b, c)
    ensures StringLess(a, c)
  {
    if a != [] && a[0] == b[0] && b[0] == c[0] { StringLessTransitive(a[1..], b[1..], c[1..]); }
  }

  /** Neighbours in MarkersByRawValue are in raw-value order. */
  lemma NeighboursOrdered(i: nat)
    requires i + 1 < |MarkersByRawValue|
    ensures StringLess(MarkersByRawValue[i].RawValue(), MarkersByRawValue[i + 1].RawValue())
  {
    var a, b := MarkersByRawValue[i].RawValue(), MarkersByRawValue[i + 1].RawValue();
    if i == 1 {
      assert a == "go" && b == "good";
      assert a[0] == b[0] && a[1..][0] == b[1..][0] && a[1..][1..] == [];
    } else if i == 3 {
      assert a == "ha" && b == "hon";
      assert a[0] == b[0] && a[1..][0] < b[1..][0];
    } else {
      assert a[0] < b[0];
    }
  }

  /** Any two entries of MarkersByRawValue are in raw-value order. */
  lemma {:induction false} EntriesOrdered(i: nat, j: nat)
    requires i < j < |MarkersByRawValue|
    ensures StringLess(MarkersByRawValue[i].RawValue(), MarkersByRawValue[j].RawValue())
  {
    NeighboursOrdered(j - 1);
    if i < j - 1 {
      EntriesOrdered(i, j - 1);
      StringLessTransitive(MarkersByRawValue[i].RawValue(), MarkersByRawValue[j - 1].RawValue(),
                           MarkersByRawValue[j].RawValue());
    }
  }

  /** Comparing raw values is comparing ranks. */
  lemma RankOrdersRawValues(a: Marker, b: Marker)
    ensures StringLess(a.RawValue(), b.RawValue()) <==> Rank(a) < Rank(b)
  {
    if Rank(a) < Rank(b) {
      EntriesOrdered(Rank(a), Rank(b));
    } else if Rank(a) == Rank(b) {
      StringLessIrreflexive(a.RawValue());
    } else {
      EntriesOrdered(Rank(b), Rank(a));
      StringLessAsymmetric(b.RawValue(), a.RawValue());
    }
  }

  /** Strictly increasing by raw value, the order the legend's sort produces. */
  predicate SortedByRawValue(s: seq<Marker>) {
    forall i, j :: 0 <= i < j < |s| ==> StringLess(s[i].RawValue(), s[j].RawValue())
  }

  predicate IncreasingRank(s: seq<Marker>) {
    forall i, j :: 0 <= i < j < |s| ==> Rank(s[i]) < Rank(s[j])
  }

  lemma {:induction false} SortedIsIncreasingRank(s: seq<Marker>)
    ensures SortedByRawValue(s) <==> IncreasingRank(s)
  {
    forall a: Marker, b: Marker { RankOrdersRawValues(a, b); }
  }

  /** The markers of rank `k` or more that occur in `present`, in raw-value order. */
  function PresentFrom(k: nat, present: seq<Marker>): (r: seq<Marker>)
    requires k <= |MarkersByRawValue|
    ensures forall m :: m in r <==> Rank(m) >= k && m in present
    ensures IncreasingRank(r)
    decreases |MarkersByRawValue| - k
  {
    if k == |MarkersByRawValue| then []
    else
      var m := MarkersByRawValue[k];
      (if m in present then [m] else []) + PresentFrom(k + 1, present)
  }

  /** `Array(Set(markers)).sorted { $0.rawValue < $1.rawValue }`. */
  function UniqueMarkers(markers: seq<Marker>): (r: seq<Marker>)
    ensures forall m :: m in r <==> m in markers
    ensures SortedByRawValue(r)
    ensures forall i, j :: 0 <= i < j < |r| ==> r[i] != r[j]
  {
    var r := PresentFrom(0, markers);
    SortedIsIncreasingRank(r);
    r
  }

  /** The head of a rank-increasing sequence has the least rank in it. */
  lemma {:induction false} HeadHasLeastRank(s: seq<Marker>)
    requires IncreasingRank(s) && s != []
    ensures forall m :: m in s ==> Rank(s[0]) <= Rank(m)
  {
    forall m | m in s ensures Rank(s[0]) <= Rank(m) {
      var j :| 0 <= j < |s| && s[j] == m;
      if j > 0 {
        assert Rank(s[0]) < Rank(s[j]);
      }
    }
  }

  /** The tail of a rank-increasing sequence is rank-increasing and holds everything but the head. */
  lemma {:induction false} TailOfIncreasing(s: seq<Marker>)
    requires IncreasingRank(s) && s != []
    ensures IncreasingRank(s[1..])
    ensures forall m :: m in s[1..] <==> m in s && m != s[0]
  {
    var tail := s[1..];
    assert s == [s[0]] + tail;
    forall a, b | 0 <= a < b < |tail| ensures Rank(tail[a]) < Rank(tail[b]) {
      assert tail[a] == s[a + 1] && tail[b] == s[b + 1];
    }
    forall m | m in tail ensures m != s[0] {
      var j :| 0 <= j < |tail| && tail[j] == m;
      assert Rank(s[0]) < Rank(s[j + 1]);
    }
  }

  /** Two rank-increasing sequences with the same elements are equal. */
  lemma {:induction false} IncreasingRankUnique(s: seq<Marker>, t: seq<Marker>)
    requires IncreasingRank(s) && IncreasingRank(t)
    requires forall m :: m in s <==> m in t
    ensures s == t
  {
    assert t != [] ==> t[0] in t;
    if s != [] {
      assert s[0] in s;
      HeadHasLeastRank(s);
      HeadHasLeastRank(t);
      assert Rank(s[0]) == Rank(t[0]);
      assert s[0] == MarkersByRawValue[Rank(s[0])] == t[0];
      TailOfIncreasing(s);
      TailOfIncreasing(t);
      IncreasingRankUnique(s[1..], t[1..]);
      assert s == [s[0]] + s[1..] && t == [t[0]] + t[1..];
    }
  }

  /** Any raw-value-sorted arrangement of the input's distinct markers is exactly `uniqueMarkers`. */
  lemma {:induction false} UniqueMarkersIsTheSort(markers: seq<Marker>, sorted: seq<Marker>)
    requires SortedByRawValue(sorted)
    requires forall m :: m in sorted <==> m in markers
    ensures sorted == UniqueMarkers(markers)
  {
    var r := UniqueMarkers(markers);
    SortedIsIncreasingRank(sorted);
    SortedIsIncreasingRank(r);
    IncreasingRankUnique(sorted, r);
  }

  /** Only the set of input markers matters: not their order, not their multiplicity. */
  lemma {:induction false} UniqueMarkersSetOnly(a: seq<Marker>, b: seq<Marker>)
    requires forall m :: m in a <==> m in b
    ensures UniqueMarkers(a) == UniqueMarkers(b)
    ensures |UniqueMarkers(a)| <= |AllMarkers|
  {
    UniqueMarkersIsTheSort(b, UniqueMarkers(a));
    var r := UniqueMarkers(a);
    assert forall i :: 0 <= i < |r| ==> Rank(r[i]) < 6;
    RankBound(r);
  }

  /** A rank-increasing sequence has at most six elements. */
  lemma {:induction false} RankBound(s: seq<Marker>)
    requires IncreasingRank(s) || SortedByRawValue(s)
    ensures |s| <= |AllMarkers|
  {
    SortedIsIncreasingRank(s);
    if |s| > 0 {
      forall i | 0 <= i < |s| ensures Rank(s[i]) >= i {
        if i > 0 { LowerRank(s, i); }
      }
      assert Rank(s[|s| - 1]) >= |s| - 1;
    }
  }

  lemma {:induction false} LowerRank(s: seq<Marker>, i: nat)
    requires IncreasingRank(s) && i < |s|
    ensures Rank(s[i]) >= i
  {
    if i > 0 {
      LowerRank(s, i - 1);
      assert Rank(s[i - 1]) < Rank(s[i]);
    }
  }

  /** The legend over every marker lists an, go, good, ha, hon, teki. */
  lemma UniqueMarkersOfAllCases()
    ensures UniqueMarkers(AllMarkers) == [An, Go, Good, Ha, Hon, Teki]
  {
    var expected := [An, Go, Good, Ha, Hon, Teki];
    assert IncreasingRank(expected);
    forall m ensures m in expected <==> m in AllMarkers {
      assert expected[Rank(m)] == m;
      MarkerLabelsInjective(m, m);
    }
    SortedIsIncreasingRank(expected);
    UniqueMarkersIsTheSort(AllMarkers, expected);
  }
}
