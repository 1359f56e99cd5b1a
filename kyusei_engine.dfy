/**
 * The placeholder board engine (`StubKyuseiEngine`), the one implementation of
 * the engine protocol: `generateBoard(type:date:location:profile:)`.
 *
 * The board depends only on the board type and the day of the month of the
 * requested date. The location and the profile are accepted and ignored.
 */
module StubKyuseiEngine {
  import opened Wrappers
  import opened Sequences
  import opened BoardTypes
  import opened Boards
  import opened Dates
  import opened AppLocations
  import opened Profiles

  /** The day-of-month calendar component of a date. */
  type DayOfMonth = d: int | 1 <= d <= 31 witness 1

  /** The additive offset each board type applies to the day of the month. */
  function TypeOffset(t: BoardType): nat {
    match t
    case Year => 0
    case Month => 2
    case Day => 4
  }

  /** A number less its remainder modulo 9 is a multiple of 9. */
  lemma RemainderDifference(n: int)
    ensures (n - n % 9) % 9 == 0
  {
    assert n - n % 9 == 9 * (n / 9);
  }

  /** `baseIndex(type:date:)`: the star number of the north-west cell, less one. */
  function BaseIndex(t: BoardType, day: DayOfMonth): (r: nat)
    ensures r < 9
    ensures (day + TypeOffset(t) - r) % 9 == 0
  {
    RemainderDifference(day + TypeOffset(t));
    match t
    case Year => day % 9
    case Month => (day + 2) % 9
    case Day => (day + 4) % 9
  }

  /** `markers(for:)`: the fixed table from star number to markers. */
  function MarkersFor(star: int): (r: seq<Marker>)
    ensures |r| <= 2 && forall i, j :: 0 <= i < j < |r| ==> r[i] != r[j]
    ensures Good in r <==> star == 1 || star == 6 || star == 8
    ensures Go in r <==> star == 5
    ensures Ha in r <==> star == 5
    ensures Teki in r <==> star == 2
    ensures An in r <==> star == 3
    ensures Hon in r <==> star == 4
    ensures star == 5 ==> r == [Go, Ha]
  {
    if star == 1 || star == 6 || star == 8 then [Good]
    else if star == 5 then [Go, Ha]
    else if star == 2 then [Teki]
    else if star == 3 then [An]
    else if star == 4 then [Hon]
    else []
  }

  /** The star number of the cell at `index` in the walk over `allCases`. */
  function StarAt(base: nat, index: nat): (r: int)
    ensures 1 <= r <= 9
  {
    ((base + index) % 9) + 1
  }

  /** The cell built for one position. */
  function CellFor(t: BoardType, position: BoardPosition, star: int): BoardCell {
    BoardCell(position, star, [position.ShortLabel(), t.Title()], MarkersFor(star))
  }

  /**
   * `generateBoard(type:date:location:profile:)`. `day` is the day of the month
   * of `date` in the current calendar, which the caller supplies.
   */
  function GenerateBoard(t: BoardType, date: Date, day: DayOfMonth,
                         location: AppLocation, profile: Option<Profile>): (b: Board)
    ensures b.boardType == t && b.generatedAt == date
    ensures |b.cells| == |AllPositions| == 9
    ensures forall i :: 0 <= i < |b.cells| ==> b.cells[i].position == AllPositions[i]
    ensures forall i :: 0 <= i < |b.cells| ==> 1 <= b.cells[i].starNumber <= 9
    ensures forall i :: 0 <= i < |b.cells| ==>
              b.cells[i].labels == [AllPositions[i].ShortLabel(), t.Title()]
    ensures forall i :: 0 <= i < |b.cells| ==>
              b.cells[i].markers == MarkersFor(b.cells[i].starNumber)
    ensures b.center == b.cells[4] && b.center.position == Center
  {
    var positions := AllPositions;
    var base := BaseIndex(t, day);
    var cells := seq(|positions|, i requires 0 <= i < |positions| =>
                       CellFor(t, positions[i], StarAt(base, i)));
    var atCenter := (c: BoardCell) => c.position == Center;
    assert forall j :: 0 <= j < 4 ==> !atCenter(cells[j]);
    FirstWhereAt(cells, atCenter, 4);
    var center := FirstWhere(cells, atCenter).GetOr(cells[4]);
    Board(t, cells, center, date)
  }

  /** The star numbers of a board, cell by cell. */
  function StarNumbers(b: Board): seq<int> {
    seq(|b.cells|, i requires 0 <= i < |b.cells| => b.cells[i].starNumber)
  }

  /** The marker lists of a board, cell by cell. */
  function MarkerLists(b: Board): seq<seq<Marker>> {
    seq(|b.cells|, i requires 0 <= i < |b.cells| => b.cells[i].markers)
  }

  /** `s` rotated left by `k`. */
  function Rotate<T>(s: seq<T>, k: nat): seq<T>
    requires k <= |s|
  {
    s[k..] + s[..k]
  }

  lemma {:induction false} RotatePermutes<T>(s: seq<T>, k: nat)
    requires k <= |s|
    ensures multiset(Rotate(s, k)) == multiset(s)
  {
    assert s == s[..k] + s[k..];
  }

  const OneToNine: seq<int> := [1, 2, 3, 4, 5, 6, 7, 8, 9]

  /** The marker table read in star order 1..9. */
  const MarkerColumn: seq<seq<Marker>> :=
    [MarkersFor(1), MarkersFor(2), MarkersFor(3), MarkersFor(4), MarkersFor(5),
     MarkersFor(6), MarkersFor(7), MarkersFor(8), MarkersFor(9)]

  /** The star at `index` is the `index`-th element of 1..9 rotated left by `base`. */
  lemma StarAtRotation(base: nat, index: nat)
    requires base < 9 && index < 9
    ensures StarAt(base, index) == Rotate(OneToNine, base)[index]
    ensures MarkersFor(StarAt(base, index)) == Rotate(MarkerColumn, base)[index]
  {
    var rotated := Rotate(OneToNine, base);
    if index < 9 - base {
      assert (base + index) % 9 == base + index;
      assert rotated[index] == OneToNine[base + index];
    } else {
      assert (base + index) % 9 == base + index - 9;
      assert rotated[index] == OneToNine[index - (9 - base)];
    }
    assert MarkerColumn[StarAt(base, index) - 1] == Rotate(MarkerColumn, base)[index];
  }

  /** Walking the positions in order reads the stars 1..9 rotated by the base index. */
  lemma StarsAreRotation(t: BoardType, date: Date, day: DayOfMonth,
                         location: AppLocation, profile: Option<Profile>)
    ensures var b := GenerateBoard(t, date, day, location, profile);
            StarNumbers(b) == Rotate(OneToNine, BaseIndex(t, day)) &&
            MarkerLists(b) == Rotate(MarkerColumn, BaseIndex(t, day))
  {
    var b := GenerateBoard(t, date, day, location, profile);
    var base := BaseIndex(t, day);
    forall i | 0 <= i < 9
      ensures StarNumbers(b)[i] == Rotate(OneToNine, base)[i]
      ensures MarkerLists(b)[i] == Rotate(MarkerColumn, base)[i]
    {
      assert b.cells[i].starNumber == StarAt(base, i);
      StarAtRotation(base, i);
    }
  }

  /** Distinct indexes get distinct stars. */
  lemma StarAtInjective(base: nat, i: nat, j: nat)
    requires base < 9 && i < j < 9
    ensures StarAt(base, i) != StarAt(base, j)
  {
    assert (base + i) % 9 == if base + i < 9 then base + i else base + i - 9;
    assert (base + j) % 9 == if base + j < 9 then base + j else base + j - 9;
  }

  /** 1..9 rotated by any base below 9 is still 1..9 without repetition. */
  lemma RotatedStarsDistinct(base: nat)
    requires base < 9
    ensures var stars := Rotate(OneToNine, base);
            (forall i, j :: 0 <= i < j < |stars| ==> stars[i] != stars[j]) &&
            (forall k :: 1 <= k <= 9 ==> k in stars)
  {
    var stars := Rotate(OneToNine, base);
    forall i, j | 0 <= i < j < |stars| ensures stars[i] != stars[j] {
      StarAtRotation(base, i);
      StarAtRotation(base, j);
      StarAtInjective(base, i, j);
    }
    forall k | 1 <= k <= 9 ensures k in stars {
      var i := if k - 1 >= base then k - 1 - base else k - 1 - base + 9;
      assert (base + i) % 9 == k - 1;
      StarAtRotation(base, i);
      assert stars[i] == k;
    }
  }

  /** The nine star numbers are a permutation of 1..9: pairwise distinct, each of 1..9 present. */
  lemma StarsPermutation(t: BoardType, date: Date, day: DayOfMonth,
                         location: AppLocation, profile: Option<Profile>)
    ensures var stars := StarNumbers(GenerateBoard(t, date, day, location, profile));
            multiset(stars) == multiset(OneToNine) &&
            (forall i, j :: 0 <= i < j < |stars| ==> stars[i] != stars[j]) &&
            (forall k :: 1 <= k <= 9 ==> k in stars)
  {
    StarsAreRotation(t, date, day, location, profile);
    RotatePermutes(OneToNine, BaseIndex(t, day));
    RotatedStarsDistinct(BaseIndex(t, day));
  }

  /** The marker table, written out in star order 1..9. */
  lemma MarkerColumnIsTable()
    ensures MarkerColumn == [[Good], [Teki], [An], [Hon], [Go, Ha], [Good], [], [Good], []]
  {
  }

  /** The marker table's lists, counted as a multiset. */
  lemma TableMultiset()
    ensures multiset([[Good], [Teki], [An], [Hon], [Go, Ha], [Good], [], [Good], []])
            == multiset{[Good], [Good], [Good], [], [], [Go, Ha], [Teki], [An], [Hon]}
  {
  }

  /** How often each list occurs in that multiset. */
  lemma TableCounts()
    ensures var m := multiset{[Good], [Good], [Good], [], [], [Go, Ha], [Teki], [An], [Hon]};
            m[[Good]] == 3 && m[[]] == 2 && m[[Go, Ha]] == 1 &&
            m[[Teki]] == 1 && m[[An]] == 1 && m[[Hon]] == 1
  {
  }

  /** The marker table read over stars 1..9 holds [good] three times, [] twice and each other list once. */
  lemma MarkerColumnCounts()
    ensures var m := multiset(MarkerColumn);
            m[[Good]] == 3 && m[[]] == 2 && m[[Go, Ha]] == 1 &&
            m[[Teki]] == 1 && m[[An]] == 1 && m[[Hon]] == 1
  {
    MarkerColumnIsTable();
    TableMultiset();
    TableCounts();
  }

  /** Marker table fidelity, counted over the board: three cells carry exactly [good], two carry nothing. */
  lemma MarkerCounts(t: BoardType, date: Date, day: DayOfMonth,
                     location: AppLocation, profile: Option<Profile>)
    ensures var lists := MarkerLists(GenerateBoard(t, date, day, location, profile));
            multiset(lists)[[Good]] == 3 && multiset(lists)[[]] == 2 &&
            multiset(lists)[[Go, Ha]] == 1 && multiset(lists)[[Teki]] == 1 &&
            multiset(lists)[[An]] == 1 && multiset(lists)[[Hon]] == 1
  {
    StarsAreRotation(t, date, day, location, profile);
    RotatePermutes(MarkerColumn, BaseIndex(t, day));
    MarkerColumnCounts();
  }

  /** `cell(at:)` finds every position on a generated board, at its index in allCases. */
  lemma CellAtTotal(t: BoardType, date: Date, day: DayOfMonth,
                    location: AppLocation, profile: Option<Profile>, p: BoardPosition)
    ensures var b := GenerateBoard(t, date, day, location, profile);
            b.CellAt(p) == Some(b.cells[p.Index()])
  {
    var b := GenerateBoard(t, date, day, location, profile);
    AllPositionsDistinct();
    assert b.cells[p.Index()].position == p;
  }

  /** Cell ids are pairwise distinct, so the cells can be listed by id. */
  lemma CellIdsDistinct(t: BoardType, date: Date, day: DayOfMonth,
                        location: AppLocation, profile: Option<Profile>)
    ensures var b := GenerateBoard(t, date, day, location, profile);
            forall i, j :: 0 <= i < j < |b.cells| ==> b.cells[i].Id() != b.cells[j].Id()
  {
    AllPositionsDistinct();
  }

  /** The board ignores the location and the profile. */
  lemma IgnoresLocationAndProfile(t: BoardType, date: Date, day: DayOfMonth,
                                  l1: AppLocation, p1: Option<Profile>,
                                  l2: AppLocation, p2: Option<Profile>)
    ensures GenerateBoard(t, date, day, l1, p1) == GenerateBoard(t, date, day, l2, p2)
  {
  }

  /** A daily board for the 15th: base 1, so NW holds 2 (teki), C holds 6 (good), SE holds 1 (good). */
  lemma DayBoardOnFifteenth(date: Date, location: AppLocation, profile: Option<Profile>)
    ensures BaseIndex(Day, 15) == 1
    ensures var b := GenerateBoard(Day, date, 15, location, profile);
            b.cells[0].position == NorthWest && b.cells[0].starNumber == 2 &&
            b.cells[0].markers == [Teki] && b.cells[0].labels == ["NW", "日盤"] &&
            b.center.starNumber == 6 && b.center.markers == [Good] &&
            b.cells[8].position == SouthEast && b.cells[8].starNumber == 1 &&
            b.cells[8].markers == [Good]
  {
    var b := GenerateBoard(Day, date, 15, location, profile);
    assert BaseIndex(Day, 15) == 1;
    StarsAreRotation(Day, date, 15, location, profile);
    var stars := StarNumbers(b);
    assert stars == Rotate(OneToNine, 1);
    assert stars[0] == 2 && stars[4] == 6 && stars[8] == 1;
    assert b.cells[0].starNumber == 2 && b.cells[4].starNumber == 6 && b.cells[8].starNumber == 1;
  }
}
