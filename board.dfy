/** The value types of a board: directions, markers, cells and the board itself. */
module Boards {
  import opened Wrappers
  import opened Sequences
  import opened BoardTypes
  import opened Dates

  /** The nine compass positions of the 3×3 grid. */
  datatype BoardPosition =
    NorthWest | North | NorthEast | West | Center | East | SouthWest | South | SouthEast
  {
    /** The enum's raw value. */
    function RawValue(): string {
      match this
      case NorthWest => "northWest"
      case North => "north"
      case NorthEast => "northEast"
      case West => "west"
      case Center => "center"
      case East => "east"
      case SouthWest => "southWest"
      case South => "south"
      case SouthEast => "southEast"
    }

    /** `id`: the raw value. */
    function Id(): string {
      RawValue()
    }

    /** The label shown in a cell, which also becomes the cell's first label. */
    function ShortLabel(): string {
      match this
      case NorthWest => "NW"
      case North => "N"
      case NorthEast => "NE"
      case West => "W"
      case Center => "C"
      case East => "E"
      case SouthWest => "SW"
      case South => "S"
      case SouthEast => "SE"
    }

    /** Where this position stands in `allCases`. */
    function Index(): (i: nat)
      ensures i < |AllPositions| && AllPositions[i] == this
    {
      match this
      case NorthWest => 0
      case North => 1
      case NorthEast => 2
      case West => 3
      case Center => 4
      case East => 5
      case SouthWest => 6
      case South => 7
      case SouthEast => 8
    }
  }

  /** `BoardPosition.allCases`: row by row from the north-west corner. */
  const AllPositions: seq<BoardPosition> :=
    [NorthWest, North, NorthEast, West, Center, East, SouthWest, South, SouthEast]

  /** allCases holds nine distinct positions, each of them, with the centre at index 4. */
  lemma AllPositionsDistinct()
    ensures |AllPositions| == 9 && AllPositions[4] == Center
    ensures forall i, j :: 0 <= i < j < |AllPositions| ==> AllPositions[i] != AllPositions[j]
    ensures forall p: BoardPosition :: p in AllPositions
  {
    forall p: BoardPosition ensures p in AllPositions {
      assert AllPositions[p.Index()] == p;
    }
  }

  /** No two positions share an id. */
  lemma PositionIdInjective(a: BoardPosition, b: BoardPosition)
    ensures a.Id() == b.Id() <==> a == b
  {
  }

  /** No two positions share a short label. */
  lemma PositionShortLabelInjective(a: BoardPosition, b: BoardPosition)
    ensures a.ShortLabel() == b.ShortLabel() <==> a == b
  {
  }

  /** The six symbolic tags a cell may carry. */
  datatype Marker = Good | Go | An | Hon | Teki | Ha
  {
    /** The enum's raw value, by which the legend sorts. */
    function RawValue(): string {
      match this
      case Good => "good"
      case Go => "go"
      case An => "an"
      case Hon => "hon"
      case Teki => "teki"
      case Ha => "ha"
    }

    /** The short glyph, written with ASCII parentheses. */
    function ShortLabel(): string {
      match this
      case Good => "(吉)"
      case Go => "(五)"
      case An => "(暗)"
      case Hon => "(本)"
      case Teki => "(的)"
      case Ha => "(破)"
    }

    /** The long title. */
    function Title(): string {
      match this
      case Good => "吉方"
      case Go => "五黄殺"
      case An => "暗剣殺"
      case Hon => "本命殺"
      case Teki => "本命的殺"
      case Ha => "歳破"
    }
  }

  /** `Marker.allCases`, in declaration order. */
  const AllMarkers: seq<Marker> := [Good, Go, An, Hon, Teki, Ha]

  /** There are exactly six markers, and raw value, short label and title each tell them apart. */
  lemma MarkerLabelsInjective(a: Marker, b: Marker)
    ensures |AllMarkers| == 6 && a in AllMarkers
    ensures a.RawValue() == b.RawValue() <==> a == b
    ensures a.ShortLabel() == b.ShortLabel() <==> a == b
    ensures a.Title() == b.Title() <==> a == b
  {
  }

  /** One cell of the grid; its identity (`id`) is its position. */
  datatype BoardCell = BoardCell(
    position: BoardPosition,
    starNumber: int,
    labels: seq<string>,
    markers: seq<Marker>)
  {
    function Id(): BoardPosition {
      position
    }
  }

  /** A computed board. */
  datatype Board = Board(
    boardType: BoardType,
    cells: seq<BoardCell>,
    center: BoardCell,
    generatedAt: Date)
  {
    /** `cell(at:)`: the first cell at `position`, or nil when no cell has it. */
    function CellAt(position: BoardPosition): (r: Option<BoardCell>)
      ensures r.Some? ==> r.value in cells && r.value.position == position
      ensures r.Some? ==> exists i :: 0 <= i < |cells| && cells[i] == r.value &&
                            forall j :: 0 <= j < i ==> cells[j].position != position
      ensures r.None? <==> forall c :: c in cells ==> c.position != position
    {
      FirstWhere(cells, (c: BoardCell) => c.position == position)
    }
  }
}
