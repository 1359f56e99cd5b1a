/** The granularity of a board: yearly, monthly or daily. */
module BoardTypes {

  datatype BoardType = Year | Month | Day {

    /** The enum's raw value; the type's `id` is this string. */
    function RawValue(): string {
      match this
      case Year => "year"
      case Month => "month"
      case Day => "day"
    }

    function Id(): string {
      RawValue()
    }

    /** The display title that becomes every cell's second label. */
    function Title(): string {
      match this
      case Year => "年盤"
      case Month => "月盤"
      case Day => "日盤"
    }
  }

  /** `BoardType.allCases`, in declaration order. */
  const AllBoardTypes: seq<BoardType> := [Year, Month, Day]

  /** allCases lists each of the three types exactly once, in the order year, month, day. */
  lemma AllBoardTypesComplete(t: BoardType)
    ensures |AllBoardTypes| == 3 && t in AllBoardTypes
    ensures AllBoardTypes[0] == Year && AllBoardTypes[1] == Month && AllBoardTypes[2] == Day
  {
  }

  /** Raw values (and hence ids) are distinct, so `id` identifies the type. */
  lemma RawValueInjective(a: BoardType, b: BoardType)
    ensures a.Id() == b.Id() <==> a == b
  {
  }

  /** Titles are pairwise distinct, so a cell's second label identifies the board type. */
  lemma TitleInjective(a: BoardType, b: BoardType)
    ensures a.Title() == b.Title() <==> a == b
  {
  }
}
