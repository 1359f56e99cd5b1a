# Kyusei board app — a Dafny model of its core

This project models the parts of the Kyusei (nine-star) almanac app that hold real
behaviour:

- **Board generation** (`StubKyuseiEngine.generateBoard`). It builds a 3×3 board of
  directional cells for a board type (year, month or day) and a date. A base index
  comes from the date's day of the month plus an offset per board type (0, 2 or 4),
  taken mod 9. The nine positions are walked in `allCases` order (NW, N, NE, W, C,
  E, SW, S, SE). The cell at index *i* gets star `((base + i) mod 9) + 1`, the
  labels `[position short label, board-type title]` and the markers of a fixed
  table keyed by star. `center` is the cell at `.center`.
- **The board value types**: `BoardPosition`, `Marker`, `BoardCell`, `Board` with
  `cell(at:)`, and `BoardType` with its titles and ids.
- **The application state holder** (`AppStore`): a class of six mutable fields,
  its initialiser with defaults, and the derived `selectedProfile` lookup.
- **Glossary lookup** (`GlossaryRepository`): `normalize` turns full-width
  parentheses into ASCII ones and trims whitespace. `term(for:)` returns the first
  term whose normalised short label equals the normalised query.
- **The legend's marker list** (`LegendCardView.uniqueMarkers`): the input's
  distinct markers, sorted by raw value.
- **The date bar** (`DateBarView`): `clamped`, `moveDate(by:)` and the picker's
  clamping getter and setter. After `moveDate(by:)` or the picker's setter writes
  `selectedDate`, it lies within 1900-01-01 … 2100-12-31. Other writers, such as
  the settings screen's date picker and `AppStore`'s initialiser, store dates
  unclamped.

Swift's `first(where:)` appears in `cell(at:)`, in the engine's choice of
`center`, in `selectedProfile` and in `term(for:)`. It is modelled once, in
module `Sequences`, and its contract (the first match, or nil exactly when
nothing matches) carries every lookup's proof.

Modelling choices:

- Dates are whole day numbers counted from 1970-01-01. Adding days is integer
  addition.
- The engine receives the date's day of the month (1..31) as a separate input.
  The date itself is kept only as `generatedAt`.
- `AppLocation` and `DisplaySettings` keep their `Double` fields as `real`
  values. These values are only stored and compared.
- Profile ids are 128-bit numbers.

What the code does, stated where it is easy to assume otherwise:

- The base index reads only the day of the month of the date
  (`Sources/Data/StubKyuseiEngine.swift:22-32`). The month, the profile and the
  location are never read, so `GenerateBoard` takes the location and the profile
  and ignores them (`IgnoresLocationAndProfile`). A daily board on the 15th has
  base (15 + 4) mod 9 = 1 (`DayBoardOnFifteenth`).
- `markers(for:)` returns an ordered list, `[go, ha]` for star 5, and the model
  keeps the list.
- `AppStore` holds the selection and the profile list but has no operation that
  adds, deletes or selects a profile, persists a change or reads the device
  location. Its `selectedProfile` yields nil when no profile carries the selected id.
- The engine protocol (`Sources/Domain/KyuseiEngine.swift:3-10`) declares only
  `generateBoard(type:date:location:profile:)`, and that is what is modelled.

## Model

| member | source | states |
|---|---|---|
| `Sequences.FirstIndex` | Sources/Domain/Board.swift:19 | `first(where:)` by index: the index found satisfies the predicate and no earlier element does; none is found exactly when no element satisfies it |
| `Sequences.FirstWhere` | Sources/Domain/Board.swift:19 | `first(where:)`: the element found is in the sequence, satisfies the predicate and is the earliest that does; nil exactly when no element satisfies it |
| `Sequences.FirstWhereAt` | Sources/Data/StubKyuseiEngine.swift:18 | an element that satisfies the predicate, with no earlier element that does, is what `first(where:)` returns |
| `BoardTypes.BoardType.RawValue` | Sources/Domain/BoardType.swift:3-8 | the raw values are "year", "month", "day"; `RawValueInjective` shows they tell the types apart |
| `BoardTypes.BoardType.Title` | Sources/Domain/BoardType.swift:10-19 | the titles are 年盤, 月盤, 日盤; `TitleInjective` shows they are pairwise distinct |
| `BoardTypes.AllBoardTypesComplete` | Sources/Domain/BoardType.swift:3-6 | `allCases` is exactly year, month, day in that order and contains every type |
| `BoardTypes.RawValueInjective` | Sources/Domain/BoardType.swift:3-8 | `id` (the raw value) of two board types is equal iff the types are equal |
| `BoardTypes.TitleInjective` | Sources/Domain/BoardType.swift:10-19 | the titles 年盤/月盤/日盤 are pairwise distinct, so a cell's second label identifies the board type |
| `Boards.BoardPosition.Id` | Sources/Domain/Board.swift:54-65 | a position's `id` is its raw value, "northWest" … "southEast"; `PositionIdInjective` shows no two positions share one |
| `Boards.BoardPosition.ShortLabel` | Sources/Domain/Board.swift:67-78 | the short labels NW, N, NE, W, C, E, SW, S, SE; `PositionShortLabelInjective` shows they are pairwise distinct |
| `Boards.BoardPosition.Index` | Sources/Domain/Board.swift:54-63 | every position stands in `allCases` at the index returned |
| `Boards.AllPositionsDistinct` | Sources/Domain/Board.swift:54-63 | `allCases` has 9 pairwise distinct positions, contains every position, and has the centre at index 4 |
| `Boards.PositionIdInjective` | Sources/Domain/Board.swift:65 | two positions have the same `id` iff they are the same position |
| `Boards.PositionShortLabelInjective` | Sources/Domain/Board.swift:67-78 | the short labels NW … SE are equal only for equal positions |
| `Boards.Marker.RawValue` | Sources/Domain/Board.swift:23-29 | the raw values good, go, an, hon, teki, ha, by which the legend sorts |
| `Boards.Marker.ShortLabel` | Sources/Domain/Board.swift:31-40 | the glyphs (吉), (五), (暗), (本), (的), (破), written with ASCII parentheses |
| `Boards.Marker.Title` | Sources/Domain/Board.swift:42-51 | the titles 吉方, 五黄殺, 暗剣殺, 本命殺, 本命的殺, 歳破 |
| `Boards.MarkerLabelsInjective` | Sources/Domain/Board.swift:23-51 | there are 6 markers; raw value, short label and title each tell any two apart |
| `Boards.Board.CellAt` | Sources/Domain/Board.swift:18-20 | `cell(at:)` returns a cell of the board at the requested position, the first such; nil exactly when no cell has that position |
| `StubKyuseiEngine.BaseIndex` | Sources/Data/StubKyuseiEngine.swift:22-32 | the base lies in 0..8 and is congruent mod 9 to the day of the month plus 0 (year), 2 (month) or 4 (day) |
| `StubKyuseiEngine.MarkersFor` | Sources/Data/StubKyuseiEngine.swift:34-49 | the marker table read per marker: good iff star 1, 6 or 8; go and ha iff 5, in the order [go, ha]; teki iff 2; an iff 3; hon iff 4; no duplicates; so 7 and 9 get none |
| `StubKyuseiEngine.StarAt` | Sources/Data/StubKyuseiEngine.swift:9 | the star of the cell at index i is always in 1..9; `StarAtRotation` gives its value as element i of 1..9 rotated left by the base |
| `StubKyuseiEngine.CellFor` | Sources/Data/StubKyuseiEngine.swift:10-15 | a cell holds its position, its star, the labels [position short label, type title] and the table's markers for its star |
| `StubKyuseiEngine.GenerateBoard` | Sources/Data/StubKyuseiEngine.swift:4-20 | the board has the requested type and date and 9 cells; cell i is at `allCases[i]`, has a star in 1..9, the labels [position short label, type title] and the table's markers for its star; `center` is cell 4, at `.center` |
| `StubKyuseiEngine.StarAtRotation` | Sources/Data/StubKyuseiEngine.swift:8-9 | the star at index i is element i of 1..9 rotated left by the base, and its markers are element i of the marker table rotated the same way |
| `StubKyuseiEngine.StarsAreRotation` | Sources/Data/StubKyuseiEngine.swift:5-16 | reading the board's stars in cell order gives 1..9 rotated left by the base index, and its marker lists give the marker table rotated by the same amount |
| `StubKyuseiEngine.StarAtInjective` | Sources/Data/StubKyuseiEngine.swift:9 | two different indexes below 9 never get the same star |
| `StubKyuseiEngine.RotatedStarsDistinct` | Sources/Data/StubKyuseiEngine.swift:9 | 1..9 rotated by any base is repetition-free and still holds each of 1..9 |
| `StubKyuseiEngine.StarsPermutation` | Sources/Data/StubKyuseiEngine.swift:8-9 | the nine star numbers are a permutation of 1..9: same multiset, pairwise distinct, each of 1..9 present |
| `StubKyuseiEngine.TableMultiset` | Sources/Data/StubKyuseiEngine.swift:34-49 | the table's nine lists, read in star order, form the multiset of three [good], two [], and one each of [go, ha], [teki], [an], [hon] |
| `StubKyuseiEngine.TableCounts` | Sources/Data/StubKyuseiEngine.swift:34-49 | in that multiset [good] occurs three times, [] twice and each other list once |
| `StubKyuseiEngine.MarkerColumnCounts` | Sources/Data/StubKyuseiEngine.swift:34-49 | over stars 1..9 the table gives [good] three times, no marker twice, and [go, ha], [teki], [an], [hon] once each |
| `StubKyuseiEngine.MarkerCounts` | Sources/Data/StubKyuseiEngine.swift:34-49 | on every board exactly three cells carry [good], two carry no marker, and one each carries [go, ha], [teki], [an] and [hon] |
| `StubKyuseiEngine.CellAtTotal` | Sources/Data/StubKyuseiEngine.swift:5-18 | `cell(at:)` finds every position on a generated board, namely the cell at that position's index, so callers' `?? board.center` fallbacks are never taken |
| `StubKyuseiEngine.CellIdsDistinct` | Sources/Domain/Board.swift:9 | the ids of a generated board's cells are pairwise distinct |
| `StubKyuseiEngine.IgnoresLocationAndProfile` | Sources/Data/StubKyuseiEngine.swift:4-6 | the board is the same whatever location and profile are passed |
| `StubKyuseiEngine.DayBoardOnFifteenth` | Sources/Data/StubKyuseiEngine.swift:8-16 | a daily board on the 15th has base 1: NW holds star 2 with [teki] and labels [NW, 日盤], the centre star 6 with [good], SE star 1 with [good] |
| `Glossary.IsWhitespaceOrNewline` | Sources/Data/GlossaryRepository.swift:34 | `.whitespacesAndNewlines`: tab, U+000A–U+000D, space, U+0085, U+00A0, U+1680, U+2000–U+200A, U+2028, U+2029, U+202F, U+205F and U+3000 |
| `Glossary.ReplaceChar` | Sources/Data/GlossaryRepository.swift:32-33 | replacing one character keeps the length and changes exactly the occurrences of that character |
| `Glossary.TrimLeading` | Sources/Data/GlossaryRepository.swift:34 | the result is a suffix, every character dropped is whitespace, and the result does not start with whitespace |
| `Glossary.TrimTrailing` | Sources/Data/GlossaryRepository.swift:34 | the result is a prefix, every character dropped is whitespace, and the result does not end with whitespace |
| `Glossary.CutEdgesKeepsMiddle` | Sources/Data/GlossaryRepository.swift:34 | cutting a whitespace prefix up to the first non-whitespace character, then a whitespace suffix, leaves `s[a..b]` with only whitespace outside it |
| `Glossary.CutEdgesNoEdge` | Sources/Data/GlossaryRepository.swift:34 | such a cut leaves no whitespace at either edge, and leaves nothing exactly when the input is all whitespace |
| `Glossary.CutEdgesKeepsNormal` | Sources/Data/GlossaryRepository.swift:34 | such a cut keeps an input without edge whitespace whole |
| `Glossary.TrimCutsEdges` | Sources/Data/GlossaryRepository.swift:34 | the leading pass then the trailing pass perform such a cut |
| `Glossary.Trim` | Sources/Data/GlossaryRepository.swift:34 | the result is an unbroken middle `s[a..b]` of the input with only whitespace before `a` and after `b`, and no edge of it is whitespace; it is empty iff the input is all whitespace; an input with non-whitespace edges is returned unchanged |
| `Glossary.ReplaceBoth` | Sources/Data/GlossaryRepository.swift:32-33 | the two replacements map every character through `AsciiParen`: （ to (, ） to ), everything else kept |
| `Glossary.AsciiParenWhitespace` | Sources/Data/GlossaryRepository.swift:32-34 | a character whose ASCII-parenthesis image is whitespace was whitespace already |
| `Glossary.MiddleOfAsciiParen` | Sources/Data/GlossaryRepository.swift:32-34 | trimming the replaced string to its middle `a..b` keeps the middle `a..b` of the input, each full-width parenthesis made ASCII, with only whitespace outside |
| `Glossary.TrimOfAsciiParen` | Sources/Data/GlossaryRepository.swift:32-34 | trimming the replaced string keeps such a middle of the input |
| `Glossary.Normalize` | Sources/Data/GlossaryRepository.swift:31-35 | the result is the middle `a..b` of the input with （ and ） made ( and ), everything outside `a..b` is whitespace; the result holds no full-width parenthesis and has no whitespace or newline at either edge |
| `Glossary.NormalFormUnique` | Sources/Data/GlossaryRepository.swift:31-35 | two normalised middles of the same input, both without edge whitespace, are equal |
| `Glossary.NormalizeUnique` | Sources/Data/GlossaryRepository.swift:31-35 | any normalised middle of the input without edge whitespace is `normalize` of it, so the contract above determines the result |
| `Glossary.ReplaceAbsent` | Sources/Data/GlossaryRepository.swift:32-33 | replacing a character that does not occur changes nothing |
| `Glossary.NormalizeFixed` | Sources/Data/GlossaryRepository.swift:31-35 | a label with no full-width parentheses and no edge whitespace is returned unchanged |
| `Glossary.NormalizeIdempotent` | Sources/Data/GlossaryRepository.swift:31-35 | normalising twice gives the same as normalising once |
| `Glossary.TrimUnchanged` | Sources/Data/GlossaryRepository.swift:34 | a label whose first and last characters are not whitespace is left alone by trimming |
| `Glossary.NormalizeAsciiExample` | Sources/Data/GlossaryRepository.swift:31-35 | "(五)" is returned unchanged |
| `Glossary.NormalizeFullWidthExample` | Sources/Data/GlossaryRepository.swift:31-35 | "（五）" normalises to "(五)" |
| `Glossary.TrimPaddedExample` | Sources/Data/GlossaryRepository.swift:34 | trimming " (五) " with a trailing newline leaves "(五)" |
| `Glossary.NormalizePaddedExample` | Sources/Data/GlossaryRepository.swift:31-35 | " (五) " with a trailing newline normalises to "(五)" |
| `Glossary.MarkerShortLabelsNormal` | Sources/UI/Components/LegendCardView.swift:56 | every marker's short label is its own normal form, so the legend's lookup by short label compares it verbatim |
| `Glossary.GlossaryRepository.constructor` | Sources/Data/GlossaryRepository.swift:8-10 | `allTerms` holds the loaded terms |
| `Glossary.GlossaryRepository.TermFor` | Sources/Data/GlossaryRepository.swift:12-15 | `term(for:)` returns a term of `allTerms` whose normalised short label equals the normalised query, the first such; nil exactly when there is none; as a function it changes nothing |
| `Glossary.TermForNormalizes` | Sources/Data/GlossaryRepository.swift:12-15 | queries with the same normal form return the same term |
| `Glossary.TermForExample` | Sources/Data/GlossaryRepository.swift:13-14 | "（五）", " (五) " with a newline, and "(五)" all return the same term |
| `LegendCard.StringLess` | Sources/UI/Components/LegendCardView.swift:13 | Swift's String `<` on the raw values: lexicographic by character, a proper prefix before its extensions |
| `LegendCard.StringLessIrreflexive` | Sources/UI/Components/LegendCardView.swift:13 | no string is `<` itself |
| `LegendCard.StringLessAsymmetric` | Sources/UI/Components/LegendCardView.swift:13 | `a < b` rules out `b < a` |
| `LegendCard.StringLessTransitive` | Sources/UI/Components/LegendCardView.swift:13 | `a < b` and `b < c` give `a < c`, so `<` is a strict order the sort can use |
| `LegendCard.Rank` | Sources/UI/Components/LegendCardView.swift:13 | each marker has a place below 6 in the list of markers sorted by raw value |
| `LegendCard.EntriesOrdered` | Sources/UI/Components/LegendCardView.swift:13 | the list an, go, good, ha, hon, teki is strictly increasing by raw value under string `<` |
| `LegendCard.RankOrdersRawValues` | Sources/UI/Components/LegendCardView.swift:13 | one marker's raw value is less than another's iff its place in that list is lower |
| `LegendCard.PresentFrom` | Sources/UI/Components/LegendCardView.swift:13 | keeps exactly the markers from a given place on that occur in the input, in increasing order |
| `LegendCard.UniqueMarkers` | Sources/UI/Components/LegendCardView.swift:12-14 | `uniqueMarkers` holds a marker iff the input does, has no duplicates, and is strictly increasing by raw value |
| `LegendCard.HeadHasLeastRank` | Sources/UI/Components/LegendCardView.swift:13 | the first entry of a sorted marker list comes no later in raw-value order than any entry |
| `LegendCard.IncreasingRankUnique` | Sources/UI/Components/LegendCardView.swift:13 | two strictly increasing marker lists with the same elements are equal |
| `LegendCard.UniqueMarkersIsTheSort` | Sources/UI/Components/LegendCardView.swift:13 | any sorted, duplicate-free arrangement of the input's distinct markers equals `uniqueMarkers`, so it is what sorting the set yields |
| `LegendCard.UniqueMarkersSetOnly` | Sources/UI/Components/LegendCardView.swift:13 | the result depends only on which markers occur, not on their order or multiplicity, and has at most 6 entries |
| `LegendCard.RankBound` | Sources/UI/Components/LegendCardView.swift:13 | a strictly increasing marker list has at most 6 entries |
| `LegendCard.UniqueMarkersOfAllCases` | Sources/UI/Components/LegendCardView.swift:81 | for `Marker.allCases` the legend lists an, go, good, ha, hon, teki |
| `AppStores.AppStore.constructor` | Sources/Data/AppStore.swift:12-26 | `init` stores each argument unchanged, with defaults .day, no selection, no profiles, Tokyo Station and the default display settings |
| `AppStores.AppStore.SelectedProfile` | Sources/Data/AppStore.swift:28-31 | nil without a selection; a returned profile is in `profiles`, carries the selected id and is the first that does; with a selection, nil exactly when no profile has that id; reading it changes no field |
| `AppStores.DefaultStore` | Sources/Data/AppStore.swift:12-19 | `AppStore()` selects the day board, no profile, no profiles, Tokyo Station and the default settings, so its selected profile is nil |
| `AppStores.SelectedProfileFound` | Sources/Data/AppStore.swift:30 | when profile i carries the selected id and no earlier one does, `selectedProfile` is profile i |
| `DateBar.Clamped` | Sources/UI/Components/DateBarView.swift:85-87 | the result lies in [minDate, maxDate]; dates in range are unchanged; earlier dates map to minDate and later ones to maxDate |
| `DateBar.ClampedIdempotent` | Sources/UI/Components/DateBarView.swift:86 | clamping twice is clamping once |
| `DateBar.ClampedMonotone` | Sources/UI/Components/DateBarView.swift:86 | a <= b implies clamped(a) <= clamped(b) |
| `DateBar.PickerDate` | Sources/UI/Components/DateBarView.swift:59 | the picker shows a date in range, and the stored date itself when that is in range |
| `DateBar.SetPickerDate` | Sources/UI/Components/DateBarView.swift:60 | the picker stores the picked date clamped, so the stored date is in range; no other field changes |
| `DateBar.MoveDate` | Sources/UI/Components/DateBarView.swift:79-83 | the new date is clamp(clamp(old) + days) and lies in range even when the old one did not; a move that stays in range adds exactly `days`; moving forward from maxDate, or back from minDate, stays there; no other field changes |

## Left out

- Calendar arithmetic: extracting the day of the month (`Calendar.current.component`) is a foreign call, so the day is an input. `Calendar.date(byAdding:)` is integer addition, so its `?? baseDate` fallback never arises. Building the 1900/2100 bounds is replaced by two constants, so the `.distantPast`/`.distantFuture` fallbacks are not modelled.
- Time of day: a Swift `Date` is an instant, while the model's dates are whole days.
- Floating point: latitude, longitude and overlay opacity are `real` values that are only stored and compared.
- Swift string semantics: strings are sequences of Unicode scalars compared element by element. Swift's canonical-equivalence equality and grapheme clustering are not modelled. The whitespace-and-newlines set is written out as the Unicode space separators, line and paragraph separators, tab, U+000A–U+000D and U+0085.
- `GlossaryRepository.loadGlossary`: bundle and file I/O and JSON decoding. The constructor takes the decoded terms instead.
- The engine protocol is not a separate interface. `GenerateBoard` is its only implementation. The tests' and preview's `makeBoard(profile:date:type:)` is declared nowhere, and the golden test data is empty.
- `Profile.init`'s fresh `UUID()` and `Date()` defaults are nondeterministic, so ids and timestamps are supplied by the caller.
- Change publication (`@Published`, `ObservableObject`) and main-actor isolation are not modelled. Fields are plain class fields.
- Persistence (the profile, app-state and settings repositories), location services (`LocationManager`) and the glossary list's locale-aware filtering are not modelled. Profile add/delete/select, selection normalisation and one-shot GPS seeding are not modelled either, because no code defines them.
- SwiftUI view bodies, layout, sheets and accessibility strings are not modelled. Only `moveDate`, `clamped`, the picker binding and `uniqueMarkers` are taken from the views.
- `AppStores.AppStore.constructor`: the date has no default argument, because the app's default is the current moment (a clock read). `DefaultStore` takes that moment as a parameter.
