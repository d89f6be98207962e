# Lyric view: height table, scroll offset and current line

This project models the computational core of the `Lrc` React Native component
in `src/components/lyric.tsx`. The component shows a time-stamped lyric
transcript in a scroll view and keeps the active line in view. Its logic has
four parts:

- the **height table** `lineHeights`. It starts with one zero per parsed line.
  Each layout report of a line replaces that line's slot in a fresh copy of the
  table.
- the **scroll offset** `lineHeights.slice(0, currentIndex).reduce(+, 0) || 0`.
  This is the sum of the heights above the current line, with ECMAScript
  `Array.prototype.slice` clamping of the end index.
- the **current-line lookup** `lrcLineList[currentIndex] || null`.
- the **scroll gate**. The auto-scroll effect scrolls only while
  `localAutoScroll` is true. `scrollToCurrentLine` resets the gate and always
  scrolls, to the same offset.

Modules:

- `Wrappers` holds `Option`.
- `LyricOffset` holds the offset as pure functions (`Sum`, `RelativeIndex`,
  `Slice`, `Offset`) and lemmas that state, region by region of the index,
  what the offset is.
- `Lyric` holds the lookup and the class `Lrc`. The class keeps the
  component's state: the hook outputs, plus the height table as an `array<real>`
  that `ReportHeight` replaces with an updated copy. Scroll commands are the
  values its methods return.

The parsed line list, the current index and the gate value come from the hooks
`useLrc`, `useCurrentIndex` and `useLocalAutoScroll`. Those hooks are not part
of this model. Their outputs are inputs here: a sequence of an opaque line type
`L`, an `int` and a `bool`, handed to the constructor and to `Rerender`.

Behaviours of the code worth knowing:

- For index -1 ("no line active yet") the offset is not 0. `slice(0, -1)`
  drops only the last entry, so the view scrolls to the sum of every height
  except the last (`OffsetBeforeFirstLine`).
- The trailing `|| 0` replaces only NaN; it does not clamp the offset. The
  offset is non-negative whenever the heights are (`OffsetNonNegative`).
- The table made at the first render is kept across later renders; a new
  transcript does not replace it (`Rerender` keeps the same array). The model
  covers layout reports for lines below the line count of the first render
  only, so a transcript longer than the first one is outside it.

## Model

| member | source | states |
|---|---|---|
| `LyricOffset.Zeros` | src/components/lyric.tsx:84 | the initial table has one entry per parsed line, and every entry is 0 |
| `LyricOffset.Offset` | src/components/lyric.tsx:89 | the offset is the sum of the heights in the prefix of the table that ends at the `slice`-clamped end index; the same expression is scrolled to at :111 |
| `LyricOffset.OffsetOfUnmeasured` | src/components/lyric.tsx:84-89 | before any layout report, the offset is 0 for every index, negative and out-of-range ones included |
| `LyricOffset.SliceFromStart` | src/components/lyric.tsx:89 | `slice(0, end)` is always the prefix of the table up to the end, clamped to the length and counted from the back when negative |
| `LyricOffset.OffsetInRange` | src/components/lyric.tsx:89 | for 0 <= i <= length, the offset is the sum of the heights of lines 0 .. i-1 |
| `LyricOffset.OffsetAtFirstLine` | src/components/lyric.tsx:89 | the offset for index 0 is 0 |
| `LyricOffset.OffsetBeyondEnd` | src/components/lyric.tsx:89 | for an index past the length, the offset is the sum of all heights |
| `LyricOffset.OffsetBeforeFirstLine` | src/components/lyric.tsx:89 | for index -1 and a non-empty table, the offset is the total minus the last height, not 0 |
| `LyricOffset.OffsetNegative` | src/components/lyric.tsx:89 | for -length <= i < 0, the offset sums all heights except the last -i |
| `LyricOffset.OffsetFarNegative` | src/components/lyric.tsx:89 | for i <= -length, the offset is 0 |
| `LyricOffset.OffsetStep` | src/components/lyric.tsx:89 | moving from line i to line i+1 adds exactly the height of line i |
| `LyricOffset.OffsetNonNegative` | src/components/lyric.tsx:89 | with non-negative heights, every offset is non-negative |
| `LyricOffset.OffsetMonotone` | src/components/lyric.tsx:89 | with non-negative heights, the offset does not decrease as the index grows over 0 .. length |
| `LyricOffset.SumAppend` | src/components/lyric.tsx:89 | the `reduce` sum of a concatenation is the sum of the two parts' sums |
| `LyricOffset.SumUpdate` | src/components/lyric.tsx:89 | replacing one height changes the sum by exactly the difference |
| `LyricOffset.OffsetAfterReport` | src/components/lyric.tsx:89-124 | a layout report for line k changes the offset of index i by the change in line k's height if the slice for i covers line k, and leaves it unchanged otherwise |
| `Lyric.CurrentLine` | src/components/lyric.tsx:99 | the lookup yields a line exactly when 0 <= index < number of lines, and then it yields the line at that index |
| `Lyric.NoLineBeforeFirst` | src/components/lyric.tsx:99 | index -1 yields no line |
| `Lyric.Lrc.GetCurrentLine` | src/components/lyric.tsx:103-107 | reports the current index, and the line at that index exactly when the index is in range |
| `Lyric.Lrc.constructor` | src/components/lyric.tsx:76-84 | the first render keeps the hook outputs and creates a new table of zeros, one per parsed line |
| `Lyric.Lrc.Rerender` | src/components/lyric.tsx:76-84 | a later render takes new hook outputs and keeps the same height table |
| `Lyric.Lrc.ReportHeight` | src/components/lyric.tsx:117-125 | the new table is a fresh array of the same length, with the reported height in slot `index` and every other slot as before; the previous array is not modified |
| `Lyric.Lrc.AutoScrollEffect` | src/components/lyric.tsx:86-93 | a scroll command is emitted exactly when the gate is open, and its offset is the offset of the current heights and index |
| `Lyric.Lrc.ScrollToCurrentLine` | src/components/lyric.tsx:108-114 | the gate takes its reset value, and a scroll is always issued, to the same offset the auto-scroll effect uses |

## Left out

- Rendering (`lineRenderer`, text styles, the `View`/`ScrollView` tree and keys, the 0.45 and 0.5 viewport-height spacers): presentation with no behaviour to verify.
- The `scrollTo` call itself and its animation: a scroll is modelled as the offset value emitted.
- `useLrc`, `useCurrentIndex`, `useLocalAutoScroll`, `LrcLine` and `AUTO_SCROLL_AFTER_USER_SCROLL` are not part of this model. Their results are inputs.
- Lyric.Lrc.ScrollToCurrentLine: the value `resetLocalAutoScroll` gives the gate is taken as a parameter, because the hook that defines it is not part of this model.
- React effect scheduling, dependency arrays, `useImperativeHandle` plumbing, the null check on the scroll view ref, and the `console.log` of a height report.
- Lyric.Lrc.ReportHeight: reports for an index at or past the table's length are excluded by a precondition, so the table never grows in the model. In JavaScript a report at exactly the length appends to the copy, and the sums stay correct. A report further out leaves holes, which `slice` keeps and `reduce` skips. The next report's `[...prev]` turns those holes into `undefined`; sums covering them are then NaN, which `|| 0` turns into 0 until those lines report. A transcript that grows after the first render (for example one that starts empty and is loaded later) therefore grows the table one report at a time, and none of that is modelled.
- Heights are unbounded reals. Floating-point rounding in the sum and NaN are not modelled, so `|| 0` is the identity here.
