/**
 * The state of the `Lrc` lyric component and the commands it emits. The
 * transcript parser, the current-index resolver and the user-scroll gate are
 * hooks whose code is not part of this model: their outputs (`lrcLineList`,
 * `currentIndex`, `localAutoScroll`) are inputs here, handed in on each render.
 * A scroll command is the offset the view is asked to scroll to.
 */
module Lyric {
  import opened Wrappers
  import opened LyricOffset

  /** What `getCurrentLine` and the line-change notification report. */
  datatype CurrentLineInfo<L> = CurrentLineInfo(index: int, lrcLine: Option<L>)

  /**
   * `lrcLineList[currentIndex] || null`: a parsed line is an object and so
   * never falsy, so the result is null exactly when the index is out of range.
   */
  function CurrentLine<L>(lrcLineList: seq<L>, currentIndex: int): (r: Option<L>)
    ensures r.Some? <==> 0 <= currentIndex < |lrcLineList|
    ensures r.Some? ==> r.value == lrcLineList[currentIndex]
  {
    if 0 <= currentIndex < |lrcLineList| then Some(lrcLineList[currentIndex]) else None
  }

  /** Index -1, the resolver's "no line yet", never finds a line. */
  lemma NoLineBeforeFirst<L>(lrcLineList: seq<L>)
    ensures CurrentLine(lrcLineList, -1) == None
  {
  }

  class Lrc<L> {
    var lrcLineList: seq<L>
    var currentIndex: int
    var localAutoScroll: bool
    /** The measured height of each line, 0 until its first layout report. */
    var lineHeights: array<real>

    /** First render: one unmeasured height per parsed line. */
    constructor (lines: seq<L>, index: int, gate: bool)
      ensures lrcLineList == lines && currentIndex == index && localAutoScroll == gate
      ensures fresh(lineHeights)
      ensures lineHeights[..] == Zeros(|lines|)
    {
      lrcLineList, currentIndex, localAutoScroll := lines, index, gate;
      lineHeights := new real[|lines|](_ => 0.0);
    }

    /**
     * A later render with new hook outputs. The height table made at the first
     * render is kept: a new transcript does not replace it. (Only a layout
     * report at or past its length would grow it, and those are not modelled.)
     */
    method Rerender(lines: seq<L>, index: int, gate: bool)
      modifies this
      ensures lrcLineList == lines && currentIndex == index && localAutoScroll == gate
      ensures lineHeights == old(lineHeights)
    {
      lrcLineList, currentIndex, localAutoScroll := lines, index, gate;
    }

    /**
     * `handleLayout(index)`: copy the table, overwrite slot `index` in the
     * copy with the measured height, and make the copy the new table.
     */
    method ReportHeight(index: nat, height: real)
      requires index < lineHeights.Length
      modifies this`lineHeights
      ensures fresh(lineHeights)
      ensures lineHeights[..] == old(lineHeights[..])[index := height]
      ensures unchanged(old(lineHeights))
    {
      var prev := lineHeights;
      var next := new real[prev.Length];
      var k := 0;
      while k < prev.Length
        invariant 0 <= k <= prev.Length
        invariant next[..k] == prev[..k]
      {
        next[k] := prev[k];
        k := k + 1;
      }
      assert next[..] == prev[..];
      next[index] := height;
      lineHeights := next;
    }

    /** The auto-scroll effect: it scrolls only while the gate is open. */
    method AutoScrollEffect() returns (command: Option<real>)
      ensures command.Some? <==> localAutoScroll
      ensures command.Some? ==> command.value == Offset(lineHeights[..], currentIndex)
    {
      if localAutoScroll {
        command := Some(Offset(lineHeights[..], currentIndex));
      } else {
        command := None;
      }
    }

    /**
     * `scrollToCurrentLine`: reset the gate, then scroll whatever the gate
     * said, to the same offset the auto-scroll effect uses. `resetTo` is the
     * gate value the user-scroll hook's reset produces.
     */
    method ScrollToCurrentLine(resetTo: bool) returns (y: real)
      modifies this`localAutoScroll
      ensures localAutoScroll == resetTo
      ensures y == Offset(lineHeights[..], currentIndex)
    {
      localAutoScroll := resetTo;
      y := Offset(lineHeights[..], currentIndex);
    }

    /** `getCurrentLine`, and the payload of `onCurrentLineChange`. */
    function GetCurrentLine(): (r: CurrentLineInfo<L>)
      reads this
      ensures r.index == currentIndex
      ensures r.lrcLine.Some? <==> 0 <= currentIndex < |lrcLineList|
      ensures r.lrcLine.Some? ==> r.lrcLine.value == lrcLineList[currentIndex]
    {
      CurrentLineInfo(currentIndex, CurrentLine(lrcLineList, currentIndex))
    }
  }
}
