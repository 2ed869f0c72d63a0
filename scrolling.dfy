/**
 * The scrolling text components of src/components/ScrollingText.tsx.
 *
 * `ScrollingText` rotates through its texts on an interval, abstracted to `Tick`
 * calls; `MarqueeText` renders its text four times. `GlitchText` only toggles a
 * visual effect on timers and is not modelled.
 */
module Scrolling {
  import opened Maybe
  import opened Ticker

  /** Shows one of `texts` at a time, advancing on every interval callback. */
  class ScrollingText {
    const texts: seq<string>
    var currentIndex: Counter
    /** How many interval callbacks have run. */
    ghost var ticks: nat

    ghost predicate Valid()
      reads this
    {
      currentIndex == AdvanceN(Num(0), |texts|, ticks)
    }

    constructor (texts: seq<string>)
      ensures this.texts == texts && currentIndex == Num(0) && ticks == 0
      ensures Valid()
    {
      this.texts := texts;
      currentIndex := Num(0);
      ticks := 0;
    }

    /** What the inner div renders. */
    function Display(): (r: Option<string>)
      reads this
      ensures r.Some? <==> currentIndex.Num? && currentIndex.n < |texts|
      ensures r.Some? ==> r.value == texts[currentIndex.n]
    {
      Shown(texts, currentIndex)
    }

    /** One interval callback. */
    method Tick()
      requires Valid()
      modifies this
      ensures Valid() && ticks == old(ticks) + 1
      ensures currentIndex == Advance(old(currentIndex), |texts|)
      ensures |texts| > 0 ==> currentIndex.Num? && currentIndex.n < |texts|
    {
      currentIndex := Advance(currentIndex, |texts|);
      ticks := ticks + 1;
      if |texts| > 0 {
        AdvanceNInRange(0, |texts|, ticks);
      }
    }
  }

  /** The text between the copies: a space, a bullet (U+2022) and a space. */
  const Separator: string := " • "

  /** The marquee line: four copies of `text`, each pair separated by `Separator`. */
  function MarqueeText(text: string): (r: string)
    ensures |r| == 4 * |text| + 9
    ensures var n := |text|;
            r[..n] == r[n + 3..2 * n + 3] == r[2 * n + 6..3 * n + 6] == r[3 * n + 9..] == text
    ensures var n := |text|;
            r[n..n + 3] == r[2 * n + 3..2 * n + 6] == r[3 * n + 6..3 * n + 9] == Separator
  {
    text + Separator + text + Separator + text + Separator + text
  }
}
