/**
 * The timer-driven text components of src/components/AnimatedText.tsx.
 *
 * Timers are abstracted to explicit `Tick` calls, one per timer callback.
 * `CountingNumber`, which counts up in floating point, is not modelled.
 */
module Animated {
  import opened Maybe
  import opened Arith
  import opened Ticker

  /** Cycles through `texts`, showing one at a time. */
  class AnimatedText {
    const texts: seq<string>
    var currentIndex: Counter
    /** How many interval callbacks have run. */
    ghost var ticks: nat

    /** The index is the rotation's value after `ticks` ticks from 0. */
    ghost predicate Valid()
      reads this
    {
      currentIndex == AdvanceN(Num(0), |texts|, ticks)
    }

    constructor (texts: seq<string>)
      ensures this.texts == texts && currentIndex == Num(0) && ticks == 0
      ensures Valid()
    {
      this.texts := texts;
      currentIndex := Num(0);
      ticks := 0;
    }

    /** What the span renders. */
    function Display(): (r: Option<string>)
      reads this
      ensures r.Some? <==> currentIndex.Num? && currentIndex.n < |texts|
      ensures r.Some? ==> r.value == texts[currentIndex.n]
    {
      Shown(texts, currentIndex)
    }

    /** One interval callback. */
    method Tick()
      requires Valid()
      modifies this
      ensures Valid() && ticks == old(ticks) + 1
      ensures currentIndex == Advance(old(currentIndex), |texts|)
      ensures |texts| > 0 ==> currentIndex.Num? && currentIndex.n < |texts|
    {
      currentIndex := Advance(currentIndex, |texts|);
      ticks := ticks + 1;
      if |texts| > 0 {
        AdvanceNInRange(0, |texts|, ticks);
      }
    }
  }

  // ---------------------------------------------------------------------------
  // TypewriterText

  /** The typewriter's state: the text shown so far and the index of the next character. */
  datatype Typing = Typing(display: string, index: nat)

  /** What has been shown is exactly the first `index` characters of the text. */
  predicate TypedPrefix(text: string, t: Typing) {
    t.index <= |text| && t.display == text[..t.index]
  }

  /**
   * One timeout callback: while characters remain, the next character is appended
   * and the index advances by one; once the text is complete no timer is scheduled.
   */
  function TypeTick(text: string, t: Typing): (r: Typing)
    ensures t.index < |text| ==> r == Typing(t.display + [text[t.index]], t.index + 1)
    ensures t.index >= |text| ==> r == t
    ensures TypedPrefix(text, t) ==> TypedPrefix(text, r)
  {
    if t.index < |text| then Typing(t.display + [text[t.index]], t.index + 1) else t
  }

  /** The state after `k` callbacks. */
  function TypeTicks(text: string, t: Typing, k: nat): Typing {
    if k == 0 then t else TypeTick(text, TypeTicks(text, t, k - 1))
  }

  /** From an empty display, `k` callbacks show the first `min(k, |text|)` characters. */
  lemma {:induction false} TypeTicksShowPrefix(text: string, k: nat)
    ensures TypeTicks(text, Typing("", 0), k) == Typing(text[..Min(k, |text|)], Min(k, |text|))
  {
    if k > 0 {
      TypeTicksShowPrefix(text, k - 1);
      var m := Min(k - 1, |text|);
      if m < |text| {
        assert text[..m] + [text[m]] == text[..m + 1];
      }
    }
  }

  /** After `|text|` callbacks the whole text is shown, and further callbacks change nothing. */
  lemma TypingCompletes(text: string, k: nat)
    requires k >= |text|
    ensures TypeTicks(text, Typing("", 0), k) == Typing(text, |text|)
    ensures TypeTick(text, Typing(text, |text|)) == Typing(text, |text|)
  {
    TypeTicksShowPrefix(text, k);
    assert text[..|text|] == text;
  }

  /** Types out `text` one character per timeout. */
  class TypewriterText {
    const text: string
    var displayText: string
    var currentIndex: nat

    predicate Valid()
      reads this
    {
      TypedPrefix(text, Typing(displayText, currentIndex))
    }

    constructor (text: string)
      ensures this.text == text && displayText == "" && currentIndex == 0
      ensures Valid()
    {
      this.text := text;
      displayText := "";
      currentIndex := 0;
    }

    /** One timeout callback. */
    method Tick()
      requires Valid()
      modifies this
      ensures Valid()
      ensures Typing(displayText, currentIndex) == TypeTick(text, old(Typing(displayText, currentIndex)))
    {
      if currentIndex < |text| {
        displayText := displayText + [text[currentIndex]];
        currentIndex := currentIndex + 1;
      }
    }

    /**
     * The chain of effect runs: each change of `currentIndex` re-runs the effect,
     * which schedules the next callback for as long as characters remain.
     */
    method TypeOut()
      requires Valid()
      modifies this
      ensures Valid() && displayText == text && currentIndex == |text|
    {
      while currentIndex < |text|
        invariant Valid()
        decreases |text| - currentIndex
      {
        Tick();
      }
      assert text[..|text|] == text;
    }
  }
}
