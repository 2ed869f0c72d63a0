/**
 * The index rotation shared by the rotating-text components
 * (src/components/AnimatedText.tsx and src/components/ScrollingText.tsx): an index
 * that starts at 0 and, on every interval tick, becomes `(prev + 1) % texts.length`,
 * while the component shows `texts[currentIndex]`.
 *
 * JavaScript arithmetic is modelled exactly: with an empty `texts` the remainder
 * is NaN, and NaN stays NaN; indexing with NaN or past the end yields `undefined`.
 */
module Ticker {
  import opened Maybe

  /** A JavaScript number as the index takes it: a non-negative integer or NaN. */
  datatype Counter = Num(n: nat) | NaN

  /** One tick: `(prev + 1) % len`. */
  function Advance(c: Counter, len: nat): (r: Counter)
    ensures len == 0 || c.NaN? ==> r.NaN?
    ensures c.Num? && len > 0 ==> r.Num? && r.n < len
    ensures c.Num? && c.n < len ==> r == Num(if c.n + 1 == len then 0 else c.n + 1)
  {
    match c
    case NaN => NaN
    case Num(i) => if len == 0 then NaN else Num((i + 1) % len)
  }

  /** The index after `k` ticks. */
  function AdvanceN(c: Counter, len: nat, k: nat): Counter {
    if k == 0 then c else Advance(AdvanceN(c, len, k - 1), len)
  }

  /** What the component renders: `texts[currentIndex]`, undefined for NaN or an index past the end. */
  function Shown(texts: seq<string>, c: Counter): (r: Option<string>)
    ensures r.Some? <==> c.Num? && c.n < |texts|
    ensures r.Some? ==> r.value == texts[c.n]
  {
    if c.Num? && c.n < |texts| then Some(texts[c.n]) else None
  }

  /** Ticking `a` times and then `b` times is ticking `a + b` times. */
  lemma {:induction false} AdvanceNAdd(c: Counter, len: nat, a: nat, b: nat)
    ensures AdvanceN(c, len, a + b) == AdvanceN(AdvanceN(c, len, a), len, b)
  {
    if b > 0 {
      AdvanceNAdd(c, len, a, b - 1);
    }
  }

  /** Before the end of the list is reached, each tick moves one place forward. */
  lemma {:induction false} AdvanceNForward(i: nat, len: nat, k: nat)
    requires i + k < len
    ensures AdvanceN(Num(i), len, k) == Num(i + k)
  {
    if k > 0 {
      AdvanceNForward(i, len, k - 1);
    }
  }

  /** For a non-empty `texts`, every index reached from one in range is in range. */
  lemma {:induction false} AdvanceNInRange(i: nat, len: nat, k: nat)
    requires i < len
    ensures AdvanceN(Num(i), len, k).Num? && AdvanceN(Num(i), len, k).n < len
  {
    if k > 0 {
      AdvanceNInRange(i, len, k - 1);
    }
  }

  /** The first `len` ticks from 0 visit every index in order. */
  lemma VisitsEveryIndex(len: nat, j: nat)
    requires j < len
    ensures AdvanceN(Num(0), len, j) == Num(j)
  {
    AdvanceNForward(0, len, j);
  }

  /** Starting from 0, the index does not come back to 0 before `len` ticks. */
  lemma NoEarlyReturn(len: nat, k: nat)
    requires 0 < k < len
    ensures AdvanceN(Num(0), len, k) != Num(0)
  {
    VisitsEveryIndex(len, k);
  }

  /** After exactly `len` ticks the index is back where it was. */
  lemma CycleReturns(i: nat, len: nat)
    requires i < len
    ensures AdvanceN(Num(i), len, len) == Num(i)
  {
    AdvanceNForward(i, len, len - i - 1);
    assert AdvanceN(Num(i), len, len - i) == Num(0);
    AdvanceNAdd(Num(i), len, len - i, i);
    AdvanceNForward(0, len, i);
  }

  /** The rotation has period `len`: `len` more ticks lead to the same index. */
  lemma Periodic(i: nat, len: nat, k: nat)
    requires i < len
    ensures AdvanceN(Num(i), len, k + len) == AdvanceN(Num(i), len, k)
  {
    AdvanceNAdd(Num(i), len, k, len);
    AdvanceNInRange(i, len, k);
    CycleReturns(AdvanceN(Num(i), len, k).n, len);
  }

  /** After `len` ticks the same text is shown again. */
  lemma ShownRepeats(texts: seq<string>, i: nat)
    requires i < |texts|
    ensures Shown(texts, AdvanceN(Num(i), |texts|, |texts|)) == Shown(texts, Num(i)) == Some(texts[i])
  {
    CycleReturns(i, |texts|);
  }

  /** With an empty `texts`, the first tick makes the index NaN for good and nothing is shown. */
  lemma {:induction false} EmptyGoesNaN(k: nat)
    requires k > 0
    ensures AdvanceN(Num(0), 0, k) == NaN
    ensures Shown([], AdvanceN(Num(0), 0, k)).None?
  {
    if k > 1 {
      EmptyGoesNaN(k - 1);
    }
  }
}
