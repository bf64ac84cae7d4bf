/** The quantity arithmetic of one mixing tick: which input stream limits the
    blend, how much blend that leaves, and how much is drawn from each stream.

    `frac2` is the fraction of the blend that must come from the fissile
    stream (stream 2); `frac1 = 1 - frac2` comes from the filler stream
    (stream 1). `m1` and `m2` are the quantities on hand, `qty` the planned
    blend quantity before the streams are looked at. */
module Blend {

  function Min(a: real, b: real): real {
    if b < a then b else a
  }

  /** Which limit the blend quantity ends up set by. */
  datatype Binding = Unconstrained | Stream1 | Stream2

  /** The stream judged binding: neither when both cover their share of
      `qty`, otherwise the one whose slack (quantity on hand minus its share)
      is smaller, stream 2 on a tie. */
  function BindingStream(m1: real, m2: real, frac2: real, qty: real): Binding {
    var slack1 := m1 - (1.0 - frac2) * qty;
    var slack2 := m2 - frac2 * qty;
    if slack1 >= 0.0 && slack2 >= 0.0 then Unconstrained
    else if slack1 < slack2 then Stream1
    else Stream2
  }

  /** A binding stream always has a positive share, so the division that
      reduces the blend quantity is never by zero. */
  lemma BindingStreamHasShare(m1: real, m2: real, frac2: real, qty: real)
    requires 0.0 <= m1 && 0.0 <= m2 && 0.0 <= frac2 <= 1.0 && 0.0 <= qty
    ensures BindingStream(m1, m2, frac2, qty) == Stream1 ==> 0.0 < 1.0 - frac2
    ensures BindingStream(m1, m2, frac2, qty) == Stream2 ==> 0.0 < frac2
  {
    if frac2 == 1.0 {
      assert m1 - (1.0 - frac2) * qty == m1;
    }
    if frac2 == 0.0 {
      assert m2 - frac2 * qty == m2;
    }
  }

  /** The binding stream is short of its share of `qty`. */
  lemma BindingStreamIsShort(m1: real, m2: real, frac2: real, qty: real)
    ensures BindingStream(m1, m2, frac2, qty) == Stream1 ==> m1 < (1.0 - frac2) * qty
    ensures BindingStream(m1, m2, frac2, qty) == Stream2 ==> m2 < frac2 * qty
  {}

  /** Equal slacks, both streams short: stream 2 is taken as binding. */
  lemma TieBindsStream2(m1: real, m2: real, frac2: real, qty: real)
    requires m1 - (1.0 - frac2) * qty == m2 - frac2 * qty < 0.0
    ensures BindingStream(m1, m2, frac2, qty) == Stream2
  {}

  /** `x / d` lies below `y` when `x` lies below `d * y`. */
  lemma QuotientBelow(x: real, d: real, y: real)
    requires 0.0 < d && 0.0 <= x < d * y
    ensures 0.0 <= x / d < y
    ensures 0.0 < x ==> 0.0 < x / d
  {
    assert x == d * (x / d);
  }

  /** The blend quantity after the binding stream has been accounted for
      (lines 78-96): `qty` itself, or what the binding stream alone supports
      at its share. */
  function ReducedQty(m1: real, m2: real, frac2: real, qty: real): (r: real)
    requires 0.0 <= m1 && 0.0 <= m2 && 0.0 <= frac2 <= 1.0 && 0.0 <= qty
    ensures 0.0 <= r <= qty
    ensures r == qty <==> BindingStream(m1, m2, frac2, qty) == Unconstrained
    ensures 0.0 < m1 && 0.0 < m2 && 0.0 < qty ==> 0.0 < r
  {
    BindingStreamHasShare(m1, m2, frac2, qty);
    BindingStreamIsShort(m1, m2, frac2, qty);
    match BindingStream(m1, m2, frac2, qty)
    case Unconstrained => qty
    case Stream1 =>
      QuotientBelow(m1, 1.0 - frac2, qty);
      m1 / (1.0 - frac2)
    case Stream2 =>
      QuotientBelow(m2, frac2, qty);
      m2 / frac2
  }

  /** The quantities drawn from stream 1 and stream 2. */
  datatype Plan = Plan(take1: real, take2: real)

  lemma ProductWithin(f: real, a: real, b: real)
    requires 0.0 <= f && 0.0 <= a <= b
    ensures 0.0 <= f * a <= f * b
  {}

  lemma SharesOfQty(frac2: real, qty: real)
    ensures (1.0 - frac2) * qty + frac2 * qty == qty
  {}

  /** A stream's share of the blend quantity, clamped to what the stream
      holds (the std::min of lines 98-99). */
  function Take(frac: real, qty: real, held: real): (t: real)
    requires 0.0 <= frac && 0.0 <= qty && 0.0 <= held
    ensures 0.0 <= t <= held && t <= frac * qty
    ensures t == frac * qty || t == held
  {
    ProductWithin(frac, 0.0, qty);
    Min(frac * qty, held)
  }

  /** What one tick draws from each stream (lines 78-99): each stream's share
      of the reduced quantity, clamped to what the stream holds. */
  function PlanBlend(m1: real, m2: real, frac2: real, cap: real): (p: Plan)
    requires 0.0 <= m1 && 0.0 <= m2 && 0.0 <= frac2 <= 1.0 && 0.0 <= cap
    ensures 0.0 <= p.take1 <= m1 && 0.0 <= p.take2 <= m2
    ensures p.take1 + p.take2 <= cap
    ensures 0.0 < m1 && 0.0 < m2 && 0.0 < cap ==> 0.0 < p.take1 + p.take2
  {
    var qty := ReducedQty(m1, m2, frac2, cap);
    SharesOfQty(frac2, qty);
    Plan(Take(1.0 - frac2, qty, m1), Take(frac2, qty, m2))
  }

  /** PlanBlend spelled out in terms of the reduced quantity, for callers
      that compute the takes step by step. */
  lemma PlanBlendTakes(m1: real, m2: real, frac2: real, cap: real)
    requires 0.0 <= m1 && 0.0 <= m2 && 0.0 <= frac2 <= 1.0 && 0.0 <= cap
    ensures var qty := ReducedQty(m1, m2, frac2, cap);
      PlanBlend(m1, m2, frac2, cap) == Plan(Take(1.0 - frac2, qty, m1), Take(frac2, qty, m2))
  {}

  /** Neither stream short: the blend is the full planned quantity, split
      exactly by the recipe fractions (lines 82-83, 98-99). */
  lemma UnconstrainedFillsQty(m1: real, m2: real, frac2: real, cap: real)
    requires 0.0 <= m1 && 0.0 <= m2 && 0.0 <= frac2 <= 1.0 && 0.0 <= cap
    requires BindingStream(m1, m2, frac2, cap) == Unconstrained
    ensures PlanBlend(m1, m2, frac2, cap).take1 == (1.0 - frac2) * cap
    ensures PlanBlend(m1, m2, frac2, cap).take2 == frac2 * cap
    ensures PlanBlend(m1, m2, frac2, cap).take1 + PlanBlend(m1, m2, frac2, cap).take2 == cap
  {
    SharesOfQty(frac2, cap);
  }

  lemma QuotientTimesDivisor(x: real, d: real)
    requires d != 0.0
    ensures d * (x / d) == x
  {}

  /** The binding stream, at its share, makes up exactly the reduced
      quantity (lines 89 and 95). */
  lemma BindingShareOfReduced(m1: real, m2: real, frac2: real, cap: real)
    requires 0.0 <= m1 && 0.0 <= m2 && 0.0 <= frac2 <= 1.0 && 0.0 <= cap
    ensures BindingStream(m1, m2, frac2, cap) == Stream1 ==>
      (1.0 - frac2) * ReducedQty(m1, m2, frac2, cap) == m1
    ensures BindingStream(m1, m2, frac2, cap) == Stream2 ==>
      frac2 * ReducedQty(m1, m2, frac2, cap) == m2
  {
    BindingStreamHasShare(m1, m2, frac2, cap);
    match BindingStream(m1, m2, frac2, cap)
    case Unconstrained =>
    case Stream1 => QuotientTimesDivisor(m1, 1.0 - frac2);
    case Stream2 => QuotientTimesDivisor(m2, frac2);
  }

  /** The binding stream is used up: all of it goes into the blend, so
      nothing of it is pushed back (lines 84-96, 98-99, 108-113). */
  lemma BindingStreamUsedUp(m1: real, m2: real, frac2: real, cap: real)
    requires 0.0 <= m1 && 0.0 <= m2 && 0.0 <= frac2 <= 1.0 && 0.0 <= cap
    ensures BindingStream(m1, m2, frac2, cap) == Stream1 ==> PlanBlend(m1, m2, frac2, cap).take1 == m1
    ensures BindingStream(m1, m2, frac2, cap) == Stream2 ==> PlanBlend(m1, m2, frac2, cap).take2 == m2
  {
    BindingStreamHasShare(m1, m2, frac2, cap);
    match BindingStream(m1, m2, frac2, cap)
    case Unconstrained =>
    case Stream1 => QuotientTimesDivisor(m1, 1.0 - frac2);
    case Stream2 => QuotientTimesDivisor(m2, frac2);
  }

  /** Stream 1 supports no more blend at its share than stream 2 does at
      its share (m1 / frac1 <= m2 / frac2, written without division). */
  predicate Stream1Scarcer(m1: real, m2: real, frac2: real) {
    m1 * frac2 <= m2 * (1.0 - frac2)
  }

  predicate Stream2Scarcer(m1: real, m2: real, frac2: real) {
    m2 * (1.0 - frac2) <= m1 * frac2
  }

  /** The blend holds stream 2 at exactly its recipe fraction `frac2`
      (and so stream 1 at `1 - frac2`). */
  predicate KeepsRecipe(p: Plan, frac2: real) {
    p.take2 == frac2 * (p.take1 + p.take2)
  }

  /** Comparisons survive multiplying both sides by a positive factor. */
  lemma ScaleCompare(a: real, b: real, d: real)
    requires 0.0 < d
    ensures a <= b <==> a * d <= b * d
    ensures a == b <==> a * d == b * d
  {
    if a * d <= b * d {
      assert (b - a) * d >= 0.0;
    }
    if a * d == b * d {
      assert (b - a) * d == 0.0;
    }
  }

  /** The arithmetic of a stream-1-bound plan: stream 1 is drawn in full,
      stream 2 gives its share of the reduced quantity or all it has. */
  lemma Stream1Arith(f2: real, qty: real, m1: real, m2: real, t2: real)
    requires 0.0 <= f2 < 1.0 && (1.0 - f2) * qty == m1
    requires t2 <= f2 * qty && t2 <= m2 && (t2 == f2 * qty || t2 == m2)
    ensures t2 == f2 * (m1 + t2) <==> m1 * f2 <= m2 * (1.0 - f2)
    ensures t2 == f2 * (m1 + t2) ==> m1 + t2 == qty
  {
    var f1 := 1.0 - f2;
    assert t2 == f2 * (m1 + t2) <==> t2 * f1 == f2 * m1;
    assert m1 * f2 == (f2 * qty) * f1;
    ScaleCompare(f2 * qty, m2, f1);
    ScaleCompare(t2, f2 * qty, f1);
  }

  /** The arithmetic of a stream-2-bound plan, the mirror image. */
  lemma Stream2Arith(f2: real, qty: real, m1: real, m2: real, t1: real)
    requires 0.0 < f2 <= 1.0 && f2 * qty == m2
    requires t1 <= (1.0 - f2) * qty && t1 <= m1 && (t1 == (1.0 - f2) * qty || t1 == m1)
    ensures m2 == f2 * (t1 + m2) <==> m2 * (1.0 - f2) <= m1 * f2
    ensures m2 == f2 * (t1 + m2) ==> t1 + m2 == qty
  {
    var f1 := 1.0 - f2;
    assert m2 == f2 * (t1 + m2) <==> m2 * f1 == f2 * t1;
    assert m2 * f1 == (f1 * qty) * f2;
    ScaleCompare(f1 * qty, m1, f2);
    ScaleCompare(t1, f1 * qty, f2);
  }

  /** Stream 1 binding: it is drawn in full, and the blend keeps the recipe
      exactly when stream 1 is also the scarcer stream, in which case the
      blend is the whole reduced quantity. */
  lemma RecipeKeptWhenStream1Binds(m1: real, m2: real, frac2: real, cap: real)
    requires 0.0 <= m1 && 0.0 <= m2 && 0.0 <= frac2 <= 1.0 && 0.0 <= cap
    requires BindingStream(m1, m2, frac2, cap) == Stream1
    ensures PlanBlend(m1, m2, frac2, cap).take1 == m1
    ensures KeepsRecipe(PlanBlend(m1, m2, frac2, cap), frac2) <==> Stream1Scarcer(m1, m2, frac2)
    ensures KeepsRecipe(PlanBlend(m1, m2, frac2, cap), frac2) ==>
      PlanBlend(m1, m2, frac2, cap).take1 + PlanBlend(m1, m2, frac2, cap).take2
        == ReducedQty(m1, m2, frac2, cap)
  {
    var qty := ReducedQty(m1, m2, frac2, cap);
    BindingShareOfReduced(m1, m2, frac2, cap);
    PlanBlendTakes(m1, m2, frac2, cap);
    var t1, t2 := Take(1.0 - frac2, qty, m1), Take(frac2, qty, m2);
    assert t1 == m1;
    Stream1Arith(frac2, qty, m1, m2, t2);
  }

  /** Stream 2 binding, the mirror image. */
  lemma RecipeKeptWhenStream2Binds(m1: real, m2: real, frac2: real, cap: real)
    requires 0.0 <= m1 && 0.0 <= m2 && 0.0 <= frac2 <= 1.0 && 0.0 <= cap
    requires BindingStream(m1, m2, frac2, cap) == Stream2
    ensures PlanBlend(m1, m2, frac2, cap).take2 == m2
    ensures KeepsRecipe(PlanBlend(m1, m2, frac2, cap), frac2) <==> Stream2Scarcer(m1, m2, frac2)
    ensures KeepsRecipe(PlanBlend(m1, m2, frac2, cap), frac2) ==>
      PlanBlend(m1, m2, frac2, cap).take1 + PlanBlend(m1, m2, frac2, cap).take2
        == ReducedQty(m1, m2, frac2, cap)
  {
    var qty := ReducedQty(m1, m2, frac2, cap);
    BindingShareOfReduced(m1, m2, frac2, cap);
    PlanBlendTakes(m1, m2, frac2, cap);
    var t1, t2 := Take(1.0 - frac2, qty, m1), Take(frac2, qty, m2);
    assert t2 == m2;
    Stream2Arith(frac2, qty, m1, m2, t1);
  }

  /** The blend keeps the recipe exactly when the stream the slack
      comparison picks is also the one that supports the least blend.
      Comparing slacks (line 84) instead of `m1 / frac1` against
      `m2 / frac2` can pick the other stream; then the clamp at line 98 or
      99 cuts the other stream's share and the blend misses the recipe. */
  lemma RecipeKeptIffScarcerBinds(m1: real, m2: real, frac2: real, cap: real)
    requires 0.0 <= m1 && 0.0 <= m2 && 0.0 <= frac2 <= 1.0 && 0.0 <= cap
    ensures var b := BindingStream(m1, m2, frac2, cap);
      KeepsRecipe(PlanBlend(m1, m2, frac2, cap), frac2) <==>
        b == Unconstrained
        || (b == Stream1 && Stream1Scarcer(m1, m2, frac2))
        || (b == Stream2 && Stream2Scarcer(m1, m2, frac2))
  {
    match BindingStream(m1, m2, frac2, cap)
    case Unconstrained => UnconstrainedFillsQty(m1, m2, frac2, cap);
    case Stream1 => RecipeKeptWhenStream1Binds(m1, m2, frac2, cap);
    case Stream2 => RecipeKeptWhenStream2Binds(m1, m2, frac2, cap);
  }

  /** The slack comparison can pick the wrong stream: with 80 of stream 1,
      1 of stream 2, `frac2 = 0.1` and room for 100, stream 2 supports only
      10 of blend and stream 1 about 88.9, yet the slacks (-10 against -9)
      make stream 1 binding. The tick then mixes 80 with 1 instead of 9 with
      1. */
  lemma SlackOrderCanMisjudge()
    ensures BindingStream(80.0, 1.0, 0.1, 100.0) == Stream1
    ensures Stream2Scarcer(80.0, 1.0, 0.1) && !Stream1Scarcer(80.0, 1.0, 0.1)
    ensures PlanBlend(80.0, 1.0, 0.1, 100.0) == Plan(80.0, 1.0)
    ensures !KeepsRecipe(PlanBlend(80.0, 1.0, 0.1, 100.0), 0.1)
  {
    assert ReducedQty(80.0, 1.0, 0.1, 100.0) == 80.0 / 0.9;
  }

  /** The reduced quantity bounds every blend that fits within `cap` and
      that both streams can supply at their shares. The reduced quantity
      itself need not be such a blend: when the stream chosen by slack is
      not the scarcer one, the other stream cannot supply its share
      (SlackOrderCanMisjudge). */
  lemma FeasibleBlendAtMostReduced(m1: real, m2: real, frac2: real, cap: real, x: real)
    requires 0.0 <= m1 && 0.0 <= m2 && 0.0 <= frac2 <= 1.0 && 0.0 <= cap
    requires 0.0 <= x <= cap && (1.0 - frac2) * x <= m1 && frac2 * x <= m2
    ensures x <= ReducedQty(m1, m2, frac2, cap)
  {
    var qty := ReducedQty(m1, m2, frac2, cap);
    BindingStreamHasShare(m1, m2, frac2, cap);
    BindingShareOfReduced(m1, m2, frac2, cap);
    match BindingStream(m1, m2, frac2, cap)
    case Unconstrained =>
    case Stream1 =>
      ShareBounds(1.0 - frac2, x, qty);
    case Stream2 =>
      ShareBounds(frac2, x, qty);
  }

  /** A positive share of `x` within the same share of `qty` means `x` is
      within `qty`. */
  lemma ShareBounds(f: real, x: real, qty: real)
    requires 0.0 < f && f * x <= f * qty
    ensures x <= qty
  {
    ScaleCompare(x, qty, f);
  }

  /** 10 and 10 on hand, room for 5, `frac2 = 0.3`: 3.5 and 1.5 are drawn. */
  lemma ScenarioUnconstrained()
    ensures BindingStream(10.0, 10.0, 0.3, 5.0) == Unconstrained
    ensures PlanBlend(10.0, 10.0, 0.3, 5.0) == Plan(3.5, 1.5)
  {}

  /** Only 2 of stream 1: it binds, all of it is drawn together with 6/7
      of stream 2, a blend of 2/0.7. */
  lemma ScenarioStream1Binds()
    ensures BindingStream(2.0, 10.0, 0.3, 5.0) == Stream1
    ensures PlanBlend(2.0, 10.0, 0.3, 5.0) == Plan(2.0, 6.0 / 7.0)
  {
    assert ReducedQty(2.0, 10.0, 0.3, 5.0) == 2.0 / 0.7;
  }
}
