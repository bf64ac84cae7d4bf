/** The recipe mixer facility: two input buffers (filler stream 1, fissile
    stream 2) and an output buffer. Each tick it blends as much of the two
    streams as throughput, output space and the streams allow, in the
    fraction the reactivity solver asks for. */
module RecipeMixing {
  import opened Materials
  import opened Blend

  /** The contents of the three buffers, in the order the batches were pushed. */
  datatype Buffers = Buffers(inbuf1: seq<Material>, inbuf2: seq<Material>, outbuf: seq<Material>)

  /** Buffer capacities and the per-tick throughput, fixed at construction. */
  datatype Config = Config(inbuf1Size: real, inbuf2Size: real, outbufSize: real, throughput: real)

  /** ResBuf::space(): room left below the capacity, never negative. */
  function Space(buf: seq<Material>, capacity: real): (r: real)
    ensures 0.0 <= r && capacity - TotalQty(buf) <= r
    ensures 0.0 < r ==> r == capacity - TotalQty(buf)
  {
    if capacity - TotalQty(buf) > 0.0 then capacity - TotalQty(buf) else 0.0
  }

  /** Physical batches, each buffer within its capacity. */
  predicate WellFormed(b: Buffers, c: Config) {
    AllPhysical(b.inbuf1) && AllPhysical(b.inbuf2) && AllPhysical(b.outbuf)
    && TotalQty(b.inbuf1) <= c.inbuf1Size
    && TotalQty(b.inbuf2) <= c.inbuf2Size
    && TotalQty(b.outbuf) <= c.outbufSize
  }

  /** The blend quantity a tick starts from (line 44). */
  function TickQty(b: Buffers, c: Config): real {
    Min(c.throughput, Space(b.outbuf, c.outbufSize))
  }

  /** The tick does nothing: an input is (nearly) empty, or there is no
      throughput or output room (line 45). */
  predicate Idle(b: Buffers, c: Config) {
    TotalQty(b.inbuf1) < Eps || TotalQty(b.inbuf2) < Eps || TickQty(b, c) < Eps
  }

  /** A remainder goes back into its buffer only if any of it is left. */
  function PushBack(m: Material): seq<Material> {
    if Quantity(m) > 0.0 then [m] else []
  }

  /** What goes back into a buffer holds what was left, as physical batches. */
  lemma PushBackHoldsRest(m: Material)
    requires Physical(m)
    ensures AllPhysical(PushBack(m))
    ensures TotalQty(PushBack(m)) == Quantity(m)
    ensures forall k :: 0 <= k < |PushBack(m)| ==> Quantity(PushBack(m)[k]) > 0.0
  {
    if Quantity(m) > 0.0 {
      TotalQtyPush([], m);
    }
  }

  /** The plan of a tick that gets past the idle check with a feasible
      fraction. */
  function TickPlan(b: Buffers, c: Config, frac2: real): Plan
    requires AllPhysical(b.inbuf1) && AllPhysical(b.inbuf2)
    requires !Idle(b, c) && 0.0 <= frac2 <= 1.0
  {
    TotalQtyNonNegative(b.inbuf1);
    TotalQtyNonNegative(b.inbuf2);
    PlanBlend(TotalQty(b.inbuf1), TotalQty(b.inbuf2), frac2, TickQty(b, c))
  }

  /** The buffers after one tick with solver fraction `frac2` (lines 44-113). */
  function TickSpec(b: Buffers, c: Config, frac2: real): Buffers
    requires AllPhysical(b.inbuf1) && AllPhysical(b.inbuf2)
    requires frac2 <= 1.0
  {
    if Idle(b, c) then b
    else
      var m1 := Merged(b.inbuf1);
      var m2 := Merged(b.inbuf2);
      if frac2 < 0.0 then Buffers([m1], [m2], b.outbuf)
      else
        var plan := TickPlan(b, c, frac2);
        var s1 := ExtractQty(m1, plan.take1);
        var s2 := ExtractQty(m2, plan.take2);
        Buffers(PushBack(s1.rest), PushBack(s2.rest), b.outbuf + [Absorb(s1.piece, s2.piece)])
  }

  /** Lines 51-55 (and 57-61): absorb every popped batch into the first. */
  method AbsorbAll(mats: seq<Material>) returns (m: Material)
    requires mats != []
    ensures m == Merged(mats)
    ensures Quantity(m) == TotalQty(mats)
  {
    m := mats[0];
    var i := 1;
    while i < |mats|
      invariant 1 <= i <= |mats|
      invariant m == Merged(mats[..i])
    {
      assert mats[..i + 1][..i] == mats[..i];
      m := Absorb(m, mats[i]);
      i := i + 1;
    }
    assert mats[..i] == mats;
  }

  /** Lines 77-99: cut the planned quantity down to the binding stream,
      take each stream's share of it (clamped to what the stream holds) and
      absorb the two pieces into one mix. Returns the mix and what is left of
      each stream. */
  method Mix(m1: Material, m2: Material, frac2: real, qty: real)
    returns (mix: Material, rest1: Material, rest2: Material)
    requires Physical(m1) && Physical(m2)
    requires 0.0 <= frac2 <= 1.0 && 0.0 <= qty
    ensures var p := PlanBlend(Quantity(m1), Quantity(m2), frac2, qty);
      var s1, s2 := ExtractQty(m1, p.take1), ExtractQty(m2, p.take2);
      mix == Absorb(s1.piece, s2.piece) && rest1 == s1.rest && rest2 == s2.rest
    ensures Quantity(mix) + Quantity(rest1) + Quantity(rest2) == Quantity(m1) + Quantity(m2)
    ensures Quantity(mix) <= qty
  {
    ghost var plan := PlanBlend(Quantity(m1), Quantity(m2), frac2, qty);
    PlanBlendTakes(Quantity(m1), Quantity(m2), frac2, qty);
    var frac1 := 1.0 - frac2;
    var reduced := ReducedQty(Quantity(m1), Quantity(m2), frac2, qty);
    var take1 := Take(frac1, reduced, Quantity(m1));
    var take2 := Take(frac2, reduced, Quantity(m2));
    assert take1 == plan.take1 && take2 == plan.take2;
    var split := ExtractQty(m1, take1);
    mix, rest1 := split.piece, split.rest;
    split := ExtractQty(m2, take2);
    mix, rest2 := Absorb(mix, split.piece), split.rest;
  }

  class RecipeMixer {
    var inbuf1: seq<Material>
    var inbuf2: seq<Material>
    var outbuf: seq<Material>
    const inbuf1Size: real
    const inbuf2Size: real
    const outbufSize: real
    const throughput: real

    function Contents(): Buffers
      reads this
    {
      Buffers(inbuf1, inbuf2, outbuf)
    }

    function Cfg(): Config {
      Config(inbuf1Size, inbuf2Size, outbufSize, throughput)
    }

    ghost predicate Valid()
      reads this
    {
      WellFormed(Contents(), Cfg())
    }

    /** A facility with empty buffers and the given limits. */
    constructor (inbuf1Size: real, inbuf2Size: real, outbufSize: real, throughput: real)
      requires 0.0 <= inbuf1Size && 0.0 <= inbuf2Size && 0.0 <= outbufSize
      ensures Valid()
      ensures Contents() == Buffers([], [], [])
      ensures Cfg() == Config(inbuf1Size, inbuf2Size, outbufSize, throughput)
    {
      this.inbuf1Size := inbuf1Size;
      this.inbuf2Size := inbuf2Size;
      this.outbufSize := outbufSize;
      this.throughput := throughput;
      inbuf1, inbuf2, outbuf := [], [], [];
    }

    /** One tick, with `frac2` the fraction of fissile stream the reactivity
        solver asks for (negative when the target cannot be reached). */
    method Tick(frac2: real)
      requires Valid()
      requires frac2 <= 1.0
      modifies this
      ensures Valid()
      ensures Contents() == TickSpec(old(Contents()), Cfg(), frac2)
    {
      ghost var b, c := Contents(), Cfg();
      var qty := Min(throughput, Space(outbuf, outbufSize));
      if TotalQty(inbuf1) < Eps || TotalQty(inbuf2) < Eps || qty < Eps {
        IdleTick(b, c, frac2);
        return;
      }
      BlendInputs(frac2, qty);
    }

    /** Lines 49-113, the part of a tick past the idle check: merge each
        input buffer into one batch, then either put both back (no feasible
        fraction) or blend them and push the mix and what is left. */
    method BlendInputs(frac2: real, qty: real)
      requires Valid()
      requires !Idle(Contents(), Cfg()) && qty == TickQty(Contents(), Cfg())
      requires frac2 <= 1.0
      modifies this
      ensures Valid()
      ensures Contents() == TickSpec(old(Contents()), Cfg(), frac2)
    {
      ghost var b, c := Contents(), Cfg();
      TickKeepsWellFormed(b, c, frac2);
      TotalQtyNonNegative(b.inbuf1);
      TotalQtyNonNegative(b.inbuf2);
      var mats := inbuf1;
      inbuf1 := [];
      var m1 := AbsorbAll(mats);
      mats := inbuf2;
      inbuf2 := [];
      var m2 := AbsorbAll(mats);

      if frac2 < 0.0 {
        RollbackTick(b, c, frac2);
        inbuf1 := inbuf1 + [m1];
        inbuf2 := inbuf2 + [m2];
        assert Contents() == Buffers([m1], [m2], b.outbuf);
        return;
      }

      MixingTickOfMerged(b, c, frac2);
      MixAndPush(m1, m2, frac2, qty);
    }

    /** Lines 77-113 once the inputs are merged and a fraction is found:
        blend the two batches, push the mix onto the output buffer and push
        back each remainder that still holds anything. */
    method MixAndPush(m1: Material, m2: Material, frac2: real, qty: real)
      requires Valid() && inbuf1 == [] && inbuf2 == []
      requires Physical(m1) && Quantity(m1) <= inbuf1Size
      requires Physical(m2) && Quantity(m2) <= inbuf2Size
      requires 0.0 <= frac2 <= 1.0 && 0.0 <= qty && qty == TickQty(Contents(), Cfg())
      modifies this
      ensures Valid()
      ensures var p := PlanBlend(Quantity(m1), Quantity(m2), frac2, qty);
        var s1, s2 := ExtractQty(m1, p.take1), ExtractQty(m2, p.take2);
        Contents() == Buffers(PushBack(s1.rest), PushBack(s2.rest), old(outbuf) + [Absorb(s1.piece, s2.piece)])
    {
      BlendedBuffersWellFormed(outbuf, Cfg(), m1, m2, frac2);
      var mix, rest1, rest2 := Mix(m1, m2, frac2, qty);
      outbuf := outbuf + [mix];
      if Quantity(rest1) > 0.0 {
        inbuf1 := inbuf1 + [rest1];
      }
      if Quantity(rest2) > 0.0 {
        inbuf2 := inbuf2 + [rest2];
      }
      assert inbuf1 == PushBack(rest1);
      assert inbuf2 == PushBack(rest2);
    }
  }

  /** Lines 98-113 keep the buffers well formed: the mix fits in the output
      room and each remainder is at most what its buffer held. */
  lemma BlendedBuffersWellFormed(out: seq<Material>, c: Config, m1: Material, m2: Material, frac2: real)
    requires WellFormed(Buffers([], [], out), c)
    requires Physical(m1) && Quantity(m1) <= c.inbuf1Size
    requires Physical(m2) && Quantity(m2) <= c.inbuf2Size
    requires 0.0 <= frac2 <= 1.0 && 0.0 <= TickQty(Buffers([], [], out), c)
    ensures var p := PlanBlend(Quantity(m1), Quantity(m2), frac2, TickQty(Buffers([], [], out), c));
      var s1, s2 := ExtractQty(m1, p.take1), ExtractQty(m2, p.take2);
      WellFormed(Buffers(PushBack(s1.rest), PushBack(s2.rest), out + [Absorb(s1.piece, s2.piece)]), c)
  {
    var p := PlanBlend(Quantity(m1), Quantity(m2), frac2, TickQty(Buffers([], [], out), c));
    var s1, s2 := ExtractQty(m1, p.take1), ExtractQty(m2, p.take2);
    var mix := Absorb(s1.piece, s2.piece);
    PushBackHoldsRest(s1.rest);
    PushBackHoldsRest(s2.rest);
    TotalQtyPush(out, mix);
    assert AllPhysical(out + [mix]) by {
      forall k | 0 <= k < |out| + 1 ensures Physical((out + [mix])[k]) {
        if k < |out| {
          assert (out + [mix])[k] == out[k];
        }
      }
    }
  }

  /** Line 45: with an input (nearly) empty, or no throughput or output
      room, the tick changes nothing. */
  lemma IdleTick(b: Buffers, c: Config, frac2: real)
    requires AllPhysical(b.inbuf1) && AllPhysical(b.inbuf2) && frac2 <= 1.0
    requires Idle(b, c)
    ensures TickSpec(b, c, frac2) == b
  {
  }

  /** Lines 63-70: with no feasible fraction, the merged inputs go back
      into their buffers and the output is untouched. */
  lemma RollbackTick(b: Buffers, c: Config, frac2: real)
    requires AllPhysical(b.inbuf1) && AllPhysical(b.inbuf2)
    requires !Idle(b, c) && frac2 < 0.0
    ensures TickSpec(b, c, frac2) == Buffers([Merged(b.inbuf1)], [Merged(b.inbuf2)], b.outbuf)
    ensures TotalQty(TickSpec(b, c, frac2).inbuf1) == TotalQty(b.inbuf1)
    ensures TotalQty(TickSpec(b, c, frac2).inbuf2) == TotalQty(b.inbuf2)
  {
    TotalQtyPush([], Merged(b.inbuf1));
    TotalQtyPush([], Merged(b.inbuf2));
  }

  /** A feasible, non-idle tick blends the merged inputs by the plan for
      the tick quantity, pushes the mix onto the output and puts back each
      positive remainder. */
  lemma MixingTickOfMerged(b: Buffers, c: Config, frac2: real)
    requires AllPhysical(b.inbuf1) && AllPhysical(b.inbuf2)
    requires !Idle(b, c) && 0.0 <= frac2 <= 1.0
    ensures var m1, m2 := Merged(b.inbuf1), Merged(b.inbuf2);
      var p := PlanBlend(Quantity(m1), Quantity(m2), frac2, TickQty(b, c));
      var s1, s2 := ExtractQty(m1, p.take1), ExtractQty(m2, p.take2);
      TickSpec(b, c, frac2) == Buffers(PushBack(s1.rest), PushBack(s2.rest), b.outbuf + [Absorb(s1.piece, s2.piece)])
  {
  }

  /** What one feasible, non-idle tick does to each buffer's quantity:
      stream 1 loses `take1`, stream 2 loses `take2`, the output gains their
      sum. */
  lemma MixingTickQuantities(b: Buffers, c: Config, frac2: real)
    requires AllPhysical(b.inbuf1) && AllPhysical(b.inbuf2)
    requires !Idle(b, c) && 0.0 <= frac2 <= 1.0
    ensures var r, p := TickSpec(b, c, frac2), TickPlan(b, c, frac2);
      && AllPhysical(r.inbuf1) && AllPhysical(r.inbuf2)
      && TotalQty(r.inbuf1) == TotalQty(b.inbuf1) - p.take1
      && TotalQty(r.inbuf2) == TotalQty(b.inbuf2) - p.take2
      && |r.outbuf| == |b.outbuf| + 1
      && r.outbuf[..|b.outbuf|] == b.outbuf
      && Physical(r.outbuf[|b.outbuf|])
      && Quantity(r.outbuf[|b.outbuf|]) == p.take1 + p.take2
      && TotalQty(r.outbuf) == TotalQty(b.outbuf) + p.take1 + p.take2
  {
    var m1 := Merged(b.inbuf1);
    var m2 := Merged(b.inbuf2);
    var p := TickPlan(b, c, frac2);
    var s1 := ExtractQty(m1, p.take1);
    var s2 := ExtractQty(m2, p.take2);
    var mix := Absorb(s1.piece, s2.piece);
    var r := TickSpec(b, c, frac2);
    assert r == Buffers(PushBack(s1.rest), PushBack(s2.rest), b.outbuf + [mix]);
    PushBackHoldsRest(s1.rest);
    PushBackHoldsRest(s2.rest);
    TotalQtyPush(b.outbuf, mix);
    assert (b.outbuf + [mix])[..|b.outbuf|] == b.outbuf;
  }

  /** A tick keeps every batch physical and every buffer within capacity. */
  lemma TickKeepsWellFormed(b: Buffers, c: Config, frac2: real)
    requires WellFormed(b, c) && frac2 <= 1.0
    ensures WellFormed(TickSpec(b, c, frac2), c)
  {
    if !Idle(b, c) {
      if 0.0 <= frac2 {
        MixingTickWellFormed(b, c, frac2);
      } else {
        RollbackTick(b, c, frac2);
      }
    }
  }

  lemma MixingTickWellFormed(b: Buffers, c: Config, frac2: real)
    requires WellFormed(b, c) && !Idle(b, c) && 0.0 <= frac2 <= 1.0
    ensures WellFormed(TickSpec(b, c, frac2), c)
  {
    MixingTickQuantities(b, c, frac2);
    var r := TickSpec(b, c, frac2);
    var p := TickPlan(b, c, frac2);
    assert p.take1 + p.take2 <= TickQty(b, c);
    assert forall k :: 0 <= k < |r.outbuf| ==> Physical(r.outbuf[k]) by {
      forall k | 0 <= k < |r.outbuf| ensures Physical(r.outbuf[k]) {
        if k < |b.outbuf| {
          assert r.outbuf[k] == r.outbuf[..|b.outbuf|][k];
        }
      }
    }
  }

  /** Total quantity held by the facility. */
  function Stock(b: Buffers): real {
    TotalQty(b.inbuf1) + TotalQty(b.inbuf2) + TotalQty(b.outbuf)
  }

  /** Mass of nuclide `nuc` held by the facility. */
  function NuclideStock(b: Buffers, nuc: int): real {
    NuclideTotal(b.inbuf1, nuc) + NuclideTotal(b.inbuf2, nuc) + NuclideTotal(b.outbuf, nuc)
  }

  /** A tick only moves material between the buffers: the facility's total
      quantity is the same after it. */
  lemma TickConservesMass(b: Buffers, c: Config, frac2: real)
    requires AllPhysical(b.inbuf1) && AllPhysical(b.inbuf2) && frac2 <= 1.0
    ensures Stock(TickSpec(b, c, frac2)) == Stock(b)
  {
    if !Idle(b, c) {
      if frac2 < 0.0 {
        RollbackTick(b, c, frac2);
      } else {
        MixingTickQuantities(b, c, frac2);
      }
    }
  }

  /** The same holds nuclide by nuclide: merging, extracting and absorbing
      neither create nor destroy any nuclide. */
  lemma TickConservesNuclides(b: Buffers, c: Config, frac2: real, nuc: int)
    requires AllPhysical(b.inbuf1) && AllPhysical(b.inbuf2) && frac2 <= 1.0
    ensures NuclideStock(TickSpec(b, c, frac2), nuc) == NuclideStock(b, nuc)
  {
    if !Idle(b, c) {
      MergedNuclides(b.inbuf1, nuc);
      MergedNuclides(b.inbuf2, nuc);
      if frac2 < 0.0 {
        RollbackTick(b, c, frac2);
        NuclideTotalPush([], Merged(b.inbuf1), nuc);
        NuclideTotalPush([], Merged(b.inbuf2), nuc);
      } else {
        MixingTickNuclides(b, c, frac2, nuc);
      }
    }
  }

  lemma MixingTickNuclides(b: Buffers, c: Config, frac2: real, nuc: int)
    requires AllPhysical(b.inbuf1) && AllPhysical(b.inbuf2)
    requires !Idle(b, c) && 0.0 <= frac2 <= 1.0
    ensures var m1, m2 := Merged(b.inbuf1), Merged(b.inbuf2);
      NuclideStock(TickSpec(b, c, frac2), nuc) == MassOf(m1, nuc) + MassOf(m2, nuc) + NuclideTotal(b.outbuf, nuc)
  {
    var m1, m2 := Merged(b.inbuf1), Merged(b.inbuf2);
    var p := TickPlan(b, c, frac2);
    var s1, s2 := ExtractQty(m1, p.take1), ExtractQty(m2, p.take2);
    var mix := Absorb(s1.piece, s2.piece);
    MixingTickOfMerged(b, c, frac2);
    PushBackNuclide(s1.rest, nuc);
    PushBackNuclide(s2.rest, nuc);
    NuclideTotalPush(b.outbuf, mix, nuc);
    assert MassOf(mix, nuc) == MassOf(s1.piece, nuc) + MassOf(s2.piece, nuc);
    ExtractSplitsNuclide(m1, p.take1, nuc);
    ExtractSplitsNuclide(m2, p.take2, nuc);
  }

  /** Dropping an empty remainder drops no nuclide. */
  lemma PushBackNuclide(m: Material, nuc: int)
    requires Physical(m)
    ensures NuclideTotal(PushBack(m), nuc) == MassOf(m, nuc)
  {
    NuclideTotalPush([], m, nuc);
    if Quantity(m) <= 0.0 {
      EmptyBatchHoldsNothing(m, nuc);
    }
  }

  /** The mix of a non-idle, feasible tick (lines 98-107): never empty, no
      more than the throughput, no more than the output buffer's room, and
      the output stays within its capacity. */
  lemma MixWithinLimits(b: Buffers, c: Config, frac2: real)
    requires WellFormed(b, c)
    requires !Idle(b, c) && 0.0 <= frac2 <= 1.0
    ensures var r := TickSpec(b, c, frac2);
      && |r.outbuf| == |b.outbuf| + 1
      && 0.0 < Quantity(r.outbuf[|b.outbuf|]) <= c.throughput
      && Quantity(r.outbuf[|b.outbuf|]) <= Space(b.outbuf, c.outbufSize)
      && TotalQty(r.outbuf) <= c.outbufSize
  {
    MixingTickQuantities(b, c, frac2);
  }

  /** Neither stream short (lines 82-83): the tick draws `1 - frac2` of the
      full tick quantity from stream 1 and `frac2` of it from stream 2, so
      the mix (MixingTickQuantities) is the full tick quantity. */
  lemma UnconstrainedTick(b: Buffers, c: Config, frac2: real)
    requires AllPhysical(b.inbuf1) && AllPhysical(b.inbuf2)
    requires !Idle(b, c) && 0.0 <= frac2 <= 1.0
    requires BindingStream(TotalQty(b.inbuf1), TotalQty(b.inbuf2), frac2, TickQty(b, c)) == Unconstrained
    ensures TickPlan(b, c, frac2).take1 == (1.0 - frac2) * TickQty(b, c)
    ensures TickPlan(b, c, frac2).take2 == frac2 * TickQty(b, c)
    ensures TickPlan(b, c, frac2).take1 + TickPlan(b, c, frac2).take2 == TickQty(b, c)
  {
    var q1, q2, qty := TotalQty(b.inbuf1), TotalQty(b.inbuf2), TickQty(b, c);
    TotalQtyNonNegative(b.inbuf1);
    TotalQtyNonNegative(b.inbuf2);
    assert TickPlan(b, c, frac2) == PlanBlend(q1, q2, frac2, qty);
    UnconstrainedFillsQty(q1, q2, frac2, qty);
  }

  /** A remainder goes back only when positive (lines 108-113), and the
      stream that bound the blend goes back empty. */
  lemma RemaindersAfterTick(b: Buffers, c: Config, frac2: real)
    requires AllPhysical(b.inbuf1) && AllPhysical(b.inbuf2)
    requires !Idle(b, c) && 0.0 <= frac2 <= 1.0
    ensures var r := TickSpec(b, c, frac2);
      var binding := BindingStream(TotalQty(b.inbuf1), TotalQty(b.inbuf2), frac2, TickQty(b, c));
      && |r.inbuf1| <= 1 && |r.inbuf2| <= 1
      && (forall k :: 0 <= k < |r.inbuf1| ==> Quantity(r.inbuf1[k]) > 0.0)
      && (forall k :: 0 <= k < |r.inbuf2| ==> Quantity(r.inbuf2[k]) > 0.0)
      && (binding == Stream1 ==> r.inbuf1 == [])
      && (binding == Stream2 ==> r.inbuf2 == [])
  {
    var m1, m2 := Merged(b.inbuf1), Merged(b.inbuf2);
    var p := TickPlan(b, c, frac2);
    var s1, s2 := ExtractQty(m1, p.take1), ExtractQty(m2, p.take2);
    MixingTickOfMerged(b, c, frac2);
    PushBackHoldsRest(s1.rest);
    PushBackHoldsRest(s2.rest);
    TotalQtyNonNegative(b.inbuf1);
    TotalQtyNonNegative(b.inbuf2);
    BindingStreamUsedUp(TotalQty(b.inbuf1), TotalQty(b.inbuf2), frac2, TickQty(b, c));
  }
}
