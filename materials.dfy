/** Materials as the recipe mixer handles them.

    A batch of material is the mass of each nuclide it holds, indexed by the
    nuclide's position in the host's nuclide table (positions beyond the end
    hold no mass). Its quantity is the total mass; its composition is the
    mass of each nuclide relative to that total. `Absorb` merges two batches
    by adding their nuclide masses; `ExtractQty` splits off a piece of a given
    mass with the batch's own composition. */
module Materials {

  /** Quantities below this tolerance count as empty (the host's eps(), 1e-6). */
  const Eps: real := 0.000001

  predicate NonNegative(s: seq<real>) {
    forall i :: 0 <= i < |s| ==> 0.0 <= s[i]
  }

  function Sum(s: seq<real>): real {
    if s == [] then 0.0 else s[0] + Sum(s[1..])
  }

  /** A sum of entries none of which is negative is not negative. */
  lemma {:induction false} SumNonNegative(s: seq<real>)
    ensures NonNegative(s) ==> 0.0 <= Sum(s)
  {
    if s != [] {
      SumNonNegative(s[1..]);
      assert NonNegative(s) ==> NonNegative(s[1..]);
    }
  }

  /** The entry at position `i`, or no mass when `s` does not reach `i`. */
  function At(s: seq<real>, i: int): real {
    if 0 <= i < |s| then s[i] else 0.0
  }

  /** Position-wise sum of two mass vectors, the shorter one padded with zeros. */
  function AddMasses(a: seq<real>, b: seq<real>): (r: seq<real>)
    ensures |r| == if |a| < |b| then |b| else |a|
    ensures forall i :: 0 <= i < |r| ==> r[i] == At(a, i) + At(b, i)
    ensures Sum(r) == Sum(a) + Sum(b)
  {
    if a == [] then b
    else if b == [] then a
    else [a[0] + b[0]] + AddMasses(a[1..], b[1..])
  }

  /** Every entry multiplied by `f`. */
  function ScaleMasses(s: seq<real>, f: real): (r: seq<real>)
    ensures |r| == |s|
  {
    if s == [] then [] else [f * s[0]] + ScaleMasses(s[1..], f)
  }

  lemma {:induction false} ScaledAt(s: seq<real>, f: real, i: int)
    requires 0 <= i < |s|
    ensures ScaleMasses(s, f)[i] == f * s[i]
  {
    if i > 0 {
      ScaledAt(s[1..], f, i - 1);
      assert ScaleMasses(s, f)[i] == ScaleMasses(s[1..], f)[i - 1];
    }
  }

  lemma {:induction false} SumScaled(s: seq<real>, f: real, qty: real)
    requires f * Sum(s) == qty
    ensures Sum(ScaleMasses(s, f)) == qty
  {
    if s != [] {
      var r := ScaleMasses(s, f);
      assert r[1..] == ScaleMasses(s[1..], f);
      SumScaled(s[1..], f, f * Sum(s[1..]));
      assert Sum(r) == f * s[0] + Sum(r[1..]);
      Distribute(f, s[0], Sum(s[1..]));
    }
  }

  // Small facts of real arithmetic, stated apart so that the solver meets
  // each product on its own.

  lemma Distribute(f: real, a: real, b: real)
    ensures f * (a + b) == f * a + f * b
  {}

  lemma Complement(f: real, g: real, x: real)
    requires f + g == 1.0
    ensures f * x + g * x == x
  {}

  lemma ProductNonNegative(f: real, x: real)
    requires 0.0 <= f && 0.0 <= x
    ensures 0.0 <= f * x
  {}

  /** The share `qty` makes up of `total` (none of an empty total). */
  function Share(qty: real, total: real): (f: real)
    requires 0.0 <= qty <= total
    ensures 0.0 <= f <= 1.0
    ensures f * total == qty
  {
    if total == 0.0 then 0.0 else QuotientIsShare(qty, total); qty / total
  }

  /** The share the remainder `total - qty` makes up of `total`; a batch with
      no mass passes all of itself on as the remainder. */
  function RestShare(qty: real, total: real): (g: real)
    requires 0.0 <= qty <= total
    ensures 0.0 <= g <= 1.0
    ensures g * total == total - qty
    ensures Share(qty, total) + g == 1.0
  {
    if total == 0.0 then 1.0
    else
      var rest := total - qty;
      QuotientIsShare(rest, total);
      SharesAddUp(qty, rest, total);
      rest / total
  }

  lemma QuotientIsShare(x: real, total: real)
    requires 0.0 <= x <= total && total != 0.0
    ensures 0.0 <= x / total <= 1.0
    ensures (x / total) * total == x
  {}

  lemma SharesAddUp(x: real, y: real, total: real)
    requires total != 0.0 && x + y == total
    ensures x / total + y / total == 1.0
  {}

  datatype Material = Material(mass: seq<real>)

  /** A physical batch: no nuclide has negative mass. */
  predicate Physical(m: Material) {
    NonNegative(m.mass)
  }

  /** The batch's quantity (total mass). */
  function Quantity(m: Material): (q: real)
    ensures Physical(m) ==> 0.0 <= q
  {
    SumNonNegative(m.mass);
    Sum(m.mass)
  }

  /** Mass of nuclide `nuc` in the batch. */
  function MassOf(m: Material, nuc: int): real {
    At(m.mass, nuc)
  }

  /** Material::Absorb: `m` takes in all of `other`, nuclide by nuclide. */
  function Absorb(m: Material, other: Material): (r: Material)
    ensures Quantity(r) == Quantity(m) + Quantity(other)
    ensures forall nuc :: MassOf(r, nuc) == MassOf(m, nuc) + MassOf(other, nuc)
    ensures Physical(m) && Physical(other) ==> Physical(r)
  {
    Material(AddMasses(m.mass, other.mass))
  }

  /** The two parts of a batch after an extraction. */
  datatype Split = Split(piece: Material, rest: Material)

  lemma {:induction false} ScaledPartsRecombine(s: seq<real>, f: real, g: real)
    requires f + g == 1.0
    ensures AddMasses(ScaleMasses(s, f), ScaleMasses(s, g)) == s
  {
    if s != [] {
      var a, b := ScaleMasses(s, f), ScaleMasses(s, g);
      assert a == [f * s[0]] + ScaleMasses(s[1..], f);
      assert b == [g * s[0]] + ScaleMasses(s[1..], g);
      assert a[1..] == ScaleMasses(s[1..], f);
      assert b[1..] == ScaleMasses(s[1..], g);
      ScaledPartsRecombine(s[1..], f, g);
      Complement(f, g, s[0]);
      assert a[0] + b[0] == s[0];
      assert AddMasses(a, b) == [a[0] + b[0]] + AddMasses(a[1..], b[1..]);
      assert AddMasses(a, b) == [s[0]] + s[1..];
      assert s == [s[0]] + s[1..];
    }
  }

  lemma ScaledNonNegative(s: seq<real>, f: real)
    requires NonNegative(s) && 0.0 <= f
    ensures NonNegative(ScaleMasses(s, f))
  {
    var r := ScaleMasses(s, f);
    forall i | 0 <= i < |s| ensures 0.0 <= r[i] {
      ScaledAt(s, f, i);
      ProductNonNegative(f, s[i]);
    }
  }

  /** Scaling by `f` scales every nuclide's mass by `f`, so the
      composition is unchanged. */
  lemma ScaledNuclide(s: seq<real>, f: real, nuc: int)
    ensures At(ScaleMasses(s, f), nuc) == f * At(s, nuc)
  {
    if 0 <= nuc < |s| {
      ScaledAt(s, f, nuc);
    }
  }

  /** Material::ExtractQty: split off a piece of mass `qty`; the rest keeps
      the remaining mass. Both parts have the batch's composition
      (ExtractedPieceComposition, ExtractedRestComposition) and together give the batch back
      (ExtractThenAbsorb). */
  function ExtractQty(m: Material, qty: real): (s: Split)
    requires Physical(m)
    requires 0.0 <= qty <= Quantity(m)
    ensures Physical(s.piece) && Physical(s.rest)
    ensures Quantity(s.piece) == qty
    ensures Quantity(s.rest) == Quantity(m) - qty
  {
    var q := Sum(m.mass);
    var f, g := Share(qty, q), RestShare(qty, q);
    SumScaled(m.mass, f, qty);
    SumScaled(m.mass, g, q - qty);
    ScaledNonNegative(m.mass, f);
    ScaledNonNegative(m.mass, g);
    Split(Material(ScaleMasses(m.mass, f)), Material(ScaleMasses(m.mass, g)))
  }

  /** ExtractQty spelled out: both parts are the batch scaled by their
      shares of its quantity. */
  lemma ExtractQtyParts(m: Material, qty: real)
    requires Physical(m)
    requires 0.0 <= qty <= Quantity(m)
    ensures ExtractQty(m, qty).piece.mass == ScaleMasses(m.mass, Share(qty, Quantity(m)))
    ensures ExtractQty(m, qty).rest.mass == ScaleMasses(m.mass, RestShare(qty, Quantity(m)))
  {}

  /** The extracted piece holds each nuclide at `qty / Quantity(m)` of the
      batch's mass of it: the batch's own composition. */
  lemma ExtractedPieceComposition(m: Material, qty: real, nuc: int)
    requires Physical(m)
    requires 0.0 <= qty <= Quantity(m)
    ensures MassOf(ExtractQty(m, qty).piece, nuc) == Share(qty, Quantity(m)) * MassOf(m, nuc)
  {
    ExtractQtyParts(m, qty);
    ScaledNuclide(m.mass, Share(qty, Quantity(m)), nuc);
  }

  /** What is left behind holds each nuclide at the remaining share. */
  lemma ExtractedRestComposition(m: Material, qty: real, nuc: int)
    requires Physical(m)
    requires 0.0 <= qty <= Quantity(m)
    ensures MassOf(ExtractQty(m, qty).rest, nuc) == RestShare(qty, Quantity(m)) * MassOf(m, nuc)
  {
    ExtractQtyParts(m, qty);
    ScaledNuclide(m.mass, RestShare(qty, Quantity(m)), nuc);
  }

  lemma ExtractThenAbsorb(m: Material, qty: real)
    requires Physical(m)
    requires 0.0 <= qty <= Quantity(m)
    ensures Absorb(ExtractQty(m, qty).piece, ExtractQty(m, qty).rest) == m
  {
    var q := Sum(m.mass);
    var f, g := Share(qty, q), RestShare(qty, q);
    ScaledPartsRecombine(m.mass, f, g);
  }

  /** An extraction splits every nuclide's mass between the piece and the
      rest. */
  lemma ExtractSplitsNuclide(m: Material, qty: real, nuc: int)
    requires Physical(m)
    requires 0.0 <= qty <= Quantity(m)
    ensures MassOf(ExtractQty(m, qty).piece, nuc) + MassOf(ExtractQty(m, qty).rest, nuc) == MassOf(m, nuc)
  {
    ExtractThenAbsorb(m, qty);
  }

  lemma {:induction false} EntryWithinSum(s: seq<real>, i: int)
    requires NonNegative(s)
    ensures 0.0 <= At(s, i) <= Sum(s)
  {
    if s != [] {
      SumNonNegative(s[1..]);
      if i != 0 {
        EntryWithinSum(s[1..], i - 1);
        assert At(s, i) == At(s[1..], i - 1);
      }
    }
  }

  /** A physical batch of no quantity holds nothing of any nuclide. */
  lemma EmptyBatchHoldsNothing(m: Material, nuc: int)
    requires Physical(m) && Quantity(m) <= 0.0
    ensures MassOf(m, nuc) == 0.0
  {
    EntryWithinSum(m.mass, nuc);
  }

  predicate AllPhysical(ms: seq<Material>) {
    forall i :: 0 <= i < |ms| ==> Physical(ms[i])
  }

  /** Total quantity of a sequence of batches (a buffer's quantity()). */
  function TotalQty(ms: seq<Material>): real {
    if ms == [] then 0.0 else TotalQty(ms[..|ms| - 1]) + Quantity(ms[|ms| - 1])
  }

  lemma {:induction false} TotalQtyNonNegative(ms: seq<Material>)
    requires AllPhysical(ms)
    ensures 0.0 <= TotalQty(ms)
  {
    if ms != [] {
      TotalQtyNonNegative(ms[..|ms| - 1]);
    }
  }

  lemma TotalQtyPush(ms: seq<Material>, m: Material)
    ensures TotalQty(ms + [m]) == TotalQty(ms) + Quantity(m)
  {
    assert (ms + [m])[..|ms|] == ms;
  }

  /** The batches absorbed one after another into the first. */
  function Merged(ms: seq<Material>): (r: Material)
    requires ms != []
    ensures Quantity(r) == TotalQty(ms)
    ensures AllPhysical(ms) ==> Physical(r)
  {
    if |ms| == 1 then ms[0]
    else Absorb(Merged(ms[..|ms| - 1]), ms[|ms| - 1])
  }

  /** Mass of nuclide `nuc` over a sequence of batches. */
  function NuclideTotal(ms: seq<Material>, nuc: int): real {
    if ms == [] then 0.0 else NuclideTotal(ms[..|ms| - 1], nuc) + MassOf(ms[|ms| - 1], nuc)
  }

  lemma NuclideTotalPush(ms: seq<Material>, m: Material, nuc: int)
    ensures NuclideTotal(ms + [m], nuc) == NuclideTotal(ms, nuc) + MassOf(m, nuc)
  {
    assert (ms + [m])[..|ms|] == ms;
  }

  /** Merging by Absorb loses and gains nothing of any nuclide. */
  lemma {:induction false} MergedNuclides(ms: seq<Material>, nuc: int)
    requires ms != []
    ensures MassOf(Merged(ms), nuc) == NuclideTotal(ms, nuc)
  {
    if |ms| == 1 {
      assert ms[..0] == [];
    } else {
      MergedNuclides(ms[..|ms| - 1], nuc);
    }
  }
}
