/** Linear demand and supply curves, their market equilibrium inside the visible
    chart window, and the per-unit tax/subsidy shift of the supply curve.
    Prices and quantities are exact reals. */
module Curves {

  /** Largest quantity shown on the chart. */
  const QMAX: real := 20.0
  /** Largest price shown on the chart. */
  const PMAX: real := 20.0

  /** Demand curve: P = a - b*Q. */
  function DemandPrice(q: real, a: real, b: real): real
  {
    a - b * q
  }

  /** Supply curve: P = c + d*Q. */
  function SupplyPrice(q: real, c: real, d: real): real
  {
    c + d * q
  }

  /** Quantity demanded at price p: the demand curve read backwards. It is the
      one and only quantity at which demand asks price p. */
  function QuantityDemanded(p: real, a: real, b: real): (q: real)
    requires b != 0.0
    ensures DemandPrice(q, a, b) == p
    ensures forall q' :: DemandPrice(q', a, b) == p ==> q' == q
  {
    var q := (a - p) / b;
    assert b * q == a - p;
    q
  }

  /** Quantity supplied at price p: the supply curve read backwards. It is the
      one and only quantity at which supply asks price p. */
  function QuantitySupplied(p: real, c: real, d: real): (q: real)
    requires d != 0.0
    ensures SupplyPrice(q, c, d) == p
    ensures forall q' :: SupplyPrice(q', c, d) == p ==> q' == q
  {
    var q := (p - c) / d;
    assert d * q == p - c;
    q
  }

  /** The quantity at which the two lines cross, when they are not parallel. */
  function Crossing(a: real, b: real, c: real, d: real): (q: real)
    requires b + d != 0.0
    ensures DemandPrice(q, a, b) == SupplyPrice(q, c, d)
  {
    var q := (a - c) / (b + d);
    assert (b + d) * q == a - c;
    q
  }

  /** Two distinct lines meet at most once: any crossing is `Crossing`. */
  lemma CrossingIsUnique(a: real, b: real, c: real, d: real, q: real)
    requires b + d != 0.0
    requires DemandPrice(q, a, b) == SupplyPrice(q, c, d)
    ensures q == Crossing(a, b, c, d)
  {
  }

  /** The visible window [0, QMAX] x [0, PMAX]. */
  predicate InWindow(q: real, p: real)
  {
    0.0 <= q <= QMAX && 0.0 <= p <= PMAX
  }

  /** A visible equilibrium point, or none (the JavaScript `null`). */
  datatype Equilibrium = Absent | At(qe: real, pe: real)

  /** Intersection of demand P = a - b*Q with supply P = c + d*Q. Absent when the
      lines are parallel (b + d == 0) and when the point lies outside the window. */
  function ComputeEquilibrium(a: real, b: real, c: real, d: real): (r: Equilibrium)
    ensures b + d == 0.0 ==> r == Absent
    ensures r.At? ==> r.pe == DemandPrice(r.qe, a, b) && r.pe == SupplyPrice(r.qe, c, d)
    ensures r.At? ==> InWindow(r.qe, r.pe)
  {
    var denom := b + d;
    if denom == 0.0 then Absent
    else
      var qe := Crossing(a, b, c, d);
      var pe := DemandPrice(qe, a, b);
      if qe < 0.0 || qe > QMAX || pe < 0.0 || pe > PMAX then Absent
      else At(qe, pe)
  }

  /** Exactly the crossing points inside the window are reported: for any point q
      where the (non-parallel) lines meet, the result is that point when it is
      visible and Absent otherwise. */
  lemma EquilibriumIsTheVisibleCrossing(a: real, b: real, c: real, d: real, q: real)
    requires b + d != 0.0
    requires DemandPrice(q, a, b) == SupplyPrice(q, c, d)
    ensures ComputeEquilibrium(a, b, c, d)
         == (if InWindow(q, DemandPrice(q, a, b)) then At(q, DemandPrice(q, a, b)) else Absent)
  {
    CrossingIsUnique(a, b, c, d, q);
  }

  /** A policy amount counts only while its checkbox is ticked. */
  function Effective(enabled: bool, amount: real): real
  {
    if enabled then amount else 0.0
  }

  /** Supply intercept after a per-unit tax and subsidy on sellers. */
  function PolicyIntercept(cBase: real, tax: real, subsidy: real): real
  {
    cBase + tax - subsidy
  }

  /** The policy supply curve is the base supply curve moved up by the tax and
      down by the subsidy, at every quantity. */
  lemma PolicyShiftsSupply(q: real, cBase: real, d: real, tax: real, subsidy: real)
    ensures SupplyPrice(q, PolicyIntercept(cBase, tax, subsidy), d)
         == SupplyPrice(q, cBase, d) + tax - subsidy
  {
  }

  /** With neither tax nor subsidy ticked, the policy equilibrium is the base one. */
  lemma NoPolicyKeepsEquilibrium(a: real, b: real, cBase: real, d: real, taxAmount: real, subsidyAmount: real)
    ensures ComputeEquilibrium(a, b, PolicyIntercept(cBase, Effective(false, taxAmount), Effective(false, subsidyAmount)), d)
         == ComputeEquilibrium(a, b, cBase, d)
  {
  }

  /** Moving supply up by a net tax t moves the crossing left by t/(b+d) and
      raises the price buyers pay by b*t/(b+d): with positive slopes a tax lowers
      the traded quantity and raises the price, a subsidy does the opposite. */
  lemma NetTaxMovesCrossing(a: real, b: real, cBase: real, d: real, t: real)
    requires b > 0.0 && d > 0.0
    ensures Crossing(a, b, cBase + t, d) == Crossing(a, b, cBase, d) - t / (b + d)
    ensures DemandPrice(Crossing(a, b, cBase + t, d), a, b)
         == DemandPrice(Crossing(a, b, cBase, d), a, b) + b * t / (b + d)
    ensures t > 0.0 ==> Crossing(a, b, cBase + t, d) < Crossing(a, b, cBase, d)
  {
  }
}
