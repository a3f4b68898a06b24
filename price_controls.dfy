/** Price ceilings and floors: the quantities demanded and supplied at the
    control price, whether the control binds, the shortage or surplus it causes
    and the band of quantities shaded on the chart. */
module PriceControls {
  import opened Curves

  datatype ControlKind = Ceiling | Floor

  /** What one control contributes to a frame. Hidden when its checkbox is off or
      there is no visible equilibrium to compare with. Otherwise qd and qs are
      the quantities demanded and supplied at the control price; a binding
      control also reports its shortage (ceiling) or surplus (floor) as `gap` and
      the shaded band [leftQ, rightQ]. */
  datatype ControlView =
    | Hidden
    | NotBinding(qd: real, qs: real)
    | Binding(qd: real, qs: real, gap: real, leftQ: real, rightQ: real)

  function Min(x: real, y: real): real { if x <= y then x else y }
  function Max(x: real, y: real): real { if x >= y then x else y }

  /** A ceiling binds below the equilibrium price, a floor above it. */
  predicate Binds(kind: ControlKind, level: real, pe: real)
  {
    match kind
    case Ceiling => level < pe
    case Floor => level > pe
  }

  /** Shortage under a ceiling (demanded minus supplied), surplus under a floor
      (supplied minus demanded). */
  function Gap(kind: ControlKind, qd: real, qs: real): real
  {
    match kind
    case Ceiling => qd - qs
    case Floor => qs - qd
  }

  /** The span between the two quantities, clipped to the window's quantity axis. */
  function Band(qd: real, qs: real): (band: (real, real))
    ensures 0.0 <= band.0 && band.1 <= QMAX
  {
    (Max(0.0, Min(qd, qs)), Min(QMAX, Max(qd, qs)))
  }

  /** A quantity lies in the band exactly when it lies between qd and qs and on
      the visible quantity axis. */
  lemma BandIsClippedSpan(qd: real, qs: real, q: real)
    ensures Band(qd, qs).0 <= q <= Band(qd, qs).1
        <==> (0.0 <= q <= QMAX && Min(qd, qs) <= q <= Max(qd, qs))
  {
  }

  /** One control at price `level`, read against the curves a, b (demand) and
      c, d (supply, after tax and subsidy) and their equilibrium `eq`. */
  function ControlAt(kind: ControlKind, enabled: bool, level: real,
                     a: real, b: real, c: real, d: real, eq: Equilibrium): (v: ControlView)
    requires b > 0.0 && d > 0.0
    ensures v.Hidden? <==> !enabled || eq.Absent?
    ensures v.Binding? <==> enabled && eq.At? && Binds(kind, level, eq.pe)
    ensures !v.Hidden? ==> DemandPrice(v.qd, a, b) == level && SupplyPrice(v.qs, c, d) == level
    ensures v.Binding? ==> v.gap == Gap(kind, v.qd, v.qs)
    ensures v.Binding? ==> 0.0 <= v.leftQ && v.rightQ <= QMAX
    ensures v.Binding? ==> (v.leftQ, v.rightQ) == Band(v.qd, v.qs)
  {
    if eq.Absent? || !enabled then Hidden
    else
      var qd := QuantityDemanded(level, a, b);
      var qs := QuantitySupplied(level, c, d);
      if Binds(kind, level, eq.pe) then
        var band := Band(qd, qs);
        Binding(qd, qs, Gap(kind, qd, qs), band.0, band.1)
      else
        NotBinding(qd, qs)
  }

  /** Below the crossing price, less is supplied and more demanded than the
      crossing quantity; above it, the reverse. */
  lemma QuantitiesAroundCrossing(a: real, b: real, c: real, d: real, qe: real, pe: real, p: real)
    requires b > 0.0 && d > 0.0
    requires pe == DemandPrice(qe, a, b) && pe == SupplyPrice(qe, c, d)
    ensures p < pe ==> QuantitySupplied(p, c, d) < qe < QuantityDemanded(p, a, b)
    ensures p > pe ==> QuantityDemanded(p, a, b) < qe < QuantitySupplied(p, c, d)
  {
  }

  /** A binding ceiling leaves a positive shortage and a binding floor a positive
      surplus. The shaded band then holds the equilibrium quantity and is no
      wider than the gap, and exactly as wide when both quantities are visible. */
  lemma BindingControlDistorts(kind: ControlKind, level: real, a: real, b: real, c: real, d: real)
    requires b > 0.0 && d > 0.0
    requires ControlAt(kind, true, level, a, b, c, d, ComputeEquilibrium(a, b, c, d)).Binding?
    ensures var eq := ComputeEquilibrium(a, b, c, d);
            var v := ControlAt(kind, true, level, a, b, c, d, eq);
            v.gap > 0.0 && v.leftQ <= eq.qe <= v.rightQ && v.rightQ - v.leftQ <= v.gap
            && (0.0 <= v.qd <= QMAX && 0.0 <= v.qs <= QMAX ==> v.rightQ - v.leftQ == v.gap)
  {
    var eq := ComputeEquilibrium(a, b, c, d);
    QuantitiesAroundCrossing(a, b, c, d, eq.qe, eq.pe, level);
  }
}
