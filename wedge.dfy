/** The tax/subsidy wedge: the price buyers pay (on the demand curve) and the
    price sellers keep (on the pre-policy supply curve) at the policy equilibrium
    quantity, and the caption that names the wedge. */
module PolicyWedge {
  import opened Curves

  /** The caption's kind and the amount it shows. */
  datatype WedgeLabel = TaxWedge(amount: real) | SubsidyWedge(amount: real) | NetWedge(amount: real)

  /** pd: consumer price, pp: producer price. */
  datatype WedgeView = NoWedge | Wedge(pd: real, pp: real, caption: WedgeLabel)

  /** A tax alone is labelled by the tax, a subsidy alone by the subsidy, and
      both together by their difference. */
  function Label(tax: real, subsidy: real): WedgeLabel
  {
    if tax > 0.0 && subsidy <= 0.0 then TaxWedge(tax)
    else if subsidy > 0.0 && tax <= 0.0 then SubsidyWedge(subsidy)
    else NetWedge(tax - subsidy)
  }

  /** The amount a caption shows, signed as consumer price minus producer price:
      a subsidy wedge puts the producer above the consumer. */
  function SignedAmount(caption: WedgeLabel): real
  {
    match caption
    case TaxWedge(x) => x
    case SubsidyWedge(x) => -x
    case NetWedge(x) => x
  }

  /** The caption always tells the true wedge when tax and subsidy are not negative
      (the sliders start at 0 and an unticked policy counts as 0). */
  lemma LabelMatchesWedge(tax: real, subsidy: real)
    requires tax >= 0.0 && subsidy >= 0.0
    ensures SignedAmount(Label(tax, subsidy)) == tax - subsidy
    ensures Label(tax, subsidy).amount >= 0.0 || Label(tax, subsidy).NetWedge?
  {
  }

  /** The wedge at the policy equilibrium `eq`; cBase is the supply intercept
      before tax and subsidy. Drawn only for a visible equilibrium and a
      positive tax or subsidy. */
  function WedgeAt(a: real, b: real, cBase: real, d: real, eq: Equilibrium,
                   tax: real, subsidy: real): (w: WedgeView)
    ensures w.Wedge? <==> eq.At? && (tax > 0.0 || subsidy > 0.0)
    ensures w.Wedge? ==> w.pd == DemandPrice(eq.qe, a, b) && w.pp == SupplyPrice(eq.qe, cBase, d)
    ensures w.Wedge? ==> w.caption == Label(tax, subsidy)
  {
    if eq.Absent? then NoWedge
    else if tax <= 0.0 && subsidy <= 0.0 then NoWedge
    else
      var qe := eq.qe;
      Wedge(DemandPrice(qe, a, b), SupplyPrice(qe, cBase, d), Label(tax, subsidy))
  }

  /** Wedge identity: at the policy equilibrium the consumer price is the
      equilibrium price and exceeds the producer price by exactly tax - subsidy. */
  lemma WedgeIdentity(a: real, b: real, cBase: real, d: real, tax: real, subsidy: real)
    requires WedgeAt(a, b, cBase, d, ComputeEquilibrium(a, b, PolicyIntercept(cBase, tax, subsidy), d), tax, subsidy).Wedge?
    ensures var eq := ComputeEquilibrium(a, b, PolicyIntercept(cBase, tax, subsidy), d);
            var w := WedgeAt(a, b, cBase, d, eq, tax, subsidy);
            w.pd == eq.pe && w.pd - w.pp == tax - subsidy
  {
  }
}
