/** One animation frame of the chart: the arithmetic of `draw`, which reads the
    controls, applies the animation offsets and the policy, and derives the base
    and policy equilibria, the two price controls and the wedge. */
module Frame {
  import opened Curves
  import opened PriceControls
  import opened PolicyWedge
  import opened Widgets

  /** Everything a frame computes for the renderer. */
  datatype FrameView = FrameView(
    eqBase: Equilibrium,
    eqPolicy: Equilibrium,
    ceiling: ControlView,
    floor: ControlView,
    wedge: WedgeView)

  /** Demand intercept with its shift and, while animating, the demand offset. */
  function DemandInterceptOf(s: Settings, dWobble: real): real
  {
    s.a + s.demandShift + (if s.animate then dWobble else 0.0)
  }

  /** Supply intercept before policy, with its shift and, while animating, the
      supply offset. */
  function SupplyInterceptOf(s: Settings, sWobble: real): real
  {
    s.c + s.supplyShift + (if s.animate then sWobble else 0.0)
  }

  function TaxOf(s: Settings): real { Effective(s.taxOn, s.tax) }
  function SubsidyOf(s: Settings): real { Effective(s.subsidyOn, s.subsidy) }

  /** The frame for controls s. dWobble and sWobble stand for the animation's
      oscillating offsets and matter only while animation is on. */
  function FrameOf(s: Settings, dWobble: real, sWobble: real): (f: FrameView)
    requires SliderRanges(s)
    ensures var aBase, cBase := DemandInterceptOf(s, dWobble), SupplyInterceptOf(s, sWobble);
            var cPolicy := PolicyIntercept(cBase, TaxOf(s), SubsidyOf(s));
            && f.eqBase == ComputeEquilibrium(aBase, s.b, cBase, s.d)
            && f.eqPolicy == ComputeEquilibrium(aBase, s.b, cPolicy, s.d)
            && f.ceiling == ControlAt(Ceiling, s.ceilingOn, s.ceiling, aBase, s.b, cPolicy, s.d, f.eqPolicy)
            && f.floor == ControlAt(Floor, s.floorOn, s.floor, aBase, s.b, cPolicy, s.d, f.eqPolicy)
            && f.wedge == WedgeAt(aBase, s.b, cBase, s.d, f.eqPolicy, TaxOf(s), SubsidyOf(s))
    ensures var aBase, cBase := DemandInterceptOf(s, dWobble), SupplyInterceptOf(s, sWobble);
            f.eqPolicy.At? ==>
              f.eqPolicy.pe == DemandPrice(f.eqPolicy.qe, aBase, s.b)
              && f.eqPolicy.pe == SupplyPrice(f.eqPolicy.qe, cBase, s.d) + TaxOf(s) - SubsidyOf(s)
    ensures f.ceiling.Hidden? <==> !s.ceilingOn || f.eqPolicy.Absent?
    ensures f.floor.Hidden? <==> !s.floorOn || f.eqPolicy.Absent?
    ensures f.ceiling.Binding? ==> f.ceiling.gap > 0.0 && f.ceiling.leftQ <= f.eqPolicy.qe <= f.ceiling.rightQ
    ensures f.floor.Binding? ==> f.floor.gap > 0.0 && f.floor.leftQ <= f.eqPolicy.qe <= f.floor.rightQ
    ensures f.wedge.Wedge? <==> f.eqPolicy.At? && (TaxOf(s) > 0.0 || SubsidyOf(s) > 0.0)
    ensures f.wedge.Wedge? ==>
              f.wedge.pd == f.eqPolicy.pe
              && f.wedge.pd - f.wedge.pp == TaxOf(s) - SubsidyOf(s)
              && SignedAmount(f.wedge.caption) == f.wedge.pd - f.wedge.pp
    ensures !s.taxOn && !s.subsidyOn ==> f.eqPolicy == f.eqBase && f.wedge == NoWedge
  {
    var aBase := DemandInterceptOf(s, dWobble);
    var cBase := SupplyInterceptOf(s, sWobble);
    var tax, subsidy := TaxOf(s), SubsidyOf(s);
    var cPolicy := PolicyIntercept(cBase, tax, subsidy);
    var eqBase := ComputeEquilibrium(aBase, s.b, cBase, s.d);
    var eqPolicy := ComputeEquilibrium(aBase, s.b, cPolicy, s.d);
    var ceiling := ControlAt(Ceiling, s.ceilingOn, s.ceiling, aBase, s.b, cPolicy, s.d, eqPolicy);
    var floor := ControlAt(Floor, s.floorOn, s.floor, aBase, s.b, cPolicy, s.d, eqPolicy);
    var wedge := WedgeAt(aBase, s.b, cBase, s.d, eqPolicy, tax, subsidy);
    assert eqPolicy.At? ==>
             (ceiling.Binding? ==> ceiling.gap > 0.0 && ceiling.leftQ <= eqPolicy.qe <= ceiling.rightQ)
             && (floor.Binding? ==> floor.gap > 0.0 && floor.leftQ <= eqPolicy.qe <= floor.rightQ)
             && (wedge.Wedge? ==> wedge.pd == eqPolicy.pe && wedge.pd - wedge.pp == tax - subsidy
                                  && SignedAmount(wedge.caption) == tax - subsidy)
             && eqPolicy.pe == SupplyPrice(eqPolicy.qe, cBase, s.d) + tax - subsidy
    by {
      if eqPolicy.At? {
        PolicyShiftsSupply(eqPolicy.qe, cBase, s.d, tax, subsidy);
        if ceiling.Binding? {
          BindingControlDistorts(Ceiling, s.ceiling, aBase, s.b, cPolicy, s.d);
        }
        if floor.Binding? {
          BindingControlDistorts(Floor, s.floor, aBase, s.b, cPolicy, s.d);
        }
        if wedge.Wedge? {
          WedgeIdentity(aBase, s.b, cBase, s.d, tax, subsidy);
          LabelMatchesWedge(tax, subsidy);
        }
      }
    }
    FrameView(eqBase, eqPolicy, ceiling, floor, wedge)
  }

  /** `draw`: read the controls, then update the intercepts step by step. */
  method Draw(w: Controls, dWobble: real, sWobble: real) returns (f: FrameView)
    requires w.Valid()
    ensures f == FrameOf(w.Snapshot(), dWobble, sWobble)
  {
    var a, b, c, d := w.a, w.b, w.c, w.d;
    var dShift, sShift := w.demandShift, w.supplyShift;

    if w.animate {
      dShift := dShift + dWobble;
      sShift := sShift + sWobble;
    }

    var aBase := a + dShift;
    var cBase := c + sShift;

    var tax := if w.taxOn then w.tax else 0.0;
    var subsidy := if w.subsidyOn then w.subsidy else 0.0;

    var cPolicy := cBase + tax - subsidy;

    var eqBase := ComputeEquilibrium(aBase, b, cBase, d);
    var eqPolicy := ComputeEquilibrium(aBase, b, cPolicy, d);

    var ceiling := ControlAt(Ceiling, w.ceilingOn, w.ceiling, aBase, b, cPolicy, d, eqPolicy);
    var floor := ControlAt(Floor, w.floorOn, w.floor, aBase, b, cPolicy, d, eqPolicy);
    var wedge := WedgeAt(aBase, b, cBase, d, eqPolicy, tax, subsidy);

    f := FrameView(eqBase, eqPolicy, ceiling, floor, wedge);
  }

  /** Under the defaults (demand P = 20 - Q, supply P = 4 + Q, no policy) both
      equilibria are (8, 12) and nothing else is drawn. */
  lemma DefaultFrame(dWobble: real, sWobble: real)
    ensures FrameOf(Defaults(), dWobble, sWobble)
         == FrameView(At(8.0, 12.0), At(8.0, 12.0), Hidden, Hidden, NoWedge)
  {
  }

  /** The "ceiling" preset (price 6) binds: 14 demanded, 2 supplied, a shortage
      of 12 shaded over [2, 14]. */
  lemma CeilingScenarioShortage(dWobble: real, sWobble: real)
    ensures FrameOf(Preset("ceiling"), dWobble, sWobble).ceiling == Binding(14.0, 2.0, 12.0, 2.0, 14.0)
  {
  }

  /** The "floor" preset (price 10) lies below the equilibrium price 12, so the
      floor does not bind although the menu calls it a binding floor. */
  lemma FloorScenarioNotBinding(dWobble: real, sWobble: real)
    ensures FrameOf(Preset("floor"), dWobble, sWobble).floor == NotBinding(10.0, 6.0)
  {
  }

  /** A floor on the default market binds exactly when it is set above the
      equilibrium price 12, and then leaves a surplus of 2*(level - 12): the
      behaviour the "Binding price floor" entry names, reached by any floor
      level in (12, 20]. */
  lemma FloorAboveEquilibriumBinds(level: real, dWobble: real, sWobble: real)
    requires 0.0 <= level <= PMAX
    ensures var f := FrameOf(Defaults().(floorOn := true, floor := level), dWobble, sWobble);
            (f.floor.Binding? <==> level > 12.0)
            && (f.floor.Binding? ==> f.floor.gap == 2.0 * (level - 12.0) && f.floor.gap > 0.0)
  {
  }

  /** The "tax" preset (3 per unit) moves the equilibrium from (8, 12) to
      (6.5, 13.5): buyers pay 13.5, sellers keep 10.5. */
  lemma TaxScenarioWedge(dWobble: real, sWobble: real)
    ensures var f := FrameOf(Preset("tax"), dWobble, sWobble);
            f.eqBase == At(8.0, 12.0) && f.eqPolicy == At(6.5, 13.5)
            && f.wedge == Wedge(13.5, 10.5, TaxWedge(3.0))
  {
  }

  /** The "subsidy" preset (3 per unit) moves the equilibrium to (9.5, 10.5):
      buyers pay 10.5, sellers receive 13.5. */
  lemma SubsidyScenarioWedge(dWobble: real, sWobble: real)
    ensures var f := FrameOf(Preset("subsidy"), dWobble, sWobble);
            f.eqBase == At(8.0, 12.0) && f.eqPolicy == At(9.5, 10.5)
            && f.wedge == Wedge(10.5, 13.5, SubsidyWedge(3.0))
  {
  }

  /** The demand boom (shift +4) and the supply shock (shift +4) both raise the
      price to 14, the first with more traded (10), the second with less (6). */
  lemma ShiftScenarios(dWobble: real, sWobble: real)
    ensures FrameOf(Preset("demand_boom"), dWobble, sWobble).eqBase == At(10.0, 14.0)
    ensures FrameOf(Preset("supply_shock"), dWobble, sWobble).eqBase == At(6.0, 14.0)
  {
  }
}
