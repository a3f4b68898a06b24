/** The sketch's controls: slider values and checkboxes, their defaults, the
    reset button and the scenario presets that reset every control and then
    override one. */
module Widgets {
  import opened Curves

  /** A snapshot of every control the market model reads. */
  datatype Settings = Settings(
    a: real, b: real, demandShift: real,
    c: real, d: real, supplyShift: real,
    ceilingOn: bool, ceiling: real,
    floorOn: bool, floor: real,
    taxOn: bool, tax: real,
    subsidyOn: bool, subsidy: real,
    animate: bool)

  /** The range of each slider. */
  predicate SliderRanges(s: Settings)
  {
    10.0 <= s.a <= 30.0 && 0.5 <= s.b <= 3.0 && -5.0 <= s.demandShift <= 5.0
    && 0.0 <= s.c <= 15.0 && 0.5 <= s.d <= 3.0 && -5.0 <= s.supplyShift <= 5.0
    && 0.0 <= s.ceiling <= PMAX && 0.0 <= s.floor <= PMAX
    && 0.0 <= s.tax <= 10.0 && 0.0 <= s.subsidy <= 10.0
  }

  /** Values restored by the reset button. */
  function Defaults(): (s: Settings)
    ensures SliderRanges(s)
    ensures !s.ceilingOn && !s.floorOn && !s.taxOn && !s.subsidyOn && !s.animate
  {
    Settings(20.0, 1.0, 0.0, 4.0, 1.0, 0.0, false, 8.0, false, 5.0, false, 2.0, false, 2.0, false)
  }

  /** The controls after choosing a scenario: the defaults, with the one
      control (or checkbox and slider pair) the scenario names overridden. A name
      the menu does not list, like "custom", keeps the defaults. */
  function Preset(name: string): (s: Settings)
    ensures SliderRanges(s)
  {
    var base := Defaults();
    if name == "baseline" then base
    else if name == "demand_boom" then base.(demandShift := 4.0)
    else if name == "supply_shock" then base.(supplyShift := 4.0)
    else if name == "ceiling" then base.(ceilingOn := true, ceiling := 6.0)
    else if name == "floor" then base.(floorOn := true, floor := 10.0)
    else if name == "tax" then base.(taxOn := true, tax := 3.0)
    else if name == "subsidy" then base.(subsidyOn := true, subsidy := 3.0)
    else base
  }

  /** Names of the individual controls. */
  datatype Control =
    | DemandIntercept | DemandSlope | DemandShift
    | SupplyIntercept | SupplySlope | SupplyShift
    | CeilingEnabled | CeilingPrice | FloorEnabled | FloorPrice
    | TaxEnabled | TaxAmount | SubsidyEnabled | SubsidyAmount
    | AnimateEnabled

  const ALL_CONTROLS: seq<Control> := [
    DemandIntercept, DemandSlope, DemandShift,
    SupplyIntercept, SupplySlope, SupplyShift,
    CeilingEnabled, CeilingPrice, FloorEnabled, FloorPrice,
    TaxEnabled, TaxAmount, SubsidyEnabled, SubsidyAmount,
    AnimateEnabled]

  /** Whether control k shows different values in x and y. */
  predicate Differs(x: Settings, y: Settings, k: Control)
  {
    match k
    case DemandIntercept => x.a != y.a
    case DemandSlope => x.b != y.b
    case DemandShift => x.demandShift != y.demandShift
    case SupplyIntercept => x.c != y.c
    case SupplySlope => x.d != y.d
    case SupplyShift => x.supplyShift != y.supplyShift
    case CeilingEnabled => x.ceilingOn != y.ceilingOn
    case CeilingPrice => x.ceiling != y.ceiling
    case FloorEnabled => x.floorOn != y.floorOn
    case FloorPrice => x.floor != y.floor
    case TaxEnabled => x.taxOn != y.taxOn
    case TaxAmount => x.tax != y.tax
    case SubsidyEnabled => x.subsidyOn != y.subsidyOn
    case SubsidyAmount => x.subsidy != y.subsidy
    case AnimateEnabled => x.animate != y.animate
  }

  /** The controls whose values differ between two snapshots. */
  function ChangedControls(x: Settings, y: Settings): set<Control>
  {
    set k | k in ALL_CONTROLS && Differs(x, y, k)
  }

  /** The controls a scenario is meant to override. */
  function ScenarioControls(name: string): set<Control>
  {
    if name == "demand_boom" then {DemandShift}
    else if name == "supply_shock" then {SupplyShift}
    else if name == "ceiling" then {CeilingEnabled, CeilingPrice}
    else if name == "floor" then {FloorEnabled, FloorPrice}
    else if name == "tax" then {TaxEnabled, TaxAmount}
    else if name == "subsidy" then {SubsidyEnabled, SubsidyAmount}
    else {}
  }

  /** Every control is listed in ALL_CONTROLS. */
  lemma AllControlsListed(k: Control)
    ensures k in ALL_CONTROLS
  {
    var i := match k
      case DemandIntercept => 0 case DemandSlope => 1 case DemandShift => 2
      case SupplyIntercept => 3 case SupplySlope => 4 case SupplyShift => 5
      case CeilingEnabled => 6 case CeilingPrice => 7 case FloorEnabled => 8
      case FloorPrice => 9 case TaxEnabled => 10 case TaxAmount => 11
      case SubsidyEnabled => 12 case SubsidyAmount => 13 case AnimateEnabled => 14;
    assert ALL_CONTROLS[i] == k;
  }

  /** ChangedControls is exactly the set of controls that differ. */
  lemma ChangedControlsAre(x: Settings, y: Settings, expected: set<Control>)
    requires forall k :: Differs(x, y, k) <==> k in expected
    ensures ChangedControls(x, y) == expected
  {
    forall k ensures k in ChangedControls(x, y) <==> k in expected {
      AllControlsListed(k);
    }
  }

  /** Every preset differs from the defaults in exactly the controls it names and
      in nothing else; "baseline" and unlisted names change nothing. */
  lemma PresetChangesOnlyItsControls(name: string)
    ensures ChangedControls(Defaults(), Preset(name)) == ScenarioControls(name)
  {
    var x, y, expected := Defaults(), Preset(name), ScenarioControls(name);
    forall k ensures Differs(x, y, k) <==> k in expected {
      if name == "baseline" {
      } else if name == "demand_boom" {
      } else if name == "supply_shock" {
      } else if name == "ceiling" {
      } else if name == "floor" {
      } else if name == "tax" {
      } else if name == "subsidy" {
      }
    }
    ChangedControlsAre(x, y, expected);
  }

  /** The widgets themselves, each holding its current value. */
  class Controls {
    var a: real
    var b: real
    var demandShift: real
    var c: real
    var d: real
    var supplyShift: real
    var ceilingOn: bool
    var ceiling: real
    var floorOn: bool
    var floor: real
    var taxOn: bool
    var tax: real
    var subsidyOn: bool
    var subsidy: real
    var animate: bool

    /** The current values of all controls. */
    function Snapshot(): Settings
      reads this
    {
      Settings(a, b, demandShift, c, d, supplyShift, ceilingOn, ceiling,
               floorOn, floor, taxOn, tax, subsidyOn, subsidy, animate)
    }

    /** Every slider holds a value in its range. */
    predicate Valid()
      reads this
    {
      SliderRanges(Snapshot())
    }

    /** Widget creation in `setup`, which ends by restoring the defaults. */
    constructor ()
      ensures Valid()
      ensures Snapshot() == Defaults()
    {
      a, b, demandShift := 20.0, 1.0, 0.0;
      c, d, supplyShift := 4.0, 1.0, 0.0;
      ceilingOn, ceiling := false, 8.0;
      floorOn, floor := false, 5.0;
      taxOn, tax := false, 2.0;
      subsidyOn, subsidy := false, 2.0;
      animate := false;
    }

    /** The reset button: every control back to its default. */
    method ResetDefaults()
      modifies this
      ensures Valid()
      ensures Snapshot() == Defaults()
    {
      a := 20.0;
      b := 1.0;
      demandShift := 0.0;

      c := 4.0;
      d := 1.0;
      supplyShift := 0.0;

      ceilingOn := false;
      floorOn := false;
      taxOn := false;
      subsidyOn := false;

      ceiling := 8.0;
      floor := 5.0;
      tax := 2.0;
      subsidy := 2.0;

      animate := false;
    }

    /** Choosing a scenario from the menu: reset everything, then override the
      scenario's own control. The result does not depend on the earlier state. */
    method ApplyScenario(name: string)
      modifies this
      ensures Valid()
      ensures Snapshot() == Preset(name)
    {
      ResetDefaults();

      if name == "baseline" {
        // the defaults already hold
      } else if name == "demand_boom" {
        demandShift := 4.0;
      } else if name == "supply_shock" {
        supplyShift := 4.0;
      } else if name == "ceiling" {
        ceilingOn := true;
        ceiling := 6.0;
      } else if name == "floor" {
        floorOn := true;
        floor := 10.0;
      } else if name == "tax" {
        taxOn := true;
        tax := 3.0;
      } else if name == "subsidy" {
        subsidyOn := true;
        subsidy := 3.0;
      }
    }
  }
}
