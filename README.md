# Supply and demand chart: the market model

This project models the arithmetic behind an interactive supply-and-demand
teaching chart written in JavaScript with p5.js (`sketch.js`). Every frame the
sketch reads its sliders and checkboxes and computes:

- a linear demand curve `P = a - b·Q` and a linear supply curve `P = c + d·Q`,
  with the demand and supply shifts (and, while animating, an oscillating
  offset) added to the intercepts;
- the supply intercept after a per-unit tax on sellers (raises it) and a
  subsidy to sellers (lowers it), each counted only while its checkbox is ticked;
- the base and the policy equilibrium: the crossing of the two lines, reported
  only when the lines are not parallel and the crossing lies in the visible
  window `[0, 20] × [0, 20]`;
- for a price ceiling and a price floor: the quantities demanded and supplied at
  the control price, whether the control binds, the shortage or surplus, and the
  band of quantities shaded on the chart, clipped to `[0, 20]`;
- the tax/subsidy wedge: the price buyers pay (on demand) and the price sellers
  keep (on the base supply curve) at the policy equilibrium quantity, and the
  caption naming the wedge.

It also models the controls themselves as a class whose fields the reset button
and the scenario menu overwrite in place.

Numbers are Dafny `real`. The JavaScript doubles are treated as exact rationals,
so the identities below hold exactly here. In the browser they hold only up to
rounding.

Modules, one per part of the sketch:

- `Curves` (`curves.dfy`): the curves, their inverses, the equilibrium, and the
  policy intercept.
- `PriceControls` (`price_controls.dfy`): ceilings and floors.
- `PolicyWedge` (`wedge.dfy`): the wedge and its caption.
- `Widgets` (`widgets.dfy`): the control values, their defaults, the scenario
  presets, and the `Controls` class with `ResetDefaults` and `ApplyScenario`.
- `Frame` (`frame.dfy`): what `draw` computes from the controls, as the function
  `FrameOf` and the step-by-step method `Draw`, plus the outcomes of the presets.

The slider ranges (demand and supply slopes at least 0.5, tax and subsidy at
least 0) are what the widgets guarantee. They appear as preconditions where a
proof needs them: the inversions divide by the slopes, and the binding results
need positive slopes.

One consequence of the presets is proved rather than assumed. The menu entry
"Binding price floor" (`sketch.js:77`) sets the floor to 10
(`sketch.js:703-705`). The default equilibrium price is 12, so that floor does
**not** bind (`Frame.FloorScenarioNotBinding`). The model keeps the preset as
written and records the mismatch under "Findings".

## Model

| member | source | states |
|---|---|---|
| `Curves.DemandPrice` | sketch.js:291-293 | Demand price at a quantity, `a - b·Q`. It is the reference that `QuantityDemanded`, `Crossing` and `ComputeEquilibrium` are stated against. |
| `Curves.SupplyPrice` | sketch.js:295-297 | Supply price at a quantity, `c + d·Q`. It is the reference for `QuantitySupplied` and the equilibrium. |
| `Curves.InWindow` | sketch.js:304 | The visible window `[0, QMAX] × [0, PMAX]` that a reported equilibrium must lie in. |
| `Curves.Effective` | sketch.js:142-143 | A tax or subsidy counts only while its checkbox is ticked, and counts as 0 otherwise. `NoPolicyKeepsEquilibrium` states its consequence. |
| `Curves.PolicyIntercept` | sketch.js:146 | The policy supply intercept, `cBase + tax - subsidy`. `PolicyShiftsSupply` states its meaning. |
| `Curves.QuantityDemanded` | sketch.js:393 | The inverted demand quantity at a price is the one and only quantity at which demand asks that price. |
| `Curves.QuantitySupplied` | sketch.js:394 | The inverted supply quantity at a price is the one and only quantity at which supply asks that price. |
| `Curves.Crossing` | sketch.js:300-302 | `(a - c)/(b + d)` is a quantity where demand price equals supply price. |
| `Curves.CrossingIsUnique` | sketch.js:299-303 | Non-parallel lines meet only at `Crossing`. |
| `Curves.ComputeEquilibrium` | sketch.js:299-306 | Parallel lines (`b + d == 0`) give no equilibrium. A returned point lies on both curves and inside the window. |
| `Curves.EquilibriumIsTheVisibleCrossing` | sketch.js:302-305 | For any point where non-parallel lines meet, the result is that point if it is in the window, and absent otherwise. |
| `Curves.PolicyShiftsSupply` | sketch.js:146 | At every quantity, the policy supply price is the base supply price plus tax minus subsidy. |
| `Curves.NoPolicyKeepsEquilibrium` | sketch.js:142-155 | With tax and subsidy unticked, the policy equilibrium equals the base equilibrium. |
| `Curves.NetTaxMovesCrossing` | sketch.js:146-155 | A net tax `t` moves the crossing left by `t/(b+d)` and raises the buyers' price by `b·t/(b+d)`. |
| `PriceControls.Binds` | sketch.js:414 | A ceiling binds below the equilibrium price and a floor binds above it (also sketch.js:479). |
| `PriceControls.Gap` | sketch.js:415 | The shortage is Qd − Qs under a ceiling, and the surplus is Qs − Qd under a floor (also sketch.js:480). |
| `PriceControls.Band` | sketch.js:425-426 | The shaded band starts at or after 0 and ends at or before `QMAX`. |
| `PriceControls.BandIsClippedSpan` | sketch.js:489-490 | A quantity is in the band exactly when it lies between Qd and Qs and inside `[0, QMAX]`. |
| `PriceControls.ControlAt` | sketch.js:377-509 | A control is hidden exactly when its checkbox is off or there is no equilibrium. It binds exactly when a ceiling is below, or a floor above, the equilibrium price. Qd lies on demand and Qs on supply at the control price. The gap is the shortage or surplus, and the band is `Band(Qd, Qs)`, the clipped span. |
| `PriceControls.QuantitiesAroundCrossing` | sketch.js:459-460 | Below the crossing price, supply is less than and demand more than the crossing quantity. Above it, the reverse. |
| `PriceControls.BindingControlDistorts` | sketch.js:414-426 | A binding ceiling gives a positive shortage and a binding floor a positive surplus. The band contains the equilibrium quantity. It is no wider than the gap, and exactly as wide when Qd and Qs are both visible. |
| `PolicyWedge.Label` | sketch.js:545-550 | The caption choice: a tax caption for a tax alone, a subsidy caption for a subsidy alone, and the net amount otherwise. `LabelMatchesWedge` states what it shows. |
| `PolicyWedge.LabelMatchesWedge` | sketch.js:545-550 | For a non-negative tax and subsidy, the caption's amount, signed, equals tax − subsidy. Tax and subsidy captions show non-negative amounts. |
| `PolicyWedge.WedgeAt` | sketch.js:514-523 | The wedge is drawn exactly when an equilibrium exists and the tax or the subsidy is positive. Pd is on demand and Pp on the base supply curve, both at the equilibrium quantity. |
| `PolicyWedge.WedgeIdentity` | sketch.js:518-523 | At the policy equilibrium, Pd is the equilibrium price and Pd − Pp = tax − subsidy. |
| `Widgets.SliderRanges` | sketch.js:43-63 | Each slider's range: a in [10, 30], slopes in [0.5, 3], shifts in [−5, 5], c in [0, 15], controls in [0, 20], tax and subsidy in [0, 10]. |
| `Widgets.Defaults` | sketch.js:666-685 | The defaults are within every slider's range, with every checkbox off. |
| `Widgets.Preset` | sketch.js:690-713 | Every scenario leaves every slider within its range. |
| `Widgets.PresetChangesOnlyItsControls` | sketch.js:694-712 | Each preset differs from the defaults in exactly the control (or checkbox and slider pair) it names. "baseline", "custom" and any other name change nothing. |
| `Widgets.Controls.constructor` | sketch.js:43-66 | Widget creation leaves the controls at the defaults. |
| `Widgets.Controls.ResetDefaults` | sketch.js:666-688 | After a reset, every control holds its default. |
| `Widgets.Controls.ApplyScenario` | sketch.js:690-713 | The new state is the scenario's preset, whatever the old state was. |
| `Frame.DemandInterceptOf` | sketch.js:129-139 | The demand intercept is the slider value plus the demand shift, plus the animation offset while animating. |
| `Frame.SupplyInterceptOf` | sketch.js:130-140 | The base supply intercept is the slider value plus the supply shift, plus the animation offset while animating. |
| `Frame.FrameOf` | sketch.js:124-162 | The base equilibrium is the crossing of the shifted curves, and the policy equilibrium that of the policy-shifted supply. The controls and the wedge are read against the policy equilibrium. The policy equilibrium lies on demand and on base supply plus tax minus subsidy. Binding controls have positive gaps with bands around the equilibrium quantity. Pd − Pp = tax − subsidy, and the caption tells it. With no policy ticked, the two equilibria coincide and no wedge is drawn. |
| `Frame.Draw` | sketch.js:125-162 | Updating the locals step by step yields `FrameOf` of the current controls. |
| `Frame.DefaultFrame` | sketch.js:667-673 | Under the defaults, both equilibria are (8, 12) and no control or wedge is shown. |
| `Frame.CeilingScenarioShortage` | sketch.js:700-702 | The ceiling preset (6) binds: Qd = 14, Qs = 2, shortage 12, band [2, 14]. |
| `Frame.FloorScenarioNotBinding` | sketch.js:703-705 | The floor preset (10) is below the price 12 and does not bind: Qd = 10, Qs = 6. |
| `Frame.FloorAboveEquilibriumBinds` | sketch.js:479-480 | On the default market, a floor binds exactly when it is above 12, and then leaves a surplus of 2·(level − 12) > 0. |
| `Frame.TaxScenarioWedge` | sketch.js:706-708 | The tax preset (3) moves the equilibrium from (8, 12) to (6.5, 13.5), with Pd = 13.5, Pp = 10.5 and a tax caption of 3. |
| `Frame.SubsidyScenarioWedge` | sketch.js:709-711 | The subsidy preset (3) moves the equilibrium to (9.5, 10.5), with Pd = 10.5, Pp = 13.5 and a subsidy caption of 3. |
| `Frame.ShiftScenarios` | sketch.js:696-699 | The demand boom gives equilibrium (10, 14) and the supply shock gives (6, 14). |

## Findings

| source | as written | input that shows it | evidently intended | confidence | as-written member | corrected member |
|---|---|---|---|---|---|---|
| sketch.js:703-705 | The "Binding price floor" menu entry (sketch.js:77) sets the floor to 10 on the default market. | The scenario "floor": the floor is 10, the equilibrium price is 12, so the floor is not binding (Qd = 10, Qs = 6). | A floor above the equilibrium price 12, so that it binds and leaves a surplus. | not executed; high that the label and the value disagree, the intended level is a guess | `Frame.FloorScenarioNotBinding` | `Frame.FloorAboveEquilibriumBinds` |

`Preset` keeps the value 10, as written. The corrected half proves what any level in (12, 20] gives instead. `PriceControls.BindingControlDistorts` gives the general result for every binding control.

## Left out

- Rendering with p5.js is not modelled: axes, legend, slider labels, the 0.1-step curve sampling, shapes, text, the wedge's 0.3-wide band and the 0.4-high control bands, and the screen mapping. These are drawing calls into a library outside this model.
- Whether Qd and Qs get a dot on the chart (the `[0, Qmax]` tests at sketch.js:397-412 and 462-477) is not modelled. It only decides what is drawn and changes no computed quantity.
- The tooltips (hit-testing by mouse distance, text widths), the theme toggle, `toFixed` number formatting and widget placement are not modelled. They are user interface only.
- The animation offsets `1.5·sin(t)` and `1.5·cos(t)` from the frame counter are not modelled. They are transcendental floating-point functions, so they appear as arbitrary real inputs (`dWobble`, `sWobble`) that apply only while animation is on.
- IEEE-754 rounding is not modelled: all arithmetic is exact over the reals.
- Slider steps (0.1, 0.5, 1) and p5's clamping of out-of-range values are not modelled. Every value the model writes is already in range, and only the ranges are used.
- The scenario menu's own selected value is not modelled: `ApplyScenario` takes the chosen name as a parameter.
