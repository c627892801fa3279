# Per-unit tax on a competitive market

A model of the calculation behind the "government intervention" chart in
`economics/_goverment_intervention.py`. The market has linear demand
`Qd = 100 - P` and linear supply `Qs = P`. A slider picks a per-unit tax `t`
between 0 and 100, collected from sellers. Each time the slider moves,
`update_graph` does the following:

- solves for the untaxed equilibrium;
- solves for the taxed equilibrium, where buyers pay `Pe_tax` and sellers keep
  `Ps_tax = Pe_tax - t`;
- computes consumer surplus, producer surplus and deadweight loss as triangle
  areas, and the tax revenue `t * Qe_tax`;
- draws the demand line, the supply line and the taxed supply line;
- draws three filled triangles that shade the CS, PS and DWL regions.

The project has four modules:

- `Market` (`market.dfy`):
  - The curves and the price lines.
  - Both market-clearing equations. The symbolic solver is modelled by stating
    each equation as a predicate and proving that the closed-form price is its
    one root.
  - The welfare figures, written exactly as the code computes them from the
    equilibrium values.
  - `Compute`, everything one slider position produces, with its closed form.
- `Shoelace` (`shoelace.dfy`): vertex lists and their shoelace area. A filled
  trace joins its last vertex back to its first, so the polygon for `vs` is the
  closed walk `vs + [vs[0]]`.
- `Chart` (`chart.dfy`):
  - The three shaded vertex lists.
  - Proofs that every corner lies on the curve it is read from.
  - Proofs that each triangle's shoelace area is exactly the figure it is
    labelled with.
- `Incidence` (`incidence.dfy`): what the figures say about the tax.
  - Buyers and sellers each bear half of it.
  - The four figures always sum to the untaxed surplus of 2500.
  - Revenue peaks at a rate of 50.
  - The deadweight loss grows with the rate.
  - Three concrete slider positions.
  - What happens past the slider's range.

The tax rate is a `real`. Every property is stated for each rate in `[0, 100]`,
which includes the integer slider positions.

## Model

| member | source | states |
|---|---|---|
| Market.PriceLinesInvertCurves | economics/_goverment_intervention.py:66-68 | each plotted price line inverts its curve: the line's price at q is the only price at which the curve (demand, supply, or supply shifted by t) yields q |
| Market.UntaxedEquilibrium | economics/_goverment_intervention.py:53-54 | Qd - Qs = 0 holds exactly at P = 50, so the solver's first root is 50; the untaxed quantity is 50, demanded and supplied alike |
| Market.TaxedEquilibrium | economics/_goverment_intervention.py:56-57 | for every t, Qd - (P - t) = 0 has exactly one root, P = (100 + t) / 2 |
| Market.TaxedEquilibriumPoints | economics/_goverment_intervention.py:57-59 | the taxed point (Qe_tax, Pe_tax) lies on demand and on the taxed supply line; (Qe_tax, Ps_tax) lies on the untaxed supply line; Pe_tax - Ps_tax = t |
| Market.HalfProductNonNegative | economics/_goverment_intervention.py:61-63 | a half-product of two non-negative sides, the form of CS, PS and DWL, is non-negative |
| Market.RevenueNonNegative | economics/_goverment_intervention.py:121 | a non-negative rate times a non-negative quantity gives non-negative revenue |
| Market.WelfareClosedForms | economics/_goverment_intervention.py:61-63 | CS and PS are both (100 - t)^2 / 8, DWL is t^2 / 4 and revenue is t (100 - t) / 2 |
| Market.WelfareNonNegative | economics/_goverment_intervention.py:61-63 | for every rate in [0, 100], CS, PS, DWL and revenue are all non-negative |
| Market.Compute | economics/_goverment_intervention.py:52-63 | the initial price solves the untaxed equation and the buyer price solves the taxed one; buyer and seller prices differ by t; the traded quantity is demand at the buyer price and supply at the seller price; 0 <= Qe_tax <= Qe_initial; 0 <= Ps_tax <= Pe_initial <= Pe_tax <= 100; all four figures are non-negative |
| Market.ComputeClosedForm | economics/_goverment_intervention.py:53-63 | the whole evaluation is (50, 50, (100+t)/2, (100-t)/2, (100-t)/2, (100-t)^2/8, (100-t)^2/8, t^2/4, t(100-t)/2) |
| Shoelace.Closed | economics/_goverment_intervention.py:87 | the walk a filled trace outlines is the vertex list with its first vertex appended: one longer, same prefix, ends where it starts |
| Shoelace.ShoelaceTriangle | economics/_goverment_intervention.py:84-109 | for three vertices, the shoelace signed area over the closed walk equals half the determinant of the two edge vectors |
| Shoelace.TriangleReversed | economics/_goverment_intervention.py:84-109 | listing a triangle's vertices in reverse negates its signed area and leaves its area unchanged |
| Chart.RegionCornersOnCurves | economics/_goverment_intervention.py:84-104 | each corner of the shaded triangles is read off a curve: (0, 100) and (Qe_tax, Pe_tax) are on demand, (0, 0) and (Qe_tax, Ps_tax) are on supply, (Qe_tax, Pe_tax) is on taxed supply, and (Qe_initial, Pe_initial) is on both demand and supply |
| Chart.ConsumerSurplusRegionArea | economics/_goverment_intervention.py:84-91 | the CS triangle is wound counter-clockwise and its shoelace area equals CS |
| Chart.ProducerSurplusRegionArea | economics/_goverment_intervention.py:93-100 | the PS triangle is wound counter-clockwise and its shoelace area equals PS |
| Chart.DeadweightLossRegionArea | economics/_goverment_intervention.py:102-109 | the DWL triangle is wound clockwise (signed area -DWL) and its shoelace area equals DWL |
| Incidence.TaxIncidence | economics/_goverment_intervention.py:57-59 | the buyer price rises by t/2 above 50, the seller price falls by t/2 below 50, and the quantity falls by t/2 |
| Incidence.SurplusAccounting | economics/_goverment_intervention.py:61-63 | for every rate in [0, 100], CS + PS + Tx + DWL = 2500, which is CS + PS of the untaxed market |
| Incidence.AccountingIdentity | economics/_goverment_intervention.py:121 | the closed forms of CS, PS, Tx and DWL sum to 2500 for every t |
| Incidence.NoTax | economics/_goverment_intervention.py:53-63 | at the slider's initial value 0: Pd = Ps = 50, Q = 50, CS = PS = 1250, DWL = Tx = 0 |
| Incidence.TaxOfTwenty | economics/_goverment_intervention.py:53-63 | at t = 20: Pd = 60, Ps = 40, Q = 40, CS = PS = 800, DWL = 100, Tx = 800 |
| Incidence.TaxOfOneHundred | economics/_goverment_intervention.py:53-63 | at the slider's maximum 100: Pd = 100, Ps = Q = 0, CS = PS = Tx = 0, DWL = 2500 |
| Incidence.RevenuePeak | economics/_goverment_intervention.py:121 | over [0, 100] revenue is at most its value at t = 50, and reaches it only at t = 50 |
| Incidence.ParabolaPeak | economics/_goverment_intervention.py:121 | t (100 - t) / 2 <= 1250, with equality exactly when t = 50 |
| Incidence.RevenueRisesThenFalls | economics/_goverment_intervention.py:121 | for t1 < t2 in [0, 100], revenue strictly rises when t2 <= 50 and strictly falls when t1 >= 50 |
| Incidence.ParabolaSlope | economics/_goverment_intervention.py:121 | for t1 < t2, t (100 - t) / 2 strictly increases up to 50 and strictly decreases from 50 |
| Incidence.DeadweightLossGrows | economics/_goverment_intervention.py:63 | a higher rate never lowers the deadweight loss |
| Incidence.SquareMonotone | economics/_goverment_intervention.py:63 | on non-negative rates, t^2 / 4 (the closed form of DWL) is monotone |
| Incidence.BeyondSlider | economics/_goverment_intervention.py:31-35 | only the slider's range protects the computation: for t > 100 the seller price, the quantity and the revenue all come out negative |

## Left out

- The Dash application: layout, slider widget, callback wiring, page text and
  the plotly template (lines 4-12, 20-51, 71-82, 111-117). Only the values the
  callback computes are modelled. That includes the vertex lists of the filled
  traces, but not their colours, names or the dotted guide lines.
- `sympy.solve`: each call is specified by the equation it solves. The model
  proves that the closed form is the unique root, so the first element of the
  solver's result list is that root.
- `np.linspace(0, 100, 500)` sampling (line 15): the three price lines are
  modelled as functions of the quantity, and their inverse relation to the
  curves is proved for every quantity, not just the 500 samples.
- The `.2f` formatting of the statistics line (lines 120-121). The model
  computes the four values shown there, but not their text.
- Floating point. The code converts sympy results with `float` and multiplies
  Python floats. The model uses exact reals, so rounding is not modelled.
- Integer slider steps (line 35). The rate is any real in `[0, 100]`, which
  includes each step.
- Parallel coordinate lists. The filled traces take separate `x` and `y` lists
  (lines 85-86, 94-95, 103-104). The model pairs them into a list of points.
- Rates outside the slider's range. The code has no guard against them, so
  nothing here reports an error for them. `Incidence.BeyondSlider` shows what the
  formulas would give beyond 100.
- Winding order. The three shaded triangles are not wound the same way: CS and
  PS run counter-clockwise and DWL clockwise. The area of each is still its
  figure. The chart lemmas state both the orientation and the area.
