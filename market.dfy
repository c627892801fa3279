/**
 A competitive market with linear demand Qd = 100 - P and linear supply Qs = P,
 under a per-unit tax t collected from sellers: buyers pay P, sellers keep P - t.

 Every figure of the "government intervention" chart is a function of the tax
 rate. The source finds both equilibria with a symbolic solver; here each
 equilibrium price is specified as a root of the equation handed to that solver,
 and the closed form is proved to be its one and only root.
 */
module Market {

  // ---------------------------------------------------------------------------
  // The two curves, as quantities at a price

  /** Quantity demanded when buyers pay p. */
  function DemandQuantity(p: real): real { 100.0 - p }

  /** Quantity supplied when sellers receive p. */
  function SupplyQuantity(p: real): real { p }

  /** Quantity supplied when buyers pay p and sellers keep p - t. */
  function TaxedSupplyQuantity(p: real, t: real): real { p - t }

  // ---------------------------------------------------------------------------
  // The same curves as price lines over quantity (the plotted traces)

  /** Demand price line. */
  function DemandPrice(q: real): real { 100.0 - q }

  /** Untaxed supply price line. */
  function SupplyPrice(q: real): real { q }

  /** Supply price line once the tax is added: what buyers must pay for q units. */
  function TaxedSupplyPrice(q: real, t: real): real { q + t }

  /** Each price line is the inverse of its curve: the line's price at q is the
      one price at which the curve gives q. */
  lemma PriceLinesInvertCurves(q: real, p: real, t: real)
    ensures DemandQuantity(p) == q <==> p == DemandPrice(q)
    ensures SupplyQuantity(p) == q <==> p == SupplyPrice(q)
    ensures TaxedSupplyQuantity(p, t) == q <==> p == TaxedSupplyPrice(q, t)
  {
  }

  // ---------------------------------------------------------------------------
  // Equilibria

  /** The equation solved for the untaxed market: Qd - Qs = 0. */
  predicate ClearsUntaxed(p: real) {
    DemandQuantity(p) - SupplyQuantity(p) == 0.0
  }

  /** The equation solved for the taxed market: Qd - (P - t) = 0. */
  predicate ClearsTaxed(p: real, t: real) {
    DemandQuantity(p) - TaxedSupplyQuantity(p, t) == 0.0
  }

  /** Untaxed equilibrium price, in closed form. */
  function InitialPrice(): real { 50.0 }

  /** Untaxed equilibrium quantity: demand at the equilibrium price. */
  function InitialQuantity(): real { DemandQuantity(InitialPrice()) }

  /** The untaxed equation has exactly one root, the closed-form price, so the
      first entry of the solver's list of roots is that price; at it buyers
      demand and sellers supply the same 50 units. */
  lemma UntaxedEquilibrium(p: real)
    ensures ClearsUntaxed(p) <==> p == InitialPrice()
    ensures InitialQuantity() == SupplyQuantity(InitialPrice()) == 50.0
  {
  }

  /** Price paid by buyers under tax t, in closed form. */
  function TaxedPrice(t: real): real { (100.0 + t) / 2.0 }

  /** For every tax rate the taxed equation has exactly one root, the
      closed-form buyer price (100 + t) / 2. */
  lemma TaxedEquilibrium(p: real, t: real)
    ensures ClearsTaxed(p, t) <==> p == TaxedPrice(t)
  {
  }

  /** Quantity traded under tax t: what buyers demand at the buyer price. */
  function TaxedQuantity(t: real): real {
    DemandQuantity(TaxedPrice(t))
  }

  /** Price kept by sellers under tax t. */
  function SellerPrice(t: real): real {
    TaxedPrice(t) - t
  }

  /** The taxed equilibrium on the chart: the point (quantity, buyer price) lies
      on the demand line and on the taxed supply line, the point (quantity,
      seller price) lies on the untaxed supply line, and the two prices are
      exactly the tax apart. */
  lemma TaxedEquilibriumPoints(t: real)
    ensures TaxedPrice(t) == DemandPrice(TaxedQuantity(t))
    ensures TaxedPrice(t) == TaxedSupplyPrice(TaxedQuantity(t), t)
    ensures SellerPrice(t) == SupplyPrice(TaxedQuantity(t))
    ensures TaxedPrice(t) - SellerPrice(t) == t
  {
  }

  // ---------------------------------------------------------------------------
  // Welfare figures, from the equilibrium values as the chart computes them

  /** A right triangle's area: half its base times its height. */
  function HalfProduct(base: real, height: real): real {
    0.5 * base * height
  }

  /** A triangle with non-negative sides has non-negative area. */
  lemma HalfProductNonNegative(base: real, height: real)
    requires base >= 0.0 && height >= 0.0
    ensures HalfProduct(base, height) >= 0.0
  {
    assert base * height >= 0.0 * height;
  }

  /** Area between the demand intercept 100 and the buyer price pd, up to the traded quantity q. */
  function ConsumerSurplus(pd: real, q: real): real {
    HalfProduct(100.0 - pd, q)
  }

  /** Area between the seller price ps and the supply line, up to the traded quantity q. */
  function ProducerSurplus(ps: real, q: real): real {
    HalfProduct(ps, q)
  }

  /** Triangle between the price wedge pd - ps and the quantity q0 - q no longer traded. */
  function DeadweightLoss(pd: real, ps: real, q0: real, q: real): real {
    HalfProduct(pd - ps, q0 - q)
  }

  /** Tax collected: t on every one of the q units traded. */
  function Revenue(t: real, q: real): real {
    t * q
  }

  /** A non-negative tax on a non-negative quantity raises non-negative revenue. */
  lemma RevenueNonNegative(t: real, q: real)
    requires t >= 0.0 && q >= 0.0
    ensures Revenue(t, q) >= 0.0
  {
    assert t * q >= 0.0 * q;
  }

  /** Every welfare figure as a polynomial in the tax rate: both surpluses are
      (100 - t)^2 / 8, the deadweight loss t^2 / 4 and the revenue t (100 - t) / 2. */
  lemma WelfareClosedForms(t: real)
    ensures ConsumerSurplus(TaxedPrice(t), TaxedQuantity(t)) == (100.0 - t) * (100.0 - t) / 8.0
    ensures ProducerSurplus(SellerPrice(t), TaxedQuantity(t)) == (100.0 - t) * (100.0 - t) / 8.0
    ensures DeadweightLoss(TaxedPrice(t), SellerPrice(t), InitialQuantity(), TaxedQuantity(t)) == t * t / 4.0
    ensures Revenue(t, TaxedQuantity(t)) == t * (100.0 - t) / 2.0
  {
    var q := TaxedQuantity(t);
    assert q == (100.0 - t) / 2.0 == SellerPrice(t) == 100.0 - TaxedPrice(t);
    assert TaxedPrice(t) - SellerPrice(t) == t && InitialQuantity() - q == t / 2.0;
  }

  /** For every tax rate the slider allows, no welfare figure is negative. */
  lemma WelfareNonNegative(t: real)
    requires OnSlider(t)
    ensures ConsumerSurplus(TaxedPrice(t), TaxedQuantity(t)) >= 0.0
    ensures ProducerSurplus(SellerPrice(t), TaxedQuantity(t)) >= 0.0
    ensures DeadweightLoss(TaxedPrice(t), SellerPrice(t), InitialQuantity(), TaxedQuantity(t)) >= 0.0
    ensures Revenue(t, TaxedQuantity(t)) >= 0.0
  {
    var pd, ps, q := TaxedPrice(t), SellerPrice(t), TaxedQuantity(t);
    HalfProductNonNegative(100.0 - pd, q);
    HalfProductNonNegative(ps, q);
    HalfProductNonNegative(pd - ps, InitialQuantity() - q);
    RevenueNonNegative(t, q);
  }

  // ---------------------------------------------------------------------------
  // One evaluation for a slider position

  /** Everything the chart and the statistics line show for one tax rate. */
  datatype Outcome = Outcome(
    initialPrice: real,
    initialQuantity: real,
    buyerPrice: real,
    sellerPrice: real,
    quantity: real,
    consumerSurplus: real,
    producerSurplus: real,
    deadweightLoss: real,
    revenue: real)

  /** The slider offers the whole numbers 0 to 100; the figures are stated for
      every rate in that interval. */
  predicate OnSlider(t: real) {
    0.0 <= t <= 100.0
  }

  /** The figures recomputed each time the slider moves. Within the slider's range
      both prices, the quantity and every welfare figure are non-negative, the
      buyer and seller prices differ by exactly the tax, and the tax never raises
      the quantity traded. */
  function Compute(t: real): (m: Outcome)
    requires OnSlider(t)
    ensures ClearsUntaxed(m.initialPrice) && ClearsTaxed(m.buyerPrice, t)
    ensures m.buyerPrice - m.sellerPrice == t
    ensures m.quantity == DemandQuantity(m.buyerPrice) == SupplyQuantity(m.sellerPrice)
    ensures 0.0 <= m.quantity <= m.initialQuantity
    ensures 0.0 <= m.sellerPrice <= m.initialPrice <= m.buyerPrice <= 100.0
    ensures m.consumerSurplus >= 0.0 && m.producerSurplus >= 0.0
    ensures m.deadweightLoss >= 0.0 && m.revenue >= 0.0
  {
    var pd, ps, q := TaxedPrice(t), SellerPrice(t), TaxedQuantity(t);
    WelfareNonNegative(t);
    Outcome(
      InitialPrice(), InitialQuantity(), pd, ps, q,
      ConsumerSurplus(pd, q), ProducerSurplus(ps, q),
      DeadweightLoss(pd, ps, InitialQuantity(), q), Revenue(t, q))
  }

  /** The whole evaluation in closed form: the buyer price (100 + t) / 2, the
      seller price and the quantity (100 - t) / 2, both surpluses (100 - t)^2 / 8,
      the deadweight loss t^2 / 4 and the revenue t (100 - t) / 2. */
  lemma ComputeClosedForm(t: real)
    requires OnSlider(t)
    ensures Compute(t) == Outcome(
      50.0, 50.0, (100.0 + t) / 2.0, (100.0 - t) / 2.0, (100.0 - t) / 2.0,
      (100.0 - t) * (100.0 - t) / 8.0, (100.0 - t) * (100.0 - t) / 8.0,
      t * t / 4.0, t * (100.0 - t) / 2.0)
  {
    WelfareClosedForms(t);
  }
}
