/**
 The three shaded triangles of the chart (consumer surplus, producer surplus,
 deadweight loss) as the vertex lists handed to the filled traces, and the proof
 that each one shades exactly the figure it is labelled with.
 */
module Chart {
  import opened Market
  import opened Shoelace

  /** Consumer surplus: below the demand line, above the buyer price. */
  function ConsumerSurplusRegion(m: Outcome): seq<Point> {
    [Point(0.0, m.buyerPrice), Point(m.quantity, m.buyerPrice), Point(0.0, 100.0)]
  }

  /** Producer surplus: above the supply line, below the seller price. */
  function ProducerSurplusRegion(m: Outcome): seq<Point> {
    [Point(0.0, 0.0), Point(m.quantity, m.sellerPrice), Point(0.0, m.sellerPrice)]
  }

  /** Deadweight loss: between the tax wedge and the untaxed equilibrium. */
  function DeadweightLossRegion(m: Outcome): seq<Point> {
    [Point(m.quantity, m.buyerPrice), Point(m.initialQuantity, m.initialPrice), Point(m.quantity, m.sellerPrice)]
  }

  /** Each corner of a shaded triangle is where a curve meets a price or quantity
      line: the consumer-surplus apex is the demand line's price intercept, the
      two taxed points lie on demand and on untaxed supply, and the far corner of
      the deadweight-loss triangle is the untaxed equilibrium. */
  lemma {:induction false} RegionCornersOnCurves(t: real)
    requires OnSlider(t)
    ensures var m := Compute(t);
      && ConsumerSurplusRegion(m)[2].y == DemandPrice(ConsumerSurplusRegion(m)[2].x)
      && ConsumerSurplusRegion(m)[1].y == DemandPrice(ConsumerSurplusRegion(m)[1].x)
      && ProducerSurplusRegion(m)[0].y == SupplyPrice(ProducerSurplusRegion(m)[0].x)
      && ProducerSurplusRegion(m)[1].y == SupplyPrice(ProducerSurplusRegion(m)[1].x)
      && DeadweightLossRegion(m)[0].y == TaxedSupplyPrice(DeadweightLossRegion(m)[0].x, t)
      && DeadweightLossRegion(m)[1].y == DemandPrice(DeadweightLossRegion(m)[1].x)
      && DeadweightLossRegion(m)[1].y == SupplyPrice(DeadweightLossRegion(m)[1].x)
      && DeadweightLossRegion(m)[2].y == SupplyPrice(DeadweightLossRegion(m)[2].x)
  {
  }

  /** The consumer-surplus triangle's shoelace area is the consumer surplus; its
      vertices run counter-clockwise. */
  lemma {:induction false} ConsumerSurplusRegionArea(t: real)
    requires OnSlider(t)
    ensures SignedArea(ConsumerSurplusRegion(Compute(t))) == Compute(t).consumerSurplus
    ensures Area(ConsumerSurplusRegion(Compute(t))) == Compute(t).consumerSurplus
  {
    var m := Compute(t);
    ShoelaceTriangle(Point(0.0, m.buyerPrice), Point(m.quantity, m.buyerPrice), Point(0.0, 100.0));
  }

  /** The producer-surplus triangle's shoelace area is the producer surplus; its
      vertices run counter-clockwise. */
  lemma {:induction false} ProducerSurplusRegionArea(t: real)
    requires OnSlider(t)
    ensures SignedArea(ProducerSurplusRegion(Compute(t))) == Compute(t).producerSurplus
    ensures Area(ProducerSurplusRegion(Compute(t))) == Compute(t).producerSurplus
  {
    var m := Compute(t);
    ShoelaceTriangle(Point(0.0, 0.0), Point(m.quantity, m.sellerPrice), Point(0.0, m.sellerPrice));
  }

  /** The deadweight-loss triangle's shoelace area is the deadweight loss. Unlike
      the two surplus triangles its vertices run clockwise, so the signed area is
      the loss negated. */
  lemma {:induction false} DeadweightLossRegionArea(t: real)
    requires OnSlider(t)
    ensures SignedArea(DeadweightLossRegion(Compute(t))) == -Compute(t).deadweightLoss
    ensures Area(DeadweightLossRegion(Compute(t))) == Compute(t).deadweightLoss
  {
    var m := Compute(t);
    ShoelaceTriangle(Point(m.quantity, m.buyerPrice), Point(m.initialQuantity, m.initialPrice), Point(m.quantity, m.sellerPrice));
  }
}
