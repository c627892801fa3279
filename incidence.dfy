/**
 How the tax moves the market: who bears it, where the lost surplus goes, and
 how revenue and deadweight loss respond as the rate rises.
 */
module Incidence {
  import opened Market

  /** Buyers and sellers share the tax equally: the buyer price rises by t/2
      above the untaxed price, the seller price falls by t/2 below it, and the
      quantity traded falls by t/2. */
  lemma TaxIncidence(t: real)
    requires OnSlider(t)
    ensures Compute(t).buyerPrice - Compute(t).initialPrice == t / 2.0
    ensures Compute(t).initialPrice - Compute(t).sellerPrice == t / 2.0
    ensures Compute(t).initialQuantity - Compute(t).quantity == t / 2.0
  {
  }

  /** Whatever the rate, consumer and producer surplus, revenue and the
      deadweight loss add up to the consumer plus producer surplus of the
      untaxed market, 2500: the tax only moves surplus to the treasury and
      destroys the rest. */
  lemma SurplusAccounting(t: real)
    requires OnSlider(t)
    ensures var m := Compute(t);
      m.consumerSurplus + m.producerSurplus + m.revenue + m.deadweightLoss == 2500.0
    ensures Compute(0.0).consumerSurplus + Compute(0.0).producerSurplus == 2500.0
  {
    var m := Compute(t);
    ComputeClosedForm(t);
    AccountingIdentity(t, m.consumerSurplus, m.producerSurplus, m.revenue, m.deadweightLoss);
    NoTax();
  }

  /** The closed forms of the four figures always sum to 2500: with u = 100 - t
      they are u^2/8 + u^2/8 + t u / 2 + t^2 / 4 = (u + t)^2 / 4. */
  lemma AccountingIdentity(t: real, cs: real, ps: real, rev: real, dwl: real)
    requires cs == (100.0 - t) * (100.0 - t) / 8.0 && ps == cs
    requires rev == t * (100.0 - t) / 2.0 && dwl == t * t / 4.0
    ensures cs + ps + rev + dwl == 2500.0
  {
  }

  /** With no tax the market sits at the untaxed equilibrium: buyers and sellers
      both face the price 50, 50 units trade, each side keeps a surplus of 1250,
      and neither deadweight loss nor revenue arises. */
  lemma NoTax()
    ensures Compute(0.0) == Outcome(
      initialPrice := 50.0, initialQuantity := 50.0,
      buyerPrice := 50.0, sellerPrice := 50.0, quantity := 50.0,
      consumerSurplus := 1250.0, producerSurplus := 1250.0,
      deadweightLoss := 0.0, revenue := 0.0)
  {
    ComputeClosedForm(0.0);
  }

  /** A tax of 20: buyers pay 60, sellers keep 40, 40 units trade; consumer and
      producer surplus are 800 each, deadweight loss 100 and revenue 800. */
  lemma TaxOfTwenty()
    ensures Compute(20.0) == Outcome(
      initialPrice := 50.0, initialQuantity := 50.0,
      buyerPrice := 60.0, sellerPrice := 40.0, quantity := 40.0,
      consumerSurplus := 800.0, producerSurplus := 800.0,
      deadweightLoss := 100.0, revenue := 800.0)
  {
    ComputeClosedForm(20.0);
  }

  /** At the top of the slider the seller price and the quantity reach zero, so
      no surplus and no revenue are left: the whole untaxed surplus of 2500 is
      deadweight loss. */
  lemma TaxOfOneHundred()
    ensures Compute(100.0) == Outcome(
      initialPrice := 50.0, initialQuantity := 50.0,
      buyerPrice := 100.0, sellerPrice := 0.0, quantity := 0.0,
      consumerSurplus := 0.0, producerSurplus := 0.0,
      deadweightLoss := 2500.0, revenue := 0.0)
  {
    ComputeClosedForm(100.0);
  }

  /** Revenue is greatest at a tax of 50, and only there. */
  lemma RevenuePeak(t: real)
    requires OnSlider(t)
    ensures Compute(t).revenue <= Compute(50.0).revenue
    ensures Compute(t).revenue == Compute(50.0).revenue <==> t == 50.0
  {
    ComputeClosedForm(t);
    ComputeClosedForm(50.0);
    ParabolaPeak(t);
  }

  /** t (100 - t) / 2 peaks at t = 50 with the value 1250. */
  lemma ParabolaPeak(t: real)
    ensures t * (100.0 - t) / 2.0 <= 1250.0
    ensures t * (100.0 - t) / 2.0 == 1250.0 <==> t == 50.0
  {
    if t < 50.0 {
      ParabolaSlope(t, 50.0);
    } else if t > 50.0 {
      ParabolaSlope(50.0, t);
    }
  }

  /** Raising the tax strictly raises revenue up to a rate of 50 and strictly
      lowers it beyond. */
  lemma RevenueRisesThenFalls(t1: real, t2: real)
    requires OnSlider(t1) && OnSlider(t2) && t1 < t2
    ensures t2 <= 50.0 ==> Compute(t1).revenue < Compute(t2).revenue
    ensures 50.0 <= t1 ==> Compute(t1).revenue > Compute(t2).revenue
  {
    ComputeClosedForm(t1);
    ComputeClosedForm(t2);
    ParabolaSlope(t1, t2);
  }

  /** How t (100 - t) / 2 changes between two rates t1 < t2: the difference
      factors as (t2 - t1) (100 - t1 - t2) / 2, whose second factor is positive
      below 50 and negative above. */
  lemma ParabolaSlope(t1: real, t2: real)
    requires t1 < t2
    ensures t2 <= 50.0 ==> t1 * (100.0 - t1) / 2.0 < t2 * (100.0 - t2) / 2.0
    ensures 50.0 <= t1 ==> t1 * (100.0 - t1) / 2.0 > t2 * (100.0 - t2) / 2.0
  {
    var d, s := t2 - t1, 100.0 - t1 - t2;
    assert t2 * (100.0 - t2) - t1 * (100.0 - t1) == d * s;
    if t2 <= 50.0 {
      assert d * s > 0.0;
    }
    if 50.0 <= t1 {
      assert d * s < 0.0;
    }
  }

  /** A higher tax never shrinks the deadweight loss. */
  lemma DeadweightLossGrows(t1: real, t2: real)
    requires OnSlider(t1) && OnSlider(t2) && t1 <= t2
    ensures Compute(t1).deadweightLoss <= Compute(t2).deadweightLoss
  {
    ComputeClosedForm(t1);
    ComputeClosedForm(t2);
    SquareMonotone(t1, t2);
  }

  /** Squaring is monotone on non-negative reals. */
  lemma SquareMonotone(a: real, b: real)
    requires 0.0 <= a <= b
    ensures a * a / 4.0 <= b * b / 4.0
  {
    assert a * a <= a * b <= b * b;
  }

  /** Nothing in the computation itself guards against a rate above 100: the
      seller price, the quantity and the revenue would all turn negative. Only
      the slider's range keeps the rate out of that region. */
  lemma BeyondSlider(t: real)
    requires t > 100.0
    ensures SellerPrice(t) < 0.0 && TaxedQuantity(t) < 0.0
    ensures Revenue(t, TaxedQuantity(t)) < 0.0
  {
    var q := TaxedQuantity(t);
    assert q < 0.0;
    assert t * q < 0.0 * q;
  }
}
