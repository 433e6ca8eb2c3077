/**
 * `Abonnement.calculate_invoice_base_amount`: the base price of a money
 * pool's subscription, a type coefficient times the amount of the size
 * tier its poolship count falls in. The tariff constants live in a
 * settings module that is not part of this model, so they are a
 * parameter.
 */
module Abonnements {
  import opened MoneypoolViews

  /** A size tier: the poolship counts it covers (both bounds inclusive)
      and its invoice amount. */
  datatype Tier = Tier(low: int, high: int, amount: real)

  /** The tariff: a coefficient per pool type and the S, M, L and XL
      tiers. */
  datatype Tariff = Tariff(payableCoef: real, registrableCoef: real, hybridCoef: real,
                           s: Tier, m: Tier, l: Tier, xl: Tier)

  predicate InTier(count: int, tier: Tier)
  {
    tier.low <= count <= tier.high
  }

  /** The abonnement's custom coefficient scaled by its pool type's
      coefficient; a type without one keeps the custom coefficient. */
  function TypeCoef(kind: PoolType, customCoef: real, t: Tariff): (c: real)
    ensures kind == Payable ==> c == customCoef * t.payableCoef
    ensures kind == Registrable ==> c == customCoef * t.registrableCoef
    ensures kind == Hybrid ==> c == customCoef * t.hybridCoef
    ensures kind == HybridSinglePay ==> c == customCoef
  {
    match kind
    case Payable => customCoef * t.payableCoef
    case Registrable => customCoef * t.registrableCoef
    case Hybrid => customCoef * t.hybridCoef
    case HybridSinglePay => customCoef
  }

  /** The amount of the first tier that covers `count`, S to XL; a count
      no tier covers is priced as XL. */
  function TierAmount(count: int, t: Tariff): (a: real)
    ensures InTier(count, t.s) ==> a == t.s.amount
    ensures !InTier(count, t.s) && InTier(count, t.m) ==> a == t.m.amount
    ensures !InTier(count, t.s) && !InTier(count, t.m) && InTier(count, t.l) ==> a == t.l.amount
    ensures !InTier(count, t.s) && !InTier(count, t.m) && !InTier(count, t.l) ==> a == t.xl.amount
  {
    if InTier(count, t.s) then t.s.amount
    else if InTier(count, t.m) then t.m.amount
    else if InTier(count, t.l) then t.l.amount
    else if InTier(count, t.xl) then t.xl.amount
    else t.xl.amount
  }

  /** `calculate_invoice_base_amount` for a pool of type `kind` with
      `count` poolships. */
  function InvoiceBaseAmount(count: int, kind: PoolType, customCoef: real, t: Tariff): real
  {
    TypeCoef(kind, customCoef, t) * TierAmount(count, t)
  }

  /** The invoice is the type coefficient times the amount of the first
      covering tier, and the XL amount when none covers the count. */
  lemma InvoiceByTier(count: int, kind: PoolType, customCoef: real, t: Tariff)
    ensures var c := TypeCoef(kind, customCoef, t);
            && (InTier(count, t.s) ==> InvoiceBaseAmount(count, kind, customCoef, t) == c * t.s.amount)
            && (!InTier(count, t.s) && InTier(count, t.m) ==> InvoiceBaseAmount(count, kind, customCoef, t) == c * t.m.amount)
            && (!InTier(count, t.s) && !InTier(count, t.m) && InTier(count, t.l) ==>
                  InvoiceBaseAmount(count, kind, customCoef, t) == c * t.l.amount)
            && (!InTier(count, t.s) && !InTier(count, t.m) && !InTier(count, t.l) ==>
                  InvoiceBaseAmount(count, kind, customCoef, t) == c * t.xl.amount)
  {
  }

  /** A tariff whose tiers follow one another without gaps (S, M, L,
      XL in order, each non-empty) and whose amounts do not fall from one
      tier to the next. */
  predicate Graded(t: Tariff)
  {
    && t.s.low <= t.s.high && t.s.high + 1 == t.m.low
    && t.m.low <= t.m.high && t.m.high + 1 == t.l.low
    && t.l.low <= t.l.high && t.l.high + 1 == t.xl.low
    && t.s.amount <= t.m.amount <= t.l.amount <= t.xl.amount
  }

  /** On a graded tariff, from the smallest tier up, more poolships never
      fall into a cheaper tier. */
  lemma TierAmountGrows(c1: int, c2: int, t: Tariff)
    requires Graded(t) && t.s.low <= c1 <= c2
    ensures TierAmount(c1, t) <= TierAmount(c2, t)
  {
    if InTier(c1, t.s) {
    } else if InTier(c1, t.m) {
      assert !InTier(c2, t.s);
    } else if InTier(c1, t.l) {
      assert !InTier(c2, t.s) && !InTier(c2, t.m);
    } else {
      assert !InTier(c2, t.s) && !InTier(c2, t.m) && !InTier(c2, t.l);
    }
  }

  /** On a graded tariff with a non-negative coefficient, the invoice of
      a pool at least as large as the smallest tier grows with its
      poolship count. */
  lemma InvoiceGrowsWithCount(c1: int, c2: int, kind: PoolType, customCoef: real, t: Tariff)
    requires Graded(t) && t.s.low <= c1 <= c2 && TypeCoef(kind, customCoef, t) >= 0.0
    ensures InvoiceBaseAmount(c1, kind, customCoef, t) <= InvoiceBaseAmount(c2, kind, customCoef, t)
  {
    TierAmountGrows(c1, c2, t);
    var c, a1, a2 := TypeCoef(kind, customCoef, t), TierAmount(c1, t), TierAmount(c2, t);
    assert c * a1 <= c * a2 by {
      assert c * (a2 - a1) >= 0.0;
    }
  }

  /** The fall-through branch: on a graded tariff a pool with fewer
      poolships than the S tier starts at (an empty one, say, when S starts
      at 1) is priced as XL. */
  lemma BelowSmallestIsXL(count: int, kind: PoolType, customCoef: real, t: Tariff)
    requires Graded(t) && count < t.s.low
    ensures InvoiceBaseAmount(count, kind, customCoef, t) == TypeCoef(kind, customCoef, t) * t.xl.amount
  {
  }
}
