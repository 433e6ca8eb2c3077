/**
 * The data migration `feed_cashbox_balance_data`, which moved the cashbox
 * data from absolute membership balances to percentages of the period
 * balance: each period's hamyan balance becomes the total of its
 * memberships' balances less its bank balance, and each membership with a
 * nonzero balance gets its share of that total as percentage. Division is
 * Python 3's true division, over exact reals.
 */
module BalanceMigration {
  import opened Common
  import Cashbox

  /** A period as the migration sees it. */
  class LegacyPeriod {
    const bankBalance: int
    var hamyanBalance: int

    constructor (bankBalance: int)
      ensures this.bankBalance == bankBalance && hamyanBalance == 0
    {
      this.bankBalance := bankBalance;
      hamyanBalance := 0;
    }
  }

  /** A membership with the absolute balance the migration removes and
      the percentage it adds (default 0). */
  class LegacyMembership {
    const period: LegacyPeriod
    const balance: int
    var percentageBalance: real

    constructor (period: LegacyPeriod, balance: int)
      ensures this.period == period && this.balance == balance && percentageBalance == 0.0
    {
      this.period := period;
      this.balance := balance;
      percentageBalance := 0.0;
    }
  }

  /** The total of the balances of the memberships of period `p`. */
  function PeriodTotal(all: seq<LegacyMembership>, p: LegacyPeriod): int
  {
    if all == [] then 0
    else PeriodTotal(all[..|all| - 1], p) + (if all[|all| - 1].period == p then all[|all| - 1].balance else 0)
  }

  /** A period whose conversion divides by zero: its balances add up to 0
      but one of them is not 0. */
  predicate DividesByZero(all: seq<LegacyMembership>, p: LegacyPeriod)
  {
    PeriodTotal(all, p) == 0 && exists k :: 0 <= k < |all| && all[k].period == p && all[k].balance != 0
  }

  /** The percentage the migration gives a membership of a period whose
      balances total `total`; a zero balance keeps the one it had. */
  function Converted(balance: int, total: int, previous: real): real
  {
    if balance != 0 && total != 0 then balance as real / total as real else previous
  }

  /** The conversion of one period: sets its hamyan balance to its
      memberships' total less its bank balance, then the percentage of
      each of its memberships with a nonzero balance. A ZeroDivisionError
      leaves every percentage as it was, since every membership before the
      first nonzero one has a zero balance. */
  method FeedPeriod(p: LegacyPeriod, all: seq<LegacyMembership>) returns (r: Result<()>)
    requires forall i, j :: 0 <= i < j < |all| ==> all[i] != all[j]
    modifies p`hamyanBalance, set m | m in all && m.period == p
    ensures p.hamyanBalance == PeriodTotal(all, p) - p.bankBalance
    ensures r.Raised? <==> DividesByZero(all, p)
    ensures r.Raised? ==> r.error == "ZeroDivisionError"
    ensures forall k :: 0 <= k < |all| && (r.Raised? || all[k].period != p) ==>
              all[k].percentageBalance == old(all[k].percentageBalance)
    ensures r.Ok? ==> forall k :: 0 <= k < |all| && all[k].period == p ==>
              all[k].percentageBalance == Converted(all[k].balance, PeriodTotal(all, p), old(all[k].percentageBalance))
  {
    var total := 0;
    var i := 0;
    while i < |all|
      invariant 0 <= i <= |all| && total == PeriodTotal(all[..i], p)
    {
      assert all[..i + 1][..i] == all[..i];
      if all[i].period == p {
        total := total + all[i].balance;
      }
      i := i + 1;
    }
    assert all[..i] == all;
    p.hamyanBalance := total - p.bankBalance;
    var j := 0;
    while j < |all|
      invariant 0 <= j <= |all|
      invariant p.hamyanBalance == total - p.bankBalance
      invariant total == 0 ==> forall k :: 0 <= k < j && all[k].period == p ==> all[k].balance == 0
      invariant forall k :: 0 <= k < j && all[k].period == p ==>
                  all[k].percentageBalance == Converted(all[k].balance, total, old(all[k].percentageBalance))
      invariant forall k :: 0 <= k < |all| && (j <= k || all[k].period != p) ==>
                  all[k].percentageBalance == old(all[k].percentageBalance)
    {
      var m := all[j];
      if m.period == p && m.balance != 0 {
        if total == 0 {
          assert all[j].period == p && all[j].balance != 0;
          return Raised("ZeroDivisionError");
        }
        m.percentageBalance := m.balance as real / total as real;
      }
      j := j + 1;
    }
    r := Ok(());
  }

  /** `feed_cashbox_balance_data` over the period table `periods` and the
      membership table `all`: converts the periods in order and stops at
      the first one that divides by zero. */
  method FeedBalanceData(periods: seq<LegacyPeriod>, all: seq<LegacyMembership>) returns (r: Result<()>)
    requires forall i, j :: 0 <= i < j < |periods| ==> periods[i] != periods[j]
    requires forall i, j :: 0 <= i < j < |all| ==> all[i] != all[j]
    modifies set p | p in periods, set m | m in all
    ensures r.Ok? <==> forall k :: 0 <= k < |periods| ==> !DividesByZero(all, periods[k])
    ensures r.Ok? ==> forall k :: 0 <= k < |periods| ==>
              periods[k].hamyanBalance == PeriodTotal(all, periods[k]) - periods[k].bankBalance
    ensures r.Ok? ==> forall k :: 0 <= k < |all| && all[k].period in periods ==>
              all[k].percentageBalance == Converted(all[k].balance, PeriodTotal(all, all[k].period), old(all[k].percentageBalance))
    ensures forall k :: 0 <= k < |all| && all[k].period !in periods ==>
              all[k].percentageBalance == old(all[k].percentageBalance)
  {
    var i := 0;
    while i < |periods|
      invariant 0 <= i <= |periods|
      invariant forall k :: 0 <= k < i ==> !DividesByZero(all, periods[k])
      invariant forall k :: 0 <= k < i ==>
                  periods[k].hamyanBalance == PeriodTotal(all, periods[k]) - periods[k].bankBalance
      invariant forall k :: 0 <= k < |all| ==>
                  all[k].percentageBalance ==
                    if all[k].period in periods[..i]
                    then Converted(all[k].balance, PeriodTotal(all, all[k].period), old(all[k].percentageBalance))
                    else old(all[k].percentageBalance)
    {
      r := FeedPeriod(periods[i], all);
      if r.Raised? {
        return;
      }
      assert periods[..i + 1] == periods[..i] + [periods[i]];
      i := i + 1;
    }
    assert periods[..i] == periods;
    r := Ok(());
  }

  /** With balances that are never negative, a period's total is 0 only
      when each of its balances is: the conversion cannot divide by
      zero. */
  lemma {:induction false} NonNegativeNeverDividesByZero(all: seq<LegacyMembership>, p: LegacyPeriod)
    requires forall k :: 0 <= k < |all| ==> all[k].balance >= 0
    ensures PeriodTotal(all, p) >= 0
    ensures !DividesByZero(all, p)
  {
    if all != [] {
      var init := all[..|all| - 1];
      NonNegativeNeverDividesByZero(init, p);
      if PeriodTotal(all, p) == 0 {
        forall k | 0 <= k < |all| && all[k].period == p ensures all[k].balance == 0 {
          if k < |all| - 1 {
            assert init[k] == all[k];
          }
        }
      }
    }
  }

  /** The total of the percentages of the memberships of period `p`. */
  function PercentageTotal(all: seq<LegacyMembership>, p: LegacyPeriod): real
    reads set m | m in all
  {
    if all == [] then 0.0
    else PercentageTotal(all[..|all| - 1], p) + (if all[|all| - 1].period == p then all[|all| - 1].percentageBalance else 0.0)
  }

  /** Once converted from the default percentage 0, a period's
      percentages times `total` give back its balance total. */
  lemma {:induction false} PercentagesScaleToBalances(all: seq<LegacyMembership>, p: LegacyPeriod, total: int)
    requires total != 0
    requires forall k :: 0 <= k < |all| && all[k].period == p ==>
               all[k].percentageBalance == Converted(all[k].balance, total, 0.0)
    ensures PercentageTotal(all, p) * total as real == PeriodTotal(all, p) as real
  {
    if all != [] {
      var init := all[..|all| - 1];
      var last := all[|all| - 1];
      PercentagesScaleToBalances(init, p, total);
      if last.period == p {
        assert last.percentageBalance * total as real == last.balance as real;
        calc {
          PercentageTotal(all, p) * total as real;
          (PercentageTotal(init, p) + last.percentageBalance) * total as real;
          PercentageTotal(init, p) * total as real + last.percentageBalance * total as real;
        }
      }
    }
  }

  /** A converted period's percentages add up to 1 when its total is not
      0. */
  lemma PercentagesSumToOne(all: seq<LegacyMembership>, p: LegacyPeriod)
    requires PeriodTotal(all, p) != 0
    requires forall k :: 0 <= k < |all| && all[k].period == p ==>
               all[k].percentageBalance == Converted(all[k].balance, PeriodTotal(all, p), 0.0)
    ensures PercentageTotal(all, p) == 1.0
  {
    var n := PeriodTotal(all, p);
    PercentagesScaleToBalances(all, p, n);
    UnitFactor(PercentageTotal(all, p), n, PeriodTotal(all, p));
  }

  lemma UnitFactor(x: real, n: int, m: int)
    requires n == m && n != 0 && x * n as real == m as real
    ensures x == 1.0
  {
    var t := n as real;
    assert t != 0.0;
    assert x == (x * t) / t;
  }

  /** The migration keeps every balance: in the cashbox model a
      membership's balance is its percentage times the period balance
      (bank plus hamyan), rounded, and after the migration that gives back
      the balance it had, for a nonzero balance and for a zero one left at
      percentage 0. */
  lemma MigrationKeepsBalance(m: Cashbox.Membership, balance: int, total: int)
    requires m.period.bankBalance + m.period.hamyanBalance == total
    requires m.percentageBalance == Converted(balance, total, 0.0)
    requires balance != 0 ==> total != 0
    ensures m.Balance() == balance
  {
    if balance != 0 {
      assert m.percentageBalance * total as real == balance as real;
    }
    RoundOfInteger(balance);
  }
}
