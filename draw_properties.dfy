/**
 * Properties of the cashbox draw engine that relate several of its
 * members: the weighted lottery of `Cycle.draw`, the recipients of
 * announcements and the pro-rata payout of a share group.
 */
module DrawProperties {
  import opened Common
  import opened Ledger
  import opened Cashbox

  // ---------------------------------------------------------------------
  // The lottery
  // ---------------------------------------------------------------------

  /** Every name in the lottery belongs to a membership that still has a
      share to win. */
  lemma {:induction false} CandidateHasOpenShares(ms: seq<Membership>, w: MemberId)
    requires w in Candidates(ms)
    ensures exists m :: m in ms && m.member == w && m.NonWonShares() > 0
  {
    assert ms != [];
    var init, last := ms[..|ms| - 1], ms[|ms| - 1];
    assert Candidates(ms) == Candidates(init) + Repeat(last.member, last.NonWonShares());
    if w in Candidates(init) {
      CandidateHasOpenShares(init, w);
      var m :| m in init && m.member == w && m.NonWonShares() > 0;
      assert m in ms;
    } else {
      assert w in Repeat(last.member, last.NonWonShares());
      assert last in ms;
    }
  }

  /** Conversely, every membership with a share left to win is in the
      lottery. */
  lemma {:induction false} OpenSharesAreCandidates(ms: seq<Membership>, m: Membership)
    requires m in ms && m.NonWonShares() > 0
    ensures m.member in Candidates(ms)
  {
    var init, last := ms[..|ms| - 1], ms[|ms| - 1];
    assert ms == init + [last];
    if m == last {
      assert Repeat(last.member, last.NonWonShares())[0] == m.member;
    } else {
      assert m in init;
      OpenSharesAreCandidates(init, m);
    }
  }

  /** Filtering the valid memberships first does not change the lottery:
      an invalid membership has no share to win. */
  lemma {:induction false} LotteryIgnoresInvalid(ms: seq<Membership>)
    ensures Candidates(ValidOf(ms)) == Candidates(ms)
  {
    if ms != [] {
      var init, last := ms[..|ms| - 1], ms[|ms| - 1];
      LotteryIgnoresInvalid(init);
      if last.IsValid() {
        var v := ValidOf(init) + [last];
        assert v[..|v| - 1] == ValidOf(init);
      } else {
        assert ValidOf(ms) == ValidOf(init);
        assert Candidates(ms) == Candidates(init) + Repeat(last.member, last.NonWonShares());
        assert Repeat(last.member, last.NonWonShares()) == [];
      }
    }
  }

  /** Proof helper: dropping the last membership keeps members unique,
      and the last one's member is not among the rest. */
  lemma UniqueMembersInit(ms: seq<Membership>)
    requires ms != [] && UniqueMembers(ms)
    ensures UniqueMembers(ms[..|ms| - 1])
    ensures forall m :: m in ms[..|ms| - 1] ==> m.member != ms[|ms| - 1].member
  {
  }

  /** The lottery holds each member exactly as often as its membership
      has shares left to win. */
  lemma {:induction false} CandidateCount(ms: seq<Membership>, m: Membership)
    requires UniqueMembers(ms) && m in ms
    ensures Count(Candidates(ms), m.member) == m.NonWonShares()
  {
    var init, last := ms[..|ms| - 1], ms[|ms| - 1];
    assert ms == init + [last];
    UniqueMembersInit(ms);
    CountAppend(Candidates(init), Repeat(last.member, last.NonWonShares()), m.member);
    CountRepeat(last.member, last.NonWonShares(), m.member);
    if m == last {
      if m.member in Candidates(init) {
        CandidateHasOpenShares(init, m.member);
        assert false;
      }
      CountZeroNotIn(Candidates(init), m.member);
    } else {
      assert m in init;
      CandidateCount(init, m);
    }
  }

  /** In a period, the chances of a member in the automatic draw are its
      membership's non-won shares; a fully won membership is never drawn. */
  lemma DrawChances(p: Period, m: Membership)
    requires p.Valid() && m in p.memberships
    ensures Count(Candidates(p.ValidMemberships()), m.member) == m.NonWonShares()
    ensures m.wonShares >= m.numberOfShares ==> m.member !in Candidates(p.ValidMemberships())
  {
    LotteryIgnoresInvalid(p.memberships);
    CandidateCount(p.memberships, m);
    CountZeroNotIn(Candidates(p.ValidMemberships()), m.member);
  }

  /** A fully won membership is never the winner of an automatic draw. */
  lemma FullyWonNeverDrawn(c: Cycle, pick: nat, m: Membership)
    requires c.period.Valid() && m in c.period.memberships && m.wonShares >= m.numberOfShares
    requires c.Chosen(None, pick).Ok? && !c.Chosen(None, pick).value.manual
    ensures c.Chosen(None, pick).value.member != m.member
  {
    DrawChances(c.period, m);
  }

  /** The winner of an automatic draw holds a valid membership of the period
      with a share left, so the draw finds the winner's membership. */
  lemma AutomaticWinnerHasOpenShares(c: Cycle, pick: nat)
    requires c.Chosen(None, pick).Ok? && !c.Chosen(None, pick).value.manual
    ensures var w := c.Chosen(None, pick).value.member;
            && (exists m :: m in c.period.memberships && m.member == w && m.IsValid() && m.wonShares < m.numberOfShares)
            && FindMembership(c.period.memberships, w).Some?
  {
    var w := c.Chosen(None, pick).value.member;
    CandidateHasOpenShares(c.period.ValidMemberships(), w);
  }

  /** With won shares in range, the lottery has one ticket per remaining
      cycle. */
  lemma {:induction false} CandidatesLength(vs: seq<Membership>)
    requires forall m :: m in vs ==> m.IsValid() && 0 <= m.wonShares <= m.numberOfShares
    ensures |Candidates(vs)| == SumShares(vs) - SumWonShares(vs)
  {
    if vs != [] {
      CandidatesLength(vs[..|vs| - 1]);
      assert vs[|vs| - 1] in vs;
    }
  }

  lemma LotterySizeIsRemainedCycles(p: Period)
    requires forall m :: m in p.memberships ==> 0 <= m.wonShares <= m.numberOfShares
    ensures |Candidates(p.ValidMemberships())| == p.NumberOfRemainedCycles()
  {
    CandidatesLength(p.ValidMemberships());
  }

  /** While cycles remain, the automatic draw always finds a winner (it
      does not reach `random.choice` of an empty list). */
  lemma AutomaticDrawSucceedsWhileCyclesRemain(c: Cycle, pick: nat)
    requires forall m :: m in c.period.memberships ==> 0 <= m.wonShares <= m.numberOfShares
    requires c.period.NumberOfRemainedCycles() > 0
    requires !(c.index == 1 && c.period.isManagerFirstWinner)
    ensures c.Chosen(None, pick).Ok? && !c.Chosen(None, pick).value.manual
  {
    LotterySizeIsRemainedCycles(c.period);
  }

  /** Winning a share and rolling it back restores the won-share count
      when the membership had a share left to win. */
  method WinThenUndo(m: Membership)
    requires 0 <= m.wonShares < m.numberOfShares
    modifies m`wonShares
    ensures m.wonShares == old(m.wonShares)
  {
    var _ := m.MakeWinner();
    m.UnmakeWinner();
  }

  // ---------------------------------------------------------------------
  // Announcements
  // ---------------------------------------------------------------------

  /** A member of the current period gets notifications exactly when the
      box is not archived and the membership's announce setting says so;
      likewise for text messages. */
  lemma RecipientsAreAnnounced(box: Cashbox, m: Membership)
    requires box.current != null && box.current.Valid() && box.current.cashbox == box
    requires m in box.current.memberships
    ensures m.member in box.GetNotificationMembers() <==> !box.isArchived && m.HaveNotificationAnnounce()
    ensures m.member in box.GetSmsMembers() <==> !box.isArchived && m.HaveSmsAnnounce()
  {
    var ms := box.current.memberships;
    if !box.isArchived {
      forall mode | mode in {box.notificationAnnounce, box.smsAnnounce}
        ensures m.member in box.Recipients(mode) <==> AnnouncedTo(mode, m.role)
      {
        if m.member in box.Recipients(mode) {
          var m' :| m' in ms && m'.member == m.member && AnnouncedTo(mode, m'.role);
          SameMemberSameMembership(ms, m, m');
        }
      }
    }
  }

  // ---------------------------------------------------------------------
  // The share-group payout
  // ---------------------------------------------------------------------

  function Residues(shares: seq<(MemberId, int)>): (r: seq<int>)
    ensures |r| == |shares| && forall k :: 0 <= k < |shares| ==> r[k] == shares[k].1
  {
    if shares == [] then [] else Residues(shares[..|shares| - 1]) + [shares[|shares| - 1].1]
  }

  function PortionAmounts(shares: seq<(MemberId, int)>, loan: int, shareValue: int): (r: seq<real>)
    ensures |r| == |shares| && forall k :: 0 <= k < |shares| ==> r[k] == Portion(loan, shares[k].1, shareValue)
  {
    if shares == [] then []
    else PortionAmounts(shares[..|shares| - 1], loan, shareValue) + [Portion(loan, shares[|shares| - 1].1, shareValue)]
  }

  function AmountsOf(txs: seq<Transaction>): (r: seq<real>)
    ensures |r| == |txs| && forall k :: 0 <= k < |txs| ==> r[k] == txs[k].amount
  {
    if txs == [] then [] else AmountsOf(txs[..|txs| - 1]) + [txs[|txs| - 1].amount]
  }

  /** The portions are the loan split in the ratio of the residues. */
  lemma {:induction false} PortionsSplitTheLoan(shares: seq<(MemberId, int)>, loan: int, shareValue: int)
    requires shareValue != 0
    ensures SumReal(PortionAmounts(shares, loan, shareValue)) * shareValue as real == (loan * Sum(Residues(shares))) as real
  {
    if shares != [] {
      var init := shares[..|shares| - 1];
      var r := shares[|shares| - 1].1;
      PortionsSplitTheLoan(init, loan, shareValue);
      var p := Portion(loan, r, shareValue);
      assert p * shareValue as real == (loan * r) as real;
      assert PortionAmounts(shares, loan, shareValue) == PortionAmounts(init, loan, shareValue) + [p];
      assert Residues(shares) == Residues(init) + [r];
      calc {
        SumReal(PortionAmounts(shares, loan, shareValue)) * shareValue as real;
        (SumReal(PortionAmounts(init, loan, shareValue)) + p) * shareValue as real;
        SumReal(PortionAmounts(init, loan, shareValue)) * shareValue as real + p * shareValue as real;
        (loan * Sum(Residues(init))) as real + (loan * r) as real;
        { assert loan * (Sum(Residues(init)) + r) == loan * Sum(Residues(init)) + loan * r; }
        (loan * Sum(Residues(shares))) as real;
      }
    }
  }

  /** When every portion is within the balance, the legs carry exactly the
      portions, in the group's order. */
  lemma {:induction false} LegsCarryThePortions(shares: seq<(MemberId, int)>, loan: int, shareValue: int, balance: int,
                                                payer: Option<MemberId>, ctx: Context, state: TxState)
    requires forall k :: 0 <= k < |shares| ==> Portion(loan, shares[k].1, shareValue) <= balance as real
    ensures AmountsOf(Legs(shares, loan, shareValue, balance, payer, ctx, state)) == PortionAmounts(shares, loan, shareValue)
  {
    if shares != [] {
      var init := shares[..|shares| - 1];
      assert forall k :: 0 <= k < |init| ==> init[k] == shares[k];
      LegsCarryThePortions(init, loan, shareValue, balance, payer, ctx, state);
      var prev := Legs(init, loan, shareValue, balance, payer, ctx, state);
      var leg := CashoutTx(Portion(loan, shares[|shares| - 1].1, shareValue), payer, shares[|shares| - 1].0, ctx, state);
      assert Legs(shares, loan, shareValue, balance, payer, ctx, state) == prev + [leg];
      assert (prev + [leg])[..|prev|] == prev;
    }
  }

  /** A share group whose residues make up one share, paid out in full,
      receives exactly the loan. */
  lemma GroupPayoutIsTheLoan(shares: seq<(MemberId, int)>, loan: int, shareValue: int, balance: int,
                             payer: Option<MemberId>, ctx: Context, state: TxState)
    requires shareValue != 0 && Sum(Residues(shares)) == shareValue
    requires forall k :: 0 <= k < |shares| ==> Portion(loan, shares[k].1, shareValue) <= balance as real
    ensures SumReal(AmountsOf(Legs(shares, loan, shareValue, balance, payer, ctx, state))) == loan as real
  {
    LegsCarryThePortions(shares, loan, shareValue, balance, payer, ctx, state);
    PortionsTotalTheLoan(shares, loan, shareValue);
  }

  /** Residues that make up one share split the whole loan. */
  lemma PortionsTotalTheLoan(shares: seq<(MemberId, int)>, loan: int, shareValue: int)
    requires shareValue != 0 && Sum(Residues(shares)) == shareValue
    ensures SumReal(PortionAmounts(shares, loan, shareValue)) == loan as real
  {
    PortionsSplitTheLoan(shares, loan, shareValue);
    ScaleBack(SumReal(PortionAmounts(shares, loan, shareValue)), loan, shareValue);
  }

  /** Proof helper: cancelling a nonzero share value. */
  lemma ScaleBack(total: real, loan: int, shareValue: int)
    requires shareValue != 0 && total * shareValue as real == (loan * shareValue) as real
    ensures total == loan as real
  {
    var s := shareValue as real;
    assert (loan * shareValue) as real == loan as real * s;
    assert (total - loan as real) * s == 0.0;
  }
}
