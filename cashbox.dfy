/**
 * The cashbox draw engine: a Cashbox with its current Period, the
 * Memberships of that period, and the Cycles whose draws pay the pooled
 * balance to one winner. The four entities refer to one another (as the
 * Django models do), so they live in one module.
 *
 * The Period, ShareGroup, Winner and Commission models are not part of
 * this model's sources; the Period's derived quantities used by the draw
 * (valid and unpaid memberships, the satisfactory amount, the remaining
 * cycles, the owner, creating the next cycle) are defined here as the
 * design describes them.
 */
module Cashbox {
  import opened Common
  import opened Ledger

  datatype BoxState = Unpaid | Draft | Activated | Inactivated
  datatype CommissionType = Regular | Rosca
  datatype TrustState = Trusted | WorriedUnverified | WorriedInProgress | WorriedVerified
  datatype AnnounceMode = AnnounceAll | JustOwner | Silent
  datatype Role = Owner | Normal
  datatype MuxType = Payping | Hamyan

  /** The box's Commission row: a manually set flat commission, or a
      number of free trial cycles. */
  datatype CommissionSettings = CommissionSettings(
    isManuallySet: bool, cycleCommission: int, numberOfTrialCycles: int)

  /** What `mux_list` reads of the box's bank account. */
  datatype BankAccountInfo = BankAccountInfo(hasPaypingAccount: bool, paypingVerified: bool)

  datatype ShareGroup = ShareGroup(id: nat, name: string)

  /** A Winner row: a cycle won by one membership or by one share group. */
  datatype Winner = Winner(
    cycle: Cycle, membership: Option<Membership>, shareGroup: Option<nat>, loanAmount: int)

  /** The member chosen by a draw and whether the draw counts as manual. */
  datatype Pick = Pick(member: MemberId, manual: bool)

  datatype Outcome = Done | Failed(error: string)

  /** The result of the batch `Cashbox.draw`: None, -1, -2 or the winners. */
  datatype BatchDraw =
    | BoxInactive | OverBalance | NoWinners | Winners(winners: seq<Winner>)
    | PayoutRaised(error: string)

  /** The result of `create_cashout_for_winner`. */
  datatype WinnerCashout =
    | Single(transaction: Option<nat>)
    | Portions(allCreated: bool)
    | PortionsRaised(error: string)
    | NotAssigned

  // ---------------------------------------------------------------------
  // Functions over a sequence of memberships (a queryset)
  // ---------------------------------------------------------------------

  /** The memberships of `ms` that both sides accepted, in order. */
  function ValidOf(ms: seq<Membership>): (r: seq<Membership>)
    reads set m | m in ms
    ensures forall m :: m in r ==> m in ms && m.IsValid()
    ensures forall m :: m in ms && m.IsValid() ==> m in r
    ensures |r| <= |ms|
  {
    if ms == [] then []
    else ValidOf(ms[..|ms| - 1]) + (if ms[|ms| - 1].IsValid() then [ms[|ms| - 1]] else [])
  }

  /** The draw's lottery: each membership's member once per non-won share. */
  function Candidates(ms: seq<Membership>): seq<MemberId>
    reads set m | m in ms
  {
    if ms == [] then []
    else Candidates(ms[..|ms| - 1]) + Repeat(ms[|ms| - 1].member, ms[|ms| - 1].NonWonShares())
  }

  /** `Membership.objects.filter(member=w, period=...)[0]`. */
  function FindMembership(ms: seq<Membership>, w: MemberId): (r: Option<Membership>)
    ensures r.Some? ==> r.value in ms && r.value.member == w
    ensures r.None? ==> forall m :: m in ms ==> m.member != w
  {
    if ms == [] then None
    else if ms[0].member == w then Some(ms[0])
    else FindMembership(ms[1..], w)
  }

  /** `ms` without the object `x`. */
  function Without(ms: seq<Membership>, x: Membership): (r: seq<Membership>)
    ensures forall m :: m in r ==> m in ms && m != x
    ensures forall m :: m in ms && m != x ==> m in r
    ensures |r| <= |ms|
  {
    if ms == [] then []
    else Without(ms[..|ms| - 1], x) + (if ms[|ms| - 1] == x then [] else [ms[|ms| - 1]])
  }

  function SumShares(ms: seq<Membership>): int
    reads set m | m in ms
  {
    if ms == [] then 0 else SumShares(ms[..|ms| - 1]) + ms[|ms| - 1].numberOfShares
  }

  function SumWonShares(ms: seq<Membership>): int
    reads set m | m in ms
  {
    if ms == [] then 0 else SumWonShares(ms[..|ms| - 1]) + ms[|ms| - 1].wonShares
  }

  function SumShareAmounts(ms: seq<Membership>): int
    reads (set m | m in ms), (set m | m in ms :: m.period)
  {
    if ms == [] then 0 else SumShareAmounts(ms[..|ms| - 1]) + ms[|ms| - 1].ShareAmount()
  }

  /** The members of the memberships of `ms` with the given role, or of
      all of them when `role` is None. */
  function MembersOf(ms: seq<Membership>, role: Option<Role>): (r: seq<MemberId>)
    reads set m | m in ms
    ensures forall w :: w in r <==> exists m :: m in ms && m.member == w && (role.Some? ==> m.role == role.value)
  {
    if ms == [] then []
    else
      var last := ms[|ms| - 1];
      var rest := MembersOf(ms[..|ms| - 1], role);
      assert forall m :: m in ms ==> m in ms[..|ms| - 1] || m == last;
      rest + (if role.None? || last.role == role.value then [last.member] else [])
  }

  /** No two memberships of `ms` belong to the same member (hence no object
      occurs twice): each one's member has no membership before it. */
  ghost predicate UniqueMembers(ms: seq<Membership>)
  {
    ms == [] || (UniqueMembers(ms[..|ms| - 1]) && FindMembership(ms[..|ms| - 1], ms[|ms| - 1].member).None?)
  }

  /** In a sequence with unique members, a member's membership is the one
      with that member. */
  lemma {:induction false} SameMemberSameMembership(ms: seq<Membership>, a: Membership, b: Membership)
    requires UniqueMembers(ms) && a in ms && b in ms && a.member == b.member
    ensures a == b
  {
    var init, last := ms[..|ms| - 1], ms[|ms| - 1];
    assert ms == init + [last];
    if a != last && b != last {
      SameMemberSameMembership(init, a, b);
    }
  }

  // ---------------------------------------------------------------------
  // Period (collaborator)
  // ---------------------------------------------------------------------

  class Period {
    const id: nat
    const cashbox: Cashbox
    var index: int
    var shareValue: int
    var cycleIndex: int
    var bankBalance: int
    var hamyanBalance: int
    var isTerminated: bool
    var isManagerFirstWinner: bool
    var memberships: seq<Membership>
    var cycles: seq<Cycle>
    var shareGroups: seq<ShareGroup>

    constructor (id: nat, cashbox: Cashbox, index: int, shareValue: int)
      ensures this.id == id && this.cashbox == cashbox && this.index == index
      ensures this.shareValue == shareValue && cycleIndex == 0
      ensures bankBalance == 0 && hamyanBalance == 0
      ensures !isTerminated && !isManagerFirstWinner
      ensures memberships == [] && cycles == [] && shareGroups == []
      ensures Valid()
    {
      this.id := id;
      this.cashbox := cashbox;
      this.index := index;
      this.shareValue := shareValue;
      cycleIndex := 0;
      bankBalance := 0;
      hamyanBalance := 0;
      isTerminated := false;
      isManagerFirstWinner := false;
      memberships := [];
      cycles := [];
      shareGroups := [];
    }

    /** Each membership and cycle belongs to this period, and no member
        holds two memberships in it. */
    ghost predicate Valid()
      reads this
    {
      && UniqueMembers(memberships)
      && (forall m :: m in memberships ==> m.period == this)
      && (forall c :: c in cycles ==> c.period == this)
    }

    /** The period's balance: what is in the box's bank account plus what
        the platform holds. */
    function Balance(): int
      reads this
    {
      bankBalance + hamyanBalance
    }

    function ValidMemberships(): (r: seq<Membership>)
      reads this`memberships, memberships
      ensures forall m :: m in r ==> m in memberships && m.IsValid()
      ensures forall m :: m in memberships && m.IsValid() ==> m in r
    {
      ValidOf(memberships)
    }

    /** The amount the box must hold before a draw: the share amounts of
        the valid memberships. */
    function SatisfactoryAmount(): int
      requires Valid()
      reads this, memberships
    {
      SumShareAmounts(ValidMemberships())
    }

    /** Shares of valid memberships not won yet. */
    function NumberOfRemainedCycles(): int
      reads this`memberships, memberships
    {
      SumShares(ValidMemberships()) - SumWonShares(ValidMemberships())
    }

    /** Some valid membership has paid less than its share amount. */
    predicate HasUnpaidMemberships()
      requires Valid()
      reads this, memberships
    {
      exists m :: m in memberships && m.IsValid() && m.Balance() < m.ShareAmount()
    }

    /** The owner's member: the first membership with the owner role. */
    function Owner(): (r: Option<MemberId>)
      reads this, memberships
      ensures r.Some? ==> exists m :: m in memberships && m.member == r.value && m.role == Role.Owner
      ensures r.None? ==> forall m :: m in memberships ==> m.role != Role.Owner
    {
      var owners := MembersOf(memberships, Some(Role.Owner));
      if owners == [] then
        assert forall m :: m in memberships && m.role == Role.Owner ==> m.member in owners;
        None
      else
        assert owners[0] in owners;
        Some(owners[0])
    }

    function CurrentCycle(): Cycle?
      reads this
    {
      if 1 <= cycleIndex <= |cycles| then cycles[cycleIndex - 1] else null
    }

    function CycleIds(): set<nat>
      reads this`cycles
    {
      set c | c in cycles :: c.id
    }

    /** The memberships enrolled in share group `g`, newest first (see
        GroupOf). */
    function GroupMemberships(g: nat): (r: seq<Membership>)
      reads this, memberships
      ensures forall m :: m in r ==> m in memberships && m.shareGroup == Some(g)
      ensures forall m :: m in memberships && m.shareGroup == Some(g) ==> m in r
    {
      GroupOf(memberships, g)
    }

    /** `Membership.objects.create(member=..., period=..., number_of_shares=...)`. */
    method CreateMembership(member: MemberId, numberOfShares: int) returns (m: Membership)
      requires Valid()
      requires FindMembership(memberships, member).None?
      modifies this`memberships
      ensures fresh(m) && memberships == old(memberships) + [m] && Valid()
      ensures m.period == this && m.member == member && m.IsNew(numberOfShares)
    {
      m := new Membership(this, member, numberOfShares);
      memberships := memberships + [m];
      assert memberships[..|memberships| - 1] == old(memberships);
    }

    /** `Period.create_new_cycle`: the next cycle, with index
        `cycle_index + 1`, becomes the current one. */
    method CreateNewCycle(newCycleId: nat) returns (c: Cycle)
      requires Valid()
      modifies this`cycles, this`cycleIndex
      ensures fresh(c) && c.period == this && c.index == old(cycleIndex) + 1 && c.id == newCycleId
      ensures c.winner.None? && c.winners == [] && c.drawingDate.None?
      ensures cycles == old(cycles) + [c] && cycleIndex == old(cycleIndex) + 1
      ensures Valid()
    {
      c := new Cycle(newCycleId, this, cycleIndex + 1);
      cycles := cycles + [c];
      cycleIndex := cycleIndex + 1;
    }
  }

  /** The memberships of `ms` enrolled in share group `g`, newest first.
      A period's memberships are kept in creation (id) order, and a share
      group's `memberships` follow Membership's ordering by descending
      id. */
  function GroupOf(ms: seq<Membership>, g: nat): (r: seq<Membership>)
    reads set m | m in ms
    ensures forall m :: m in r ==> m in ms && m.shareGroup == Some(g)
    ensures forall m :: m in ms && m.shareGroup == Some(g) ==> m in r
    ensures |r| <= |ms|
  {
    if ms == [] then []
    else (if ms[|ms| - 1].shareGroup == Some(g) then [ms[|ms| - 1]] else []) + GroupOf(ms[..|ms| - 1], g)
  }

  /** A membership created after `ms` heads its group's list: groups are
      listed newest first. */
  lemma NewestFirst(ms: seq<Membership>, m: Membership, g: nat)
    ensures GroupOf(ms + [m], g) == (if m.shareGroup == Some(g) then [m] else []) + GroupOf(ms, g)
  {
    assert (ms + [m])[..|ms|] == ms;
  }

  // ---------------------------------------------------------------------
  // Membership
  // ---------------------------------------------------------------------

  class Membership {
    const period: Period
    const member: MemberId
    var role: Role
    var percentageBalance: real
    var numberOfShares: int
    var wonShares: int
    var shareResidue: int
    var shareGroup: Option<nat>
    var roscaCommission: int
    var isOwnerAccept: bool
    var isMemberAccept: bool

    constructor (period: Period, member: MemberId, numberOfShares: int)
      ensures this.period == period && this.member == member && IsNew(numberOfShares)
    {
      this.period := period;
      this.member := member;
      this.numberOfShares := numberOfShares;
      role := Role.Normal;
      percentageBalance := 0.0;
      wonShares := 0;
      shareResidue := 0;
      shareGroup := None;
      roscaCommission := 0;
      isOwnerAccept := true;
      isMemberAccept := true;
    }

    /** The fields as `Membership.objects.create` leaves them. */
    predicate IsNew(numberOfShares: int)
      reads this
    {
      && role == Role.Normal && percentageBalance == 0.0 && this.numberOfShares == numberOfShares
      && wonShares == 0 && shareResidue == 0 && shareGroup.None? && roscaCommission == 0
      && isOwnerAccept && isMemberAccept
    }

    /** Both the owner and the member accepted the enrolment. */
    predicate IsValid()
      reads this`isOwnerAccept, this`isMemberAccept
    {
      isOwnerAccept && isMemberAccept
    }

    /** What the membership must pay: its whole shares plus its part of a
        shared share. */
    function ShareAmount(): int
      reads this, period
    {
      numberOfShares * period.shareValue + shareResidue
    }

    /** The share amount measured in shares; Python raises
        ZeroDivisionError for a zero share value. */
    function ShareWeight(): (r: Result<real>)
      reads this, period
      ensures r.Ok? <==> period.shareValue != 0
      ensures r.Ok? ==> r.value * period.shareValue as real == ShareAmount() as real
    {
      if period.shareValue == 0 then Raised("ZeroDivisionError")
      else Ok(ShareAmount() as real / period.shareValue as real)
    }

    /** `int(round(percentage_balance * period.balance))`. */
    function Balance(): int
      reads this, period
    {
      RoundHalfEven(percentageBalance * period.Balance() as real)
    }

    /** The shares this membership may still win. */
    function NonWonShares(): (r: nat)
      reads this
      ensures r > 0 <==> IsValid() && wonShares < numberOfShares
      ensures IsValid() && 0 <= wonShares <= numberOfShares ==> r == numberOfShares - wonShares
    {
      if IsValid() && numberOfShares >= wonShares then numberOfShares - wonShares else 0
    }

    /** The commission the membership pays per cycle; `rate` stands for
        `Commission.calculate_cycle_commission`. */
    function Commission(rate: int -> int): (r: int)
      requires period.cashbox.periodIndex == 1 ==> period.cashbox.current != null
      reads this, period, period.cashbox, period.cashbox.current
      ensures period.cashbox.commissionType == Rosca ==> r == roscaCommission
      ensures period.cashbox.commissionType == Regular && period.cashbox.IsInTrialTime() ==> r == 0
      ensures period.cashbox.commissionType == Regular && !period.cashbox.IsInTrialTime() ==>
                r == if period.cashbox.commission.isManuallySet then period.cashbox.commission.cycleCommission
                     else rate(ShareAmount())
    {
      var box := period.cashbox;
      match box.commissionType
      case Regular =>
        if box.commission.isManuallySet then box.GetCycleCommission()
        else if box.IsInTrialTime() then 0
        else rate(ShareAmount())
      case Rosca => roscaCommission
    }

    function RemainingShare(): int
      reads this, period
    {
      ShareAmount() - Balance()
    }

    /** The commission on the unpaid part of the share amount. */
    function RemainingCommission(rate: int -> int): (r: Result<real>)
      requires period.cashbox.periodIndex == 1 ==> period.cashbox.current != null
      reads this, period, period.cashbox, period.cashbox.current
      ensures r.Ok? <==> ShareAmount() != 0
      ensures r.Ok? ==> r.value * ShareAmount() as real == RemainingShare() as real * Commission(rate) as real
      ensures r.Ok? && Balance() == ShareAmount() ==> r.value == 0.0
      ensures r.Ok? && Balance() == 0 ==> r.value == Commission(rate) as real
    {
      if ShareAmount() == 0 then Raised("ZeroDivisionError")
      else Ok((RemainingShare() as real / ShareAmount() as real) * Commission(rate) as real)
    }

    /** The commission due on a payment of `amount`. */
    function RemainingCommissionPerAmount(amount: real, zeroCommissionFeature: bool,
                                          paymentFeature: bool, rate: int -> int): (r: Result<real>)
      requires period.cashbox.periodIndex == 1 ==> period.cashbox.current != null
      reads this, period, period.cashbox, period.cashbox.current
      ensures zeroCommissionFeature || !paymentFeature ==> r == Ok(0.0)
      ensures r.Raised? <==> !zeroCommissionFeature && paymentFeature && ShareAmount() == 0
      ensures r.Ok? && paymentFeature && !zeroCommissionFeature ==>
                r.value * ShareAmount() as real == amount * Commission(rate) as real
    {
      if zeroCommissionFeature || !paymentFeature then Ok(0.0)
      else if ShareAmount() == 0 then Raised("ZeroDivisionError")
      else Ok((amount / ShareAmount() as real) * Commission(rate) as real)
    }

    predicate HaveNotificationAnnounce()
      reads this, period, period.cashbox
    {
      AnnouncedTo(period.cashbox.notificationAnnounce, role)
    }

    predicate HaveSmsAnnounce()
      reads this, period, period.cashbox
    {
      AnnouncedTo(period.cashbox.smsAnnounce, role)
    }

    /** Counts one more won share, unless all shares are won already. */
    method MakeWinner() returns (r: int)
      modifies this`wonShares
      ensures old(wonShares) == numberOfShares ==> r == -1 && wonShares == old(wonShares)
      ensures old(wonShares) != numberOfShares ==> r == wonShares == old(wonShares) + 1
    {
      if wonShares == numberOfShares {
        return -1;
      }
      wonShares := wonShares + 1;
      r := wonShares;
    }

    /** One won share less, never below zero. */
    method UnmakeWinner()
      modifies this`wonShares
      ensures wonShares == if old(wonShares) > 0 then old(wonShares) - 1 else old(wonShares)
    {
      if wonShares > 0 {
        wonShares := wonShares - 1;
      }
    }

    /** Empties the membership's balance and returns what it was; paid out
        to the box's bank account, the current period's bank balance drops
        by that amount. */
    method ResetBalance(destination: Account) returns (previous: int)
      requires destination == BoxBankAccount ==> period.cashbox.current != null
      modifies this`percentageBalance
      modifies (if destination == BoxBankAccount then {period.cashbox.current} else {})`bankBalance
      ensures previous == old(Balance()) && percentageBalance == 0.0
      ensures destination == BoxBankAccount ==>
                period.cashbox.current.bankBalance == old(period.cashbox.current.bankBalance) - previous
      ensures Balance() == 0
    {
      previous := Balance();
      percentageBalance := 0.0;
      if destination == BoxBankAccount {
        var p := period.cashbox.current;
        p.bankBalance := p.bankBalance - previous;
      }
    }

    /** Like ResetBalance, and also forgets every won share. */
    method Reset(destination: Account)
      requires destination == BoxBankAccount ==> period.cashbox.current != null
      modifies this`percentageBalance, this`wonShares
      modifies (if destination == BoxBankAccount then {period.cashbox.current} else {})`bankBalance
      ensures percentageBalance == 0.0 && wonShares == 0
      ensures destination == BoxBankAccount ==>
                period.cashbox.current.bankBalance == old(period.cashbox.current.bankBalance) - old(Balance())
    {
      var current := Balance();
      percentageBalance := 0.0;
      wonShares := 0;
      if destination == BoxBankAccount {
        var p := period.cashbox.current;
        p.bankBalance := p.bankBalance - current;
      }
    }

    method SetShareGroup(group: Option<nat>, residue: int)
      modifies this`shareGroup, this`shareResidue
      ensures shareGroup == group && shareResidue == residue
    {
      shareGroup := group;
      shareResidue := residue;
    }

    method ResetShareGroup()
      modifies this`shareGroup, this`shareResidue
      ensures shareGroup.None? && shareResidue == 0
    {
      SetShareGroup(None, 0);
    }

    /** Withdraws both acceptances, then removes the membership from its
        period. */
    method Delete()
      requires period.Valid() && this in period.memberships
      modifies this`isOwnerAccept, this`isMemberAccept, period`memberships
      ensures !isOwnerAccept && !isMemberAccept
      ensures period.memberships == Without(old(period.memberships), this)
      ensures this !in period.memberships && period.Valid()
    {
      isMemberAccept := false;
      isOwnerAccept := false;
      WithoutKeepsUnique(period.memberships, this);
      period.memberships := Without(period.memberships, this);
    }
  }

  predicate AnnouncedTo(mode: AnnounceMode, role: Role)
  {
    match mode
    case Silent => false
    case JustOwner => role == Role.Owner
    case AnnounceAll => true
  }

  lemma {:induction false} WithoutKeepsUnique(ms: seq<Membership>, x: Membership)
    requires UniqueMembers(ms)
    ensures UniqueMembers(Without(ms, x))
  {
    if ms != [] {
      var init, last := ms[..|ms| - 1], ms[|ms| - 1];
      WithoutKeepsUnique(init, x);
      var w := Without(init, x);
      if last != x {
        assert Without(ms, x) == w + [last];
        assert (w + [last])[..|w|] == w;
      } else {
        assert Without(ms, x) == w;
      }
    }
  }

  // ---------------------------------------------------------------------
  // Cycle
  // ---------------------------------------------------------------------

  class Cycle {
    const id: nat
    const period: Period
    const index: int
    var drawingDate: Option<Date>
    var isManuallyDrawn: bool
    var winner: Option<MemberId>
    var winners: seq<Winner>

    constructor (id: nat, period: Period, index: int)
      ensures this.id == id && this.period == period && this.index == index
      ensures drawingDate.None? && !isManuallyDrawn && winner.None? && winners == []
    {
      this.id := id;
      this.period := period;
      this.index := index;
      drawingDate := None;
      isManuallyDrawn := false;
      winner := None;
      winners := [];
    }

    /** A cycle is drawn once a Winner row refers to it. */
    predicate IsDrawn()
      reads this
    {
      winners != []
    }

    /** The draw's three preconditions: no winner yet, the box holds the
        satisfactory amount, and nobody owes part of a share. */
    predicate ReadyToDraw()
      requires period.Valid() && period.cashbox.current == period
      reads this, period, period.memberships, period.cashbox
    {
      && winner.None?
      && period.cashbox.IsFinanciallySatisfied()
      && !period.HasUnpaidMemberships()
    }

    /** Who a draw picks: the given winner (manual), the owner on the
        first cycle of a manager-first period, or the candidate at `pick`
        (taken modulo the number of candidates) in the weighted lottery.
        `random.choice` raises IndexError on an empty lottery, and so does
        looking up the membership of an absent owner. */
    function Chosen(given: Option<MemberId>, pick: nat): (r: Result<Pick>)
      reads this, period, period.memberships
      ensures given.Some? ==> r == Ok(Pick(given.value, true))
      ensures given.None? && index == 1 && period.isManagerFirstWinner ==>
                (r.Ok? <==> period.Owner().Some?) && (r.Ok? ==> r.value == Pick(period.Owner().value, true))
      ensures r.Ok? && !r.value.manual ==> r.value.member in Candidates(period.ValidMemberships())
    {
      if given.Some? then Ok(Pick(given.value, true))
      else if index == 1 && period.isManagerFirstWinner then
        match period.Owner()
        case Some(o) => Ok(Pick(o, true))
        case None => Raised("IndexError: list index out of range")
      else
        var chances := Candidates(period.ValidMemberships());
        if chances == [] then Raised("IndexError: Cannot choose from an empty sequence")
        else Ok(Pick(chances[pick % |chances|], false))
    }

    /** Builds `total_member_chances`: every member once per non-won share. */
    method TotalMemberChances(ms: seq<Membership>) returns (chances: seq<MemberId>)
      ensures chances == Candidates(ms)
    {
      chances := [];
      var i := 0;
      while i < |ms|
        invariant 0 <= i <= |ms|
        invariant chances == Candidates(ms[..i])
      {
        var n := ms[i].NonWonShares();
        var j := 0;
        while j < n
          invariant 0 <= j <= n
          invariant chances == Candidates(ms[..i]) + Repeat(ms[i].member, j)
        {
          chances := chances + [ms[i].member];
          j := j + 1;
        }
        assert ms[..i + 1][..i] == ms[..i];
        i := i + 1;
      }
      assert ms[..i] == ms;
    }

    /** The winner a draw picks, with the lottery built as
        `total_member_chances` builds it. */
    method Choose(given: Option<MemberId>, pick: nat) returns (r: Result<Pick>)
      ensures r == Chosen(given, pick)
    {
      if given.Some? {
        return Ok(Pick(given.value, true));
      }
      if index == 1 && period.isManagerFirstWinner {
        var owner := period.Owner();
        if owner.None? {
          return Raised("IndexError: list index out of range");
        }
        return Ok(Pick(owner.value, true));
      }
      var chances := TotalMemberChances(period.ValidMemberships());
      if |chances| == 0 {
        return Raised("IndexError: Cannot choose from an empty sequence");
      }
      r := Ok(Pick(chances[pick % |chances|], false));
    }

    /** What paying a draw out changes: the winner's membership `wm` has
        one more won share (unless all were won), every valid membership's
        balance is emptied, and one transaction carries `amount` from the
        box into the winner's wallet. */
    twostate predicate PaidOut(w: MemberId, wm: Membership, amount: int, ledger: Ledger)
      reads period`memberships, (set m | m in period.memberships), ledger
    {
      && period.memberships == old(period.memberships)
      && ledger.transactions == old(ledger.transactions) +
           [NewTransaction(BoxBalance, HamyanWallet, None, Some(w), amount as real, CycleCtx(id))]
      && (forall m :: m in period.memberships ==>
            && old(allocated(m))
            && m.percentageBalance == (if old(m.IsValid()) then 0.0 else old(m.percentageBalance))
            && m.wonShares == (if m == wm && old(m.wonShares) != old(m.numberOfShares)
                               then old(m.wonShares) + 1 else old(m.wonShares)))
    }

    /** Draws the cycle. Returns None (and changes nothing) when the cycle
        is not ready; otherwise picks the winner, counts the won share,
        pays the whole box balance to the winner's wallet, empties every
        valid membership's balance and records one Winner. */
    method Draw(given: Option<MemberId>, pick: nat, today: Date, ledger: Ledger)
      returns (r: Result<Option<MemberId>>)
      requires period.Valid() && period.cashbox.current == period
      modifies this, (set m | m in period.memberships)`wonShares, (set m | m in period.memberships)`percentageBalance
      modifies ledger
      ensures period.memberships == old(period.memberships)
      ensures period.Balance() == old(period.Balance())
      ensures !old(ReadyToDraw()) ==>
                r == Ok(None) && unchanged(this, ledger) && unchanged(period.memberships)
      ensures old(ReadyToDraw()) && old(Chosen(given, pick)).Raised? ==>
                r.Raised? && unchanged(this, ledger) && unchanged(period.memberships)
      ensures old(ReadyToDraw()) && old(Chosen(given, pick)).Ok? ==>
                var p := old(Chosen(given, pick)).value;
                var found := old(FindMembership(period.memberships, p.member));
                && (found.None? ==> r.Raised? && unchanged(this, ledger) && unchanged(period.memberships))
                && (found.Some? ==>
                      && r == Ok(Some(p.member))
                      && winner == Some(p.member) && drawingDate == Some(today)
                      && isManuallyDrawn == p.manual
                      && winners == old(winners) + [Winner(this, found, None, old(period.SatisfactoryAmount()))]
                      && PaidOut(p.member, found.value, old(period.Balance()), ledger))
    {
      if winner.Some? {
        return Ok(None);
      }
      if !period.cashbox.IsFinanciallySatisfied() {
        return Ok(None);
      }
      if period.HasUnpaidMemberships() {
        return Ok(None);
      }
      var choice := Choose(given, pick);
      if choice.Raised? {
        return Raised(choice.error);
      }
      r := RecordWinner(choice.value, today, ledger);
    }

    /** The rest of a draw once the winner is chosen: pays the box out to
        the winner and records the Winner row with the satisfactory amount
        as its loan; IndexError when the winner has no membership. */
    method RecordWinner(p: Pick, today: Date, ledger: Ledger) returns (r: Result<Option<MemberId>>)
      requires period.Valid() && period.cashbox.current == period
      modifies this, (set m | m in period.memberships)`wonShares, (set m | m in period.memberships)`percentageBalance
      modifies ledger
      ensures period.memberships == old(period.memberships)
      ensures period.Balance() == old(period.Balance())
      ensures var found := old(FindMembership(period.memberships, p.member));
              && (found.None? ==> r.Raised? && unchanged(this, ledger) && unchanged(period.memberships))
              && (found.Some? ==>
                    && r == Ok(Some(p.member))
                    && winner == Some(p.member) && drawingDate == Some(today)
                    && isManuallyDrawn == p.manual
                    && winners == old(winners) + [Winner(this, found, None, old(period.SatisfactoryAmount()))]
                    && PaidOut(p.member, found.value, old(period.Balance()), ledger))
    {
      var found := FindMembership(period.memberships, p.member);
      if found.None? {
        return Raised("IndexError: list index out of range");
      }
      var loan := period.SatisfactoryAmount();
      var o := SetWinnerAndSetupTransaction(p.member, None, today, ledger);
      assert o.Done?;
      isManuallyDrawn := p.manual;
      winners := winners + [Winner(this, found, None, loan)];
      r := Ok(Some(p.member));
    }

    /** Sets the winner and drawing date, counts the won share and pays the
        whole box balance out of the box into the winner's wallet. */
    method SetWinnerAndSetupTransaction(w: MemberId, date: Option<Date>, today: Date, ledger: Ledger)
      returns (o: Outcome)
      requires period.Valid() && period.cashbox.current == period
      modifies this, (set m | m in period.memberships)`wonShares, (set m | m in period.memberships)`percentageBalance
      modifies ledger
      ensures period.memberships == old(period.memberships)
      ensures period.Balance() == old(period.Balance())
      ensures o.Done? <==> old(FindMembership(period.memberships, w)).Some?
      ensures o.Failed? ==> unchanged(this, ledger) && unchanged(period.memberships)
      ensures o.Done? ==>
                && winner == Some(w)
                && drawingDate == Some(if date.None? then today else date.value)
                && isManuallyDrawn == old(isManuallyDrawn) && winners == old(winners)
                && PaidOut(w, old(FindMembership(period.memberships, w)).value, old(period.Balance()), ledger)
    {
      var found := FindMembership(period.memberships, w);
      if found.None? {
        return Failed("IndexError: list index out of range");
      }
      var wm := found.value;
      winner := Some(w);
      drawingDate := if date.None? then Some(today) else date;
      var _ := wm.MakeWinner();
      var amount := period.cashbox.CheckoutBalanceAndReset();
      var _ := ledger.Create(NewTransaction(BoxBalance, HamyanWallet, None, Some(w), amount as real, CycleCtx(id)));
      o := Done;
    }

    /** Sets the winner and drawing date, counts the won share and records
        a Winner row, without any transaction. */
    method SetWinner(w: MemberId, date: Option<Date>, today: Date) returns (o: Outcome)
      requires period.Valid()
      modifies this, (set m | m in period.memberships)`wonShares
      ensures o.Done? <==> old(FindMembership(period.memberships, w)).Some?
      ensures o.Failed? ==> unchanged(this) && unchanged(period.memberships)
      ensures o.Done? ==>
                var wm := old(FindMembership(period.memberships, w)).value;
                && winner == Some(w)
                && drawingDate == Some(if date.None? then today else date.value)
                && winners == old(winners) + [Winner(this, Some(wm), None, old(period.SatisfactoryAmount()))]
                && isManuallyDrawn == old(isManuallyDrawn)
                && (forall m :: m in period.memberships ==>
                      m.wonShares == if m == wm && old(m.wonShares) != old(m.numberOfShares)
                                     then old(m.wonShares) + 1 else old(m.wonShares))
    {
      var found := FindMembership(period.memberships, w);
      if found.None? {
        return Failed("IndexError: list index out of range");
      }
      var wm := found.value;
      var loan := period.SatisfactoryAmount();
      winner := Some(w);
      drawingDate := if date.None? then Some(today) else date;
      var _ := wm.MakeWinner();
      winners := winners + [Winner(this, found, None, loan)];
      o := Done;
    }

    /** Undoes a draw's winner: one won share less for the winner's
        membership, no winner and no drawing date. Transactions and
        Winner rows are left as they are. */
    method RollbackWinner() returns (o: Outcome)
      requires period.Valid()
      modifies this, (set m | m in period.memberships)`wonShares
      ensures old(winner).None? ==> o.Done? && unchanged(this) && unchanged(period.memberships)
      ensures old(winner).Some? && old(FindMembership(period.memberships, winner.value)).None? ==>
                o.Failed? && unchanged(this) && unchanged(period.memberships)
      ensures old(winner).Some? && old(FindMembership(period.memberships, winner.value)).Some? ==>
                var wm := old(FindMembership(period.memberships, winner.value)).value;
                && o.Done? && winner.None? && drawingDate.None?
                && winners == old(winners) && isManuallyDrawn == old(isManuallyDrawn)
                && (forall m :: m in period.memberships ==>
                      m.wonShares == if m == wm && old(m.wonShares) > 0 then old(m.wonShares) - 1
                                     else old(m.wonShares))
    {
      if winner.None? {
        return Done;
      }
      var found := FindMembership(period.memberships, winner.value);
      if found.None? {
        return Failed("IndexError: list index out of range");
      }
      found.value.UnmakeWinner();
      winner := None;
      drawingDate := None;
      o := Done;
    }
  }

  // ---------------------------------------------------------------------
  // Cashbox
  // ---------------------------------------------------------------------

  class Cashbox {
    const id: nat
    var state: BoxState
    var periodIndex: int
    var commissionType: CommissionType
    var trustState: TrustState
    var isTest: bool
    var isArchived: bool
    var notificationAnnounce: AnnounceMode
    var smsAnnounce: AnnounceMode
    var commission: CommissionSettings
    var bankAccount: Option<BankAccountInfo>
    /** The result of `get_current_period()`: the period whose index is
        `period_index`, or null before one is initiated. */
    var current: Period?

    constructor (id: nat)
      ensures this.id == id && state == Unpaid && periodIndex == 1
      ensures commissionType == Regular && trustState == Trusted
      ensures !isTest && !isArchived && notificationAnnounce == JustOwner && smsAnnounce == JustOwner
      ensures bankAccount.None? && current == null
    {
      this.id := id;
      state := Unpaid;
      periodIndex := 1;
      commissionType := Regular;
      trustState := Trusted;
      isTest := false;
      isArchived := false;
      notificationAnnounce := JustOwner;
      smsAnnounce := JustOwner;
      commission := CommissionSettings(false, 0, 0);
      bankAccount := None;
      current := null;
    }

    /** The current period's balance, or 0 without a current period. */
    function Balance(): (b: int)
      reads this, current
      ensures current == null ==> b == 0
    {
      if current == null then 0 else current.Balance()
    }

    predicate IsWorriedBox()
      reads this
    {
      trustState in {WorriedUnverified, WorriedInProgress, WorriedVerified}
    }

    /** The payment multiplexers available: Payping for a verified Payping
        bank account, otherwise Hamyan for a worried box whose
        verification is in progress or done. */
    function MuxList(): (r: seq<MuxType>)
      reads this
      ensures |r| <= 1
      ensures Payping in r <==> bankAccount.Some? && bankAccount.value.hasPaypingAccount && bankAccount.value.paypingVerified
      ensures Hamyan in r <==> Payping !in r && trustState in {WorriedInProgress, WorriedVerified}
    {
      if bankAccount.Some? && bankAccount.value.hasPaypingAccount && bankAccount.value.paypingVerified then [Payping]
      else if trustState in {WorriedInProgress, WorriedVerified} then [Hamyan]
      else []
    }

    /** The first period's first `number_of_trial_cycles` cycles are free. */
    predicate IsInTrialTime()
      requires periodIndex == 1 ==> current != null
      reads this, current
    {
      periodIndex == 1 && current.cycleIndex <= commission.numberOfTrialCycles
    }

    function GetCycleCommission(): int
      requires periodIndex == 1 ==> current != null
      reads this, current
    {
      if IsInTrialTime() then 0 else commission.cycleCommission
    }

    predicate IsFinanciallySatisfied()
      requires current != null && current.Valid()
      reads this, current, current.memberships
    {
      Balance() == current.SatisfactoryAmount()
    }

    /** Whether the box may be deleted. `paidPackageRunning` stands for the
        loop over the box's orders: some order was paid and its service
        package still has days left. */
    function IsRemovable(paidPackageRunning: bool, txs: seq<Transaction>): (r: Result<bool>)
      reads this, current
      ensures paidPackageRunning ==> r == Ok(false)
      ensures !paidPackageRunning && state != Activated && periodIndex <= 1 ==> r == Ok(true)
      ensures r.Raised? <==> !paidPackageRunning && !(state != Activated && periodIndex <= 1) && current == null
      ensures !paidPackageRunning && !(state != Activated && periodIndex <= 1) && current != null ==>
                (r == Ok(false) <==> (!current.isTerminated &&
                  HasSuccessfulCycleTx(txs, current.CycleIds(), {BoxBalance, BoxBankAccount}, None)))
    {
      if paidPackageRunning then Ok(false)
      else if state != Activated && periodIndex <= 1 then Ok(true)
      else if current == null then Raised("AttributeError: 'NoneType' object has no attribute 'is_terminated'")
      else if !current.isTerminated then
        Ok(!HasSuccessfulCycleTx(txs, current.CycleIds(), {BoxBalance, BoxBankAccount}, None))
      else Ok(true)
    }

    /** Pays the box out: returns the balance and empties the balance of
        every valid membership of the current period. */
    method CheckoutBalanceAndReset() returns (returned: int)
      requires current != null && current.Valid() && current.cashbox == this
      modifies (set m | m in current.memberships)`percentageBalance
      ensures returned == old(Balance())
      ensures forall m :: m in current.memberships ==>
                m.percentageBalance == if m.IsValid() then 0.0 else old(m.percentageBalance)
      ensures forall m :: m in current.memberships && m.IsValid() ==> m.Balance() == 0
    {
      returned := Balance();
      var vm := current.ValidMemberships();
      var i := 0;
      while i < |vm|
        invariant 0 <= i <= |vm|
        invariant forall m :: m in current.memberships ==>
                    m.percentageBalance == if m in vm[..i] then 0.0 else old(m.percentageBalance)
      {
        var _ := vm[i].ResetBalance(BoxBalance);
        i := i + 1;
      }
      assert vm[..i] == vm;
    }

    /** Who pays a cashout (the owner) and what it pays for (the current
        cycle). */
    function CashoutPayer(): Option<MemberId>
      requires current != null
      reads this, current, current.memberships
    {
      current.Owner()
    }

    function CashoutCtx(): Context
      requires current != null && current.CurrentCycle() != null
      reads this, current
    {
      CycleCtx(current.CurrentCycle().id)
    }

    /** `create_cashout`: a cashout transaction from the box to a member's
        bank account, refused (None) when it exceeds the balance or has
        no receiver. */
    method CreateCashout(amount: real, member: Option<MemberId>, state: TxState, ledger: Ledger)
      returns (t: Option<nat>)
      requires amount <= Balance() as real && member.Some? ==>
                 current != null && current.CurrentCycle() != null
      modifies ledger
      ensures amount > old(Balance()) as real || member.None? ==>
                t.None? && ledger.transactions == old(ledger.transactions)
      ensures amount <= old(Balance()) as real && member.Some? ==>
                t == Some(|old(ledger.transactions)|) &&
                ledger.transactions == old(ledger.transactions) +
                  [CashoutTx(amount, CashoutPayer(), member.value, CashoutCtx(), state)]
    {
      if amount > Balance() as real {
        return None;
      }
      if member.None? {
        return None;
      }
      var id := ledger.Create(CashoutTx(amount, CashoutPayer(), member.value, CashoutCtx(), state));
      t := Some(id);
    }

    /** The winner's payout: one cashout of the loan for a membership
        winner; for a share-group winner one cashout per group member of
        the loan times its residue over the share value, reporting whether
        every portion was created. */
    method CreateCashoutForWinner(w: Winner, state: TxState, ledger: Ledger) returns (r: WinnerCashout)
      requires current != null && current.CurrentCycle() != null
      modifies ledger
      ensures w.membership.Some? && w.shareGroup.None? ==>
                (w.loanAmount as real > old(Balance()) as real ==>
                   r == Single(None) && ledger.transactions == old(ledger.transactions)) &&
                (w.loanAmount as real <= old(Balance()) as real ==>
                   r == Single(Some(|old(ledger.transactions)|)) &&
                   ledger.transactions == old(ledger.transactions) +
                     [CashoutTx(w.loanAmount as real, CashoutPayer(), w.membership.value.member, CashoutCtx(), state)])
      ensures w.membership.None? && w.shareGroup.Some? ==>
                var p := w.cycle.period;
                var group := old(p.GroupMemberships(w.shareGroup.value));
                if group != [] && p.shareValue == 0 then
                  r.PortionsRaised? && ledger.transactions == old(ledger.transactions)
                else
                  && ledger.transactions == old(ledger.transactions) +
                       Legs(old(SharesOf(group)), w.loanAmount, p.shareValue, Balance(), CashoutPayer(), CashoutCtx(), state)
                  && r == Portions(forall k :: 0 <= k < |group| ==>
                                     Portion(w.loanAmount, old(group[k].shareResidue), p.shareValue) <= Balance() as real)
      ensures w.membership.Some? == w.shareGroup.Some? ==>
                r == NotAssigned && ledger.transactions == old(ledger.transactions)
    {
      if w.membership.Some? && w.shareGroup.None? {
        var t := CreateCashout(w.loanAmount as real, Some(w.membership.value.member), state, ledger);
        return Single(t);
      } else if w.membership.None? && w.shareGroup.Some? {
        var p := w.cycle.period;
        var group := p.GroupMemberships(w.shareGroup.value);
        if group != [] && p.shareValue == 0 {
          return PortionsRaised("ZeroDivisionError");
        }
        var shares := SharesOf(group);
        var created := CreateGroupCashouts(shares, w.loanAmount, p.shareValue, state, ledger);
        LegsAllCreated(shares, w.loanAmount, p.shareValue, Balance(), CashoutPayer(), CashoutCtx(), state);
        return Portions(created == |group|);
      }
      return NotAssigned;
    }

    /** One cashout per member of a share group, given as (member,
        residue) pairs, of the loan times the residue over the share value;
        returns how many `create_cashout` accepted. */
    method CreateGroupCashouts(shares: seq<(MemberId, int)>, loan: int, shareValue: int,
                               state: TxState, ledger: Ledger)
      returns (created: nat)
      requires current != null && current.CurrentCycle() != null
      modifies ledger
      ensures ledger.transactions == old(ledger.transactions) +
                Legs(shares, loan, shareValue, Balance(), CashoutPayer(), CashoutCtx(), state)
      ensures created == |Legs(shares, loan, shareValue, Balance(), CashoutPayer(), CashoutCtx(), state)|
    {
      var balance, payer, ctx := Balance(), CashoutPayer(), CashoutCtx();
      created := 0;
      var i := 0;
      while i < |shares|
        invariant 0 <= i <= |shares|
        invariant balance == Balance() && payer == CashoutPayer() && ctx == CashoutCtx()
        invariant ledger.transactions == old(ledger.transactions) +
                    Legs(shares[..i], loan, shareValue, balance, payer, ctx, state)
        invariant created == |Legs(shares[..i], loan, shareValue, balance, payer, ctx, state)|
      {
        var amount := Portion(loan, shares[i].1, shareValue);
        var t := CreateCashout(amount, Some(shares[i].0), state, ledger);
        assert shares[..i + 1][..i] == shares[..i];
        if t.Some? {
          created := created + 1;
        }
        i := i + 1;
      }
      assert shares[..i] == shares;
    }

    /** What `create_cashout_for_winner` adds to the ledger for winner
        `w`, or None when it raises ZeroDivisionError (a share group in a
        period whose share value is 0). */
    function WinnerPayout(w: Winner, state: TxState): Option<seq<Transaction>>
      requires current != null && current.CurrentCycle() != null
      reads this, current, current.memberships, w.cycle.period, w.cycle.period.memberships
    {
      if w.membership.Some? && w.shareGroup.None? then
        Some(if w.loanAmount as real > Balance() as real then []
             else [CashoutTx(w.loanAmount as real, CashoutPayer(), w.membership.value.member, CashoutCtx(), state)])
      else if w.membership.None? && w.shareGroup.Some? then
        var p := w.cycle.period;
        var group := p.GroupMemberships(w.shareGroup.value);
        if group != [] && p.shareValue == 0 then None
        else Some(Legs(SharesOf(group), w.loanAmount, p.shareValue, Balance(), CashoutPayer(), CashoutCtx(), state))
      else Some([])
    }

    /** `create_cashout_for_winner` for `w`, whose payout is `payout`
        (see WinnerPayout): whether it raised, and the ledger it leaves. */
    method PayWinner(w: Winner, state: TxState, ghost payout: Option<seq<Transaction>>, ledger: Ledger)
      returns (raised: bool)
      requires current != null && current.CurrentCycle() != null
      requires payout == WinnerPayout(w, state)
      modifies ledger
      ensures raised <==> payout.None?
      ensures raised ==> ledger.transactions == old(ledger.transactions)
      ensures !raised ==> ledger.transactions == old(ledger.transactions) + payout.value
    {
      var r := CreateCashoutForWinner(w, state, ledger);
      raised := r.PortionsRaised?;
    }

    /** The payout of each of `winners` (see WinnerPayout). */
    function Payouts(winners: seq<Winner>, state: TxState): (ps: seq<Option<seq<Transaction>>>)
      requires current != null && current.CurrentCycle() != null
      reads this, current, current.memberships, set w | w in winners :: w.cycle.period
      reads set w, k | w in winners && 0 <= k < |w.cycle.period.memberships| :: w.cycle.period.memberships[k]
      ensures |ps| == |winners|
      ensures forall k :: 0 <= k < |winners| ==> ps[k] == WinnerPayout(winners[k], state)
    {
      if winners == [] then []
      else Payouts(winners[..|winners| - 1], state) + [WinnerPayout(winners[|winners| - 1], state)]
    }

    /** The batch draw: refuses (-1) before choosing anyone when the
        payouts would exceed the balance, then lets `choose_winners`
        (the parameter `choose`, given the winners count in which -1 and 0
        stand for `number_of_loans`) pick the winners, -2 when it finds
        none, and, when asked to, pays the winners out in order. A payout
        that raises ends the draw with that exception, keeping the
        payouts made before it. */
    method Draw(winnersCount: int, amount: int, createCashouts: bool, numberOfLoans: int,
                choose: int -> Option<seq<Winner>>, txState: TxState, ledger: Ledger)
      returns (r: BatchDraw)
      requires createCashouts ==> current != null && current.CurrentCycle() != null
      modifies ledger
      ensures old(state) == Inactivated ==> r == BoxInactive && ledger.transactions == old(ledger.transactions)
      ensures old(state) != Inactivated && createCashouts && winnersCount * amount > Balance() ==>
                r == OverBalance && ledger.transactions == old(ledger.transactions)
      ensures old(state) != Inactivated && !(createCashouts && winnersCount * amount > Balance()) ==>
                var count := if winnersCount in {-1, 0} then numberOfLoans else winnersCount;
                && (choose(count).None? ==> r == NoWinners && ledger.transactions == old(ledger.transactions))
                && (choose(count).Some? && !createCashouts ==>
                      r == Winners(choose(count).value) && ledger.transactions == old(ledger.transactions))
                && (choose(count).Some? && createCashouts ==>
                      var payouts := UpToRaise(Payouts(choose(count).value, txState));
                      && ledger.transactions == old(ledger.transactions) + payouts.0
                      && r == if payouts.1 then PayoutRaised("ZeroDivisionError") else Winners(choose(count).value))
    {
      if this.state == Inactivated {
        return BoxInactive;
      }
      if createCashouts && winnersCount * amount > Balance() {
        return OverBalance;
      }
      var count := if winnersCount in {-1, 0} then numberOfLoans else winnersCount;
      var chosen := choose(count);
      if chosen.None? {
        return NoWinners;
      }
      var ws := chosen.value;
      if createCashouts {
        r := PayWinners(ws, txState, ledger);
      } else {
        r := Winners(ws);
      }
    }

    /** The payouts of `draw`: pays the winners `ws` out in order and ends
        the draw with the exception of the first payout that raises. */
    method PayWinners(ws: seq<Winner>, txState: TxState, ledger: Ledger) returns (r: BatchDraw)
      requires current != null && current.CurrentCycle() != null
      modifies ledger
      ensures var payouts := UpToRaise(Payouts(ws, txState));
              && ledger.transactions == old(ledger.transactions) + payouts.0
              && r == if payouts.1 then PayoutRaised("ZeroDivisionError") else Winners(ws)
    {
      ghost var ps := Payouts(ws, txState);
      var raised := PayInOrder(ws, txState, ps, ledger);
      assert Payouts(ws, txState) == ps;
      r := if raised then PayoutRaised("ZeroDivisionError") else Winners(ws);
    }

    /** The loop of `draw` over its winners, whose payouts are `ps`. */
    method PayInOrder(ws: seq<Winner>, txState: TxState, ghost ps: seq<Option<seq<Transaction>>>, ledger: Ledger)
      returns (raised: bool)
      requires current != null && current.CurrentCycle() != null
      requires |ps| == |ws| && forall k :: 0 <= k < |ws| ==> ps[k] == WinnerPayout(ws[k], txState)
      modifies ledger
      ensures ledger.transactions == old(ledger.transactions) + UpToRaise(ps).0
      ensures raised == UpToRaise(ps).1
    {
      var i := 0;
      raised := false;
      while i < |ws| && !raised
        invariant 0 <= i <= |ws|
        invariant ledger.transactions == old(ledger.transactions) + UpToRaise(ps[..i]).0
        invariant raised == UpToRaise(ps[..i]).1
      {
        UpToRaiseStep(ps, i);
        ghost var made := ledger.transactions;
        assert ps[i] == WinnerPayout(ws[i], txState);
        raised := PayWinner(ws[i], txState, ps[i], ledger);
        if !raised {
          assert ledger.transactions == made + ps[i].value;
          AppendAssoc(old(ledger.transactions), UpToRaise(ps[..i]).0, ps[i].value);
        }
        i := i + 1;
      }
      if raised {
        RaisedPrefix(ps, i);
      } else {
        assert ps[..i] == ps;
      }
    }

    /** Draws the current cycle, then opens the next cycle while shares
        remain to be won, or inactivates the box when none remain -
        whatever the draw returned. An inactivated box does nothing. */
    method DrawCycleAndStartNew(given: Option<MemberId>, pick: nat, today: Date,
                                newCycleId: nat, ledger: Ledger)
      returns (r: Result<Option<MemberId>>)
      requires current != null && current.Valid() && current.cashbox == this
      requires current.CurrentCycle() != null
      modifies this`state, current`cycles, current`cycleIndex, current.CurrentCycle()
      modifies (set m | m in current.memberships)`wonShares, (set m | m in current.memberships)`percentageBalance
      modifies ledger
      ensures current == old(current) && current.Valid()
      ensures old(state) == Inactivated ==>
                r == Ok(None) && unchanged(this, current, ledger) &&
                unchanged(current.memberships) && unchanged(current.cycles)
      ensures current.memberships == old(current.memberships)
      ensures old(state) != Inactivated ==>
                var c := old(current.CurrentCycle());
                && (!old(c.ReadyToDraw()) ==>
                      r == Ok(None) && unchanged(c, ledger) && unchanged(current.memberships))
                && (old(c.ReadyToDraw()) && old(c.Chosen(given, pick)).Raised? ==>
                      r.Raised? && unchanged(c, ledger) && unchanged(current.memberships))
                && (old(c.ReadyToDraw()) && old(c.Chosen(given, pick)).Ok? ==>
                      var p := old(c.Chosen(given, pick)).value;
                      var found := old(FindMembership(current.memberships, p.member));
                      && (found.None? ==> r.Raised? && unchanged(c, ledger) && unchanged(current.memberships))
                      && (found.Some? ==>
                            && r == Ok(Some(p.member))
                            && c.winner == Some(p.member) && c.drawingDate == Some(today)
                            && c.isManuallyDrawn == p.manual
                            && c.winners == old(c.winners) + [Winner(c, found, None, old(current.SatisfactoryAmount()))]
                            && c.PaidOut(p.member, found.value, old(current.Balance()), ledger)))
      ensures old(state) != Inactivated && r.Ok? ==>
                if current.NumberOfRemainedCycles() > 0 then
                  state == old(state) && current.cycleIndex == old(current.cycleIndex) + 1 &&
                  |current.cycles| == old(|current.cycles|) + 1 &&
                  current.cycles[..old(|current.cycles|)] == old(current.cycles)
                else
                  state == Inactivated && current.cycles == old(current.cycles) &&
                  current.cycleIndex == old(current.cycleIndex)
      ensures old(state) != Inactivated && r.Raised? ==>
                state == old(state) && current.cycles == old(current.cycles)
    {
      if state == Inactivated {
        return Ok(None);
      }
      var p := current;
      var cycle := p.CurrentCycle();
      assert cycle in p.cycles;
      r := cycle.Draw(given, pick, today, ledger);
      if r.Raised? {
        return;
      }
      ContinueOrInactivate(newCycleId);
    }

    /** After a draw: the next cycle while shares remain to be won, else
        the box becomes inactivated. */
    method ContinueOrInactivate(newCycleId: nat)
      requires current != null && current.Valid()
      modifies this`state, current`cycles, current`cycleIndex
      ensures current.Valid()
      ensures if current.NumberOfRemainedCycles() > 0 then
                state == old(state) && current.cycleIndex == old(current.cycleIndex) + 1 &&
                |current.cycles| == old(|current.cycles|) + 1 &&
                current.cycles[..old(|current.cycles|)] == old(current.cycles)
              else
                state == Inactivated && current.cycles == old(current.cycles) &&
                current.cycleIndex == old(current.cycleIndex)
    {
      if current.NumberOfRemainedCycles() > 0 {
        var c := current.CreateNewCycle(newCycleId);
        assert current.cycles[..old(|current.cycles|)] == old(current.cycles);
      } else {
        state := Inactivated;
      }
    }

    /** The members who get notifications. */
    function GetNotificationMembers(): seq<MemberId>
      reads this, current, if current == null then {} else set m | m in current.memberships
    {
      Recipients(notificationAnnounce)
    }

    /** The members who get text messages. */
    function GetSmsMembers(): seq<MemberId>
      reads this, current, if current == null then {} else set m | m in current.memberships
    {
      Recipients(smsAnnounce)
    }

    /** Nobody for an archived or silent box, the owners in just-owner
        mode, every member of the current period otherwise. */
    function Recipients(mode: AnnounceMode): (r: seq<MemberId>)
      reads this, current, if current == null then {} else set m | m in current.memberships
      ensures isArchived || mode == Silent || current == null ==> r == []
      ensures !isArchived && current != null ==>
                forall w :: w in r <==> exists m :: m in current.memberships && m.member == w && AnnouncedTo(mode, m.role)
    {
      if isArchived || mode == Silent || current == null then []
      else if mode == JustOwner then MembersOf(current.memberships, Some(Role.Owner))
      else MembersOf(current.memberships, None)
    }

    /** Sets the trust state; without one the box becomes trusted. */
    method UpdateTrustState(s: Option<TrustState>)
      modifies this`trustState
      ensures trustState == if s.None? then Trusted else s.value
    {
      trustState := if s.None? then Trusted else s.value;
    }
  }

  /** The cashout transaction `create_cashout` records. */
  function CashoutTx(amount: real, payer: Option<MemberId>, receiver: MemberId, ctx: Context, state: TxState): Transaction
  {
    Transaction(BoxBalance, MemberBankAccount, payer, Some(receiver), amount, 0.0, ctx, state, false, None, None, None)
  }

  /** Payouts made in order up to the first that raises (None): the
      transactions they add, and whether one raised. */
  function UpToRaise(ps: seq<Option<seq<Transaction>>>): (seq<Transaction>, bool)
  {
    if ps == [] then ([], false)
    else
      var before := UpToRaise(ps[..|ps| - 1]);
      if before.1 then before
      else match ps[|ps| - 1]
        case None => (before.0, true)
        case Some(t) => (before.0 + t, false)
  }

  /** One more payout after a prefix that did not raise. */
  lemma UpToRaiseStep(ps: seq<Option<seq<Transaction>>>, i: nat)
    requires i < |ps| && !UpToRaise(ps[..i]).1
    ensures ps[i].None? ==> UpToRaise(ps[..i + 1]) == (UpToRaise(ps[..i]).0, true)
    ensures ps[i].Some? ==> UpToRaise(ps[..i + 1]) == (UpToRaise(ps[..i]).0 + ps[i].value, false)
  {
    assert ps[..i + 1][..i] == ps[..i];
  }

  /** Proof helper: sequence concatenation is associative. */
  lemma AppendAssoc(a: seq<Transaction>, b: seq<Transaction>, c: seq<Transaction>)
    ensures a + (b + c) == (a + b) + c
  {
  }

  /** Once a prefix of the payouts raises, the whole sequence ends where
      the prefix does. */
  lemma {:induction false} RaisedPrefix(ps: seq<Option<seq<Transaction>>>, n: nat)
    requires n <= |ps| && UpToRaise(ps[..n]).1
    ensures UpToRaise(ps) == UpToRaise(ps[..n])
  {
    if n < |ps| {
      var init := ps[..|ps| - 1];
      assert init[..n] == ps[..n];
      RaisedPrefix(init, n);
    } else {
      assert ps[..n] == ps;
    }
  }

  /** Without a raise, the payouts are every winner's transactions in
      turn. */
  lemma {:induction false} NoRaiseIsAllPayouts(ps: seq<Option<seq<Transaction>>>)
    requires forall k :: 0 <= k < |ps| ==> ps[k].Some?
    ensures !UpToRaise(ps).1
    ensures UpToRaise(ps).0 == Concat(ps)
  {
    if ps != [] {
      NoRaiseIsAllPayouts(ps[..|ps| - 1]);
    }
  }

  /** The transactions of every payout, in order. */
  function Concat(ps: seq<Option<seq<Transaction>>>): seq<Transaction>
  {
    if ps == [] then []
    else Concat(ps[..|ps| - 1]) + (if ps[|ps| - 1].Some? then ps[|ps| - 1].value else [])
  }

  /** The (member, residue) pairs of a share group's memberships. */
  function SharesOf(group: seq<Membership>): (r: seq<(MemberId, int)>)
    reads set m | m in group
    ensures |r| == |group|
    ensures forall k :: 0 <= k < |group| ==> r[k] == (group[k].member, group[k].shareResidue)
  {
    if group == [] then [] else SharesOf(group[..|group| - 1]) + [(group[|group| - 1].member, group[|group| - 1].shareResidue)]
  }

  /** The cashouts of a share group's payout that `create_cashout`
      accepts (those within the balance), in the group's order. */
  function Legs(shares: seq<(MemberId, int)>, loan: int, shareValue: int, balance: int,
                payer: Option<MemberId>, ctx: Context, state: TxState): seq<Transaction>
  {
    if shares == [] then []
    else
      var last := shares[|shares| - 1];
      var amount := Portion(loan, last.1, shareValue);
      Legs(shares[..|shares| - 1], loan, shareValue, balance, payer, ctx, state) +
        (if amount <= balance as real then [CashoutTx(amount, payer, last.0, ctx, state)] else [])
  }

  /** Every portion is paid out exactly when each is within the balance. */
  lemma {:induction false} LegsAllCreated(shares: seq<(MemberId, int)>, loan: int, shareValue: int, balance: int,
                                          payer: Option<MemberId>, ctx: Context, state: TxState)
    ensures |Legs(shares, loan, shareValue, balance, payer, ctx, state)| <= |shares|
    ensures |Legs(shares, loan, shareValue, balance, payer, ctx, state)| == |shares| <==>
              forall k :: 0 <= k < |shares| ==> Portion(loan, shares[k].1, shareValue) <= balance as real
  {
    if shares != [] {
      var init := shares[..|shares| - 1];
      LegsAllCreated(init, loan, shareValue, balance, payer, ctx, state);
      assert forall k :: 0 <= k < |init| ==> init[k] == shares[k];
    }
  }

  /** A group member's part of the loan: `loan * residue / share_value`,
      as Python's true division. */
  function Portion(loan: int, residue: int, shareValue: int): real
  {
    if shareValue == 0 then 0.0 else (loan * residue) as real / shareValue as real
  }
}
