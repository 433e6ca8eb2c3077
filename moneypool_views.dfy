/**
 * The moneypool views: the state and type a new pool starts in, the
 * guards and effects of an update, archiving, and the order in which
 * loans and cash-ins/cash-outs are listed.
 *
 * The pool's own creation helpers (`set_or_update_share_value`,
 * `initiate_next_interval`, `create_owner_poolship`,
 * `create_moneypool_commission`), the serializers' field validation and
 * `transfer_hamyan_balance_to_bank` are not part of this model: a
 * serializer's verdict is a parameter, a creation is returned as the
 * decision it is made from, and a transfer is reported as a flag.
 */
module MoneypoolViews {
  import opened Common
  import opened Ledger
  import Cashbox
  import opened Moneypool

  // ---------------------------------------------------------------------------
  // create_moneypool

  /** What the creation rule needs of a box or pool the caller owns. */
  datatype OwnedBox = OwnedBox(unlimited: bool, state: Cashbox.BoxState, isTest: bool, isArchived: bool)

  /** An owned cashbox that makes the next pool unpaid: no unlimited-box
      permission, not unpaid, not a test box, not archived. */
  predicate CashboxBlocks(b: OwnedBox)
  {
    !b.unlimited && b.state != Cashbox.Unpaid && !b.isTest && !b.isArchived
  }

  /** An owned moneypool that makes the next pool unpaid (test pools count). */
  predicate MoneypoolBlocks(b: OwnedBox)
  {
    !b.unlimited && b.state != Cashbox.Unpaid && !b.isArchived
  }

  predicate HasBlockingBox(cashboxes: seq<OwnedBox>, moneypools: seq<OwnedBox>)
  {
    || (exists k :: 0 <= k < |cashboxes| && CashboxBlocks(cashboxes[k]))
    || (exists k :: 0 <= k < |moneypools| && MoneypoolBlocks(moneypools[k]))
  }

  /** The state a new pool starts in: unpaid when the caller already owns
      a blocking cashbox or moneypool, else activated. */
  method InitialState(cashboxes: seq<OwnedBox>, moneypools: seq<OwnedBox>) returns (state: Cashbox.BoxState)
    ensures state == Cashbox.Unpaid <==> HasBlockingBox(cashboxes, moneypools)
    ensures state == Cashbox.Activated <==> !HasBlockingBox(cashboxes, moneypools)
  {
    state := Cashbox.Activated;
    if |cashboxes| + |moneypools| > 0 {
      for k := 0 to |cashboxes|
        invariant state == Cashbox.Unpaid <==> exists i :: 0 <= i < k && CashboxBlocks(cashboxes[i])
        invariant state == Cashbox.Activated || state == Cashbox.Unpaid
      {
        if CashboxBlocks(cashboxes[k]) {
          state := Cashbox.Unpaid;
        }
      }
      for k := 0 to |moneypools|
        invariant state == Cashbox.Unpaid <==>
                    (exists i :: 0 <= i < |cashboxes| && CashboxBlocks(cashboxes[i]))
                    || (exists i :: 0 <= i < k && MoneypoolBlocks(moneypools[i]))
        invariant state == Cashbox.Activated || state == Cashbox.Unpaid
      {
        if MoneypoolBlocks(moneypools[k]) {
          state := Cashbox.Unpaid;
        }
      }
    }
  }

  datatype Plan = HamyanPlan | OtherPlan
  datatype PoolType = Payable | Registrable | Hybrid | HybridSinglePay

  datatype PoolSettings = PoolSettings(kind: PoolType, notificationAnnounce: Cashbox.AnnounceMode,
                                       smsAnnounce: Cashbox.AnnounceMode)

  /** The Hamyan plan opens payable pools that announce to all; any other
      plan opens hybrid single-pay pools that announce to the owner only. */
  function PlanSettings(plan: Plan): (s: PoolSettings)
    ensures s.kind == Payable <==> plan == HamyanPlan
    ensures s.kind != Payable ==> s.kind == HybridSinglePay
    ensures plan == HamyanPlan ==> s.notificationAnnounce == Cashbox.AnnounceAll && s.smsAnnounce == Cashbox.AnnounceAll
    ensures plan != HamyanPlan ==> s.notificationAnnounce == Cashbox.JustOwner && s.smsAnnounce == Cashbox.JustOwner
  {
    if plan == HamyanPlan then PoolSettings(Payable, Cashbox.AnnounceAll, Cashbox.AnnounceAll)
    else PoolSettings(HybridSinglePay, Cashbox.JustOwner, Cashbox.JustOwner)
  }

  /** The pool `create_moneypool` saves, and the owner's share count. */
  datatype NewPool = NewPool(state: Cashbox.BoxState, settings: PoolSettings, shareValue: Json, numberOfShares: Json)

  datatype CreateResponse = CreateRefused(code: int) | Created(code: int, pool: NewPool)

  /** `create_moneypool`: 2052 for an empty body or a missing share value,
      2051 when the serializer rejects the rest, else 2100 with a pool in
      the initial state and the plan's settings. */
  method CreateMoneypool(plan: Plan, cashboxes: seq<OwnedBox>, moneypools: seq<OwnedBox>,
                         data: map<string, Json>, serializerValid: bool) returns (r: CreateResponse)
    ensures data == map[] ==> r == CreateRefused(2052)
    ensures "share_value" !in data ==> r == CreateRefused(2052)
    ensures "share_value" in data && !serializerValid ==> r == CreateRefused(2051)
    ensures r.Created? <==> "share_value" in data && serializerValid
    ensures r.Created? ==>
              && r.code == 2100
              && (r.pool.state == Cashbox.Unpaid <==> HasBlockingBox(cashboxes, moneypools))
              && (r.pool.state == Cashbox.Activated <==> !HasBlockingBox(cashboxes, moneypools))
              && r.pool.settings == PlanSettings(plan)
              && r.pool.shareValue == data["share_value"]
              && r.pool.numberOfShares == (if "number_of_shares" in data then data["number_of_shares"] else JInt(1))
  {
    var state := InitialState(cashboxes, moneypools);
    var settings := PlanSettings(plan);
    if data == map[] {
      return CreateRefused(2052);
    }
    if "share_value" !in data {
      return CreateRefused(2052);
    }
    var shares := if "number_of_shares" in data then data["number_of_shares"] else JInt(1);
    if !serializerValid {
      return CreateRefused(2051);
    }
    r := Created(2100, NewPool(state, settings, data["share_value"], shares));
  }

  // ---------------------------------------------------------------------------
  // update_moneypool

  datatype UpdateResponse = UpdateResponse(code: int, transferred: bool)

  /** Whether the update moves the pool into worried-in-progress, which
      triggers the transfer of its Hamyan balance to the bank. */
  predicate StartsWorrying(requested: Option<Cashbox.TrustState>, current: Cashbox.TrustState)
  {
    requested.Some? && requested.value != current && requested.value == Cashbox.WorriedInProgress
  }

  /** `update_moneypool`. `ownsBankAccount` says whether the given bank
      account belongs to the caller; `validated` is the serializer's
      verdict, carrying the trust state it read, if any. The owner's share
      count is written before the serializer is asked, so a rejected
      update keeps it. Python's `int` on a malformed share count raises
      before anything is written. The due-date refresh is not modelled. */
  method UpdateMoneypool(moneypool: Moneypool, caller: Poolship, data: map<string, Json>,
                         ownsBankAccount: bool, validated: Option<Option<Cashbox.TrustState>>)
    returns (r: Result<UpdateResponse>)
    modifies moneypool`trustState, moneypool`shareValue, caller`numberOfShares
    ensures data == map[] ==> r == Ok(UpdateResponse(2052, false))
    ensures data != map[] && "bank_account" in data && Truthy(data["bank_account"]) && !ownsBankAccount ==>
              r == Ok(UpdateResponse(2051, false))
    ensures r.Raised? <==>
              && data != map[] && !("bank_account" in data && Truthy(data["bank_account"]) && !ownsBankAccount)
              && "number_of_shares" in data && PyInt(data["number_of_shares"]).Raised?
    ensures r.Ok? && r.value.code != 2050 ==>
              moneypool.trustState == old(moneypool.trustState) && moneypool.shareValue == old(moneypool.shareValue)
              && !r.value.transferred
    ensures && data != map[] && !("bank_account" in data && Truthy(data["bank_account"]) && !ownsBankAccount)
            && !("number_of_shares" in data && PyInt(data["number_of_shares"]).Raised?) && validated.None? ==>
              && r == Ok(UpdateResponse(2051, false))
              && caller.numberOfShares == (if "number_of_shares" in data then PyInt(data["number_of_shares"]).value
                                           else old(caller.numberOfShares))
    ensures r.Raised? ==> unchanged(moneypool) && unchanged(caller)
    ensures r.Ok? && r.value.code == 2050 <==>
              && data != map[] && !("bank_account" in data && Truthy(data["bank_account"]) && !ownsBankAccount)
              && !("number_of_shares" in data && PyInt(data["number_of_shares"]).Raised?)
              && validated.Some?
    ensures r.Ok? && r.value.code == 2050 ==>
              && r.value.transferred == StartsWorrying(validated.value, old(moneypool.trustState))
              && moneypool.trustState == (if validated.value.Some? then validated.value.value else old(moneypool.trustState))
              && moneypool.shareValue == (if "share_value" in data && IsInt(data["share_value"])
                                         then IntValue(data["share_value"]) else old(moneypool.shareValue))
              && caller.numberOfShares == (if "number_of_shares" in data then PyInt(data["number_of_shares"]).value
                                           else old(caller.numberOfShares))
  {
    if data == map[] {
      return Ok(UpdateResponse(2052, false));
    }
    if "bank_account" in data && Truthy(data["bank_account"]) && !ownsBankAccount {
      return Ok(UpdateResponse(2051, false));
    }
    var shareValue: Option<int> := None;
    if "share_value" in data && IsInt(data["share_value"]) {
      shareValue := Some(IntValue(data["share_value"]));
    }
    if "number_of_shares" in data {
      var n := PyInt(data["number_of_shares"]);
      if n.Raised? {
        return Raised(n.error);
      }
      caller.numberOfShares := n.value;
    }
    if validated.None? {
      return Ok(UpdateResponse(2051, false));
    }
    var trust := validated.value;
    var transfer := StartsWorrying(trust, moneypool.trustState);
    if trust.Some? {
      moneypool.trustState := trust.value;
    }
    if shareValue.Some? {
      moneypool.shareValue := shareValue.value;
    }
    r := Ok(UpdateResponse(2050, transfer));
  }

  // ---------------------------------------------------------------------------
  // archive_moneypool

  /** Archives a removable pool (2050); otherwise 406 and nothing changes.
      The pool's `is_removable` is the parameter `removable`. */
  method ArchiveMoneypool(moneypool: Moneypool, removable: bool) returns (status: int)
    modifies moneypool`isArchived
    ensures removable ==> status == 2050 && moneypool.isArchived
    ensures !removable ==> status == 406 && moneypool.isArchived == old(moneypool.isArchived)
  {
    if removable {
      moneypool.isArchived := true;
      return 2050;
    }
    status := 406;
  }

  // ---------------------------------------------------------------------------
  // Listing order

  /** Sort keys compare lexicographically. */
  type Key = (int, int)

  predicate KeyLe(a: Key, b: Key)
  {
    a.0 < b.0 || (a.0 == b.0 && a.1 <= b.1)
  }

  predicate SortedBy<T>(s: seq<T>, key: T -> Key)
  {
    forall i, j :: 0 <= i < j < |s| ==> KeyLe(key(s[i]), key(s[j]))
  }

  function InsertBy<T(==)>(x: T, s: seq<T>, key: T -> Key): (r: seq<T>)
    requires SortedBy(s, key)
    ensures SortedBy(r, key) && multiset(r) == multiset(s) + multiset{x}
    ensures forall k :: 0 <= k < |r| ==> r[k] == x || r[k] in s
  {
    if s == [] then [x]
    else if KeyLe(key(x), key(s[0])) then [x] + s
    else
      var rest := InsertBy(x, s[1..], key);
      HeadIsLeast(s, key);
      assert forall k :: 0 <= k < |rest| ==> KeyLe(key(s[0]), key(rest[k])) by {
        forall k | 0 <= k < |rest|
          ensures KeyLe(key(s[0]), key(rest[k]))
        {
          if rest[k] != x {
            assert rest[k] in s;
          }
        }
      }
      assert s == [s[0]] + s[1..];
      assert multiset([s[0]] + rest) == multiset{s[0]} + multiset(s[1..]) + multiset{x};
      [s[0]] + rest
  }

  /** The head of a sorted sequence has the least key. */
  lemma HeadIsLeast<T>(s: seq<T>, key: T -> Key)
    requires s != [] && SortedBy(s, key)
    ensures forall y :: y in s ==> KeyLe(key(s[0]), key(y))
  {
    forall y | y in s
      ensures KeyLe(key(s[0]), key(y))
    {
      var i :| 0 <= i < |s| && s[i] == y;
    }
  }

  /** An insertion sort by `key`: a sorted permutation of `s`. */
  function SortBy<T(==)>(s: seq<T>, key: T -> Key): (r: seq<T>)
    ensures SortedBy(r, key) && multiset(r) == multiset(s)
  {
    if s == [] then []
    else
      assert s == s[..|s| - 1] + [s[|s| - 1]];
      InsertBy(s[|s| - 1], SortBy(s[..|s| - 1], key), key)
  }

  /** Cash-ins, cash-outs and loans are listed when they carry no
      transaction or one that is successful, in progress or gone to bank. */
  predicate Listed(transactionState: Option<TxState>)
  {
    transactionState.None? || transactionState.value in {Successful, InProgress, ToBank}
  }

  /** A serialized cash-in or cash-out. */
  datatype DeedRow = DeedRow(moneypool: nat, transactionState: Option<TxState>, time: int, amount: int, isCashin: bool)

  /** The elements of `xs` that `keep` holds for, in order: the
      queryset filters of the listing views. */
  function Filter<T(!new)>(xs: seq<T>, keep: T -> bool): (r: seq<T>)
    ensures forall x :: x in r <==> x in xs && keep(x)
    ensures |r| <= |xs|
  {
    if xs == [] then []
    else
      var rest := Filter(xs[..|xs| - 1], keep);
      var x := xs[|xs| - 1];
      assert xs == xs[..|xs| - 1] + [x];
      if keep(x) then rest + [x] else rest
  }

  /** A deed row the listing of pool `moneypool` keeps. */
  predicate DeedListed(d: DeedRow, moneypool: nat)
  {
    d.moneypool == moneypool && Listed(d.transactionState)
  }

  /** `list_moneypool_cashins_and_cashouts`: the pool's listed cash-ins
      followed by its listed cash-outs, then ordered by time, latest
      first. The name search and the pagination are not modelled. */
  function ListCashinsAndCashouts(cashins: seq<DeedRow>, cashouts: seq<DeedRow>, moneypool: nat): (r: seq<DeedRow>)
    ensures multiset(r) == multiset(Filter(cashins, d => DeedListed(d, moneypool)) + Filter(cashouts, d => DeedListed(d, moneypool)))
    ensures forall i, j :: 0 <= i < j < |r| ==> r[i].time >= r[j].time
  {
    var r := SortBy(Filter(cashins, d => DeedListed(d, moneypool)) + Filter(cashouts, d => DeedListed(d, moneypool)), (d: DeedRow) => (-d.time, 0));
    assert forall i, j :: 0 <= i < j < |r| ==> KeyLe((-r[i].time, 0), (-r[j].time, 0));
    r
  }

  /** Everything listed is a listed deed of the pool, and every listed
      deed of the pool appears. */
  lemma ListingIsComplete(cashins: seq<DeedRow>, cashouts: seq<DeedRow>, moneypool: nat, x: DeedRow)
    ensures x in ListCashinsAndCashouts(cashins, cashouts, moneypool) <==>
              (x in cashins || x in cashouts) && x.moneypool == moneypool && Listed(x.transactionState)
  {
    var r := ListCashinsAndCashouts(cashins, cashouts, moneypool);
    var all := Filter(cashins, d => DeedListed(d, moneypool)) + Filter(cashouts, d => DeedListed(d, moneypool));
    assert x in r <==> x in multiset(r);
    assert x in all <==> x in multiset(all);
  }

  /** A serialized loan. */
  datatype LoanRow = LoanRow(id: nat, moneypool: nat, poolship: nat, transactionState: Option<TxState>,
                             hasDelayedInstallment: bool, payDate: int)

  /** `sort_list_loans`: the viewer's own loans rank 1; for a normal
      member every other loan ranks 2; for an owner or manager, loans with
      a delayed installment rank 2 and the rest 3. */
  function LoanRank(loan: LoanRow, viewer: Poolship): (rank: int)
    ensures rank == 1 <==> loan.poolship == viewer.id
    ensures loan.poolship != viewer.id && viewer.role == Normal ==> rank == 2
    ensures loan.poolship != viewer.id && viewer.role != Normal ==>
              rank == (if loan.hasDelayedInstallment then 2 else 3)
  {
    if viewer.role == Normal then
      if loan.poolship == viewer.id then 1 else 2
    else if loan.poolship == viewer.id then 1
    else if loan.hasDelayedInstallment then 2
    else 3
  }

  /** `list_moneypool_loans_and_installments`: the pool's listed loans
      sorted by pay date, latest first, then (stably) by rank. The result
      is ordered by rank and, within a rank, by pay date descending; the
      order among loans equal in both is not modelled. */
  function ListLoans(loans: seq<LoanRow>, moneypool: nat, viewer: Poolship): (r: seq<LoanRow>)
    ensures multiset(r) == multiset(Filter(loans, (l: LoanRow) => l.moneypool == moneypool && Listed(l.transactionState)))
    ensures forall i, j :: 0 <= i < j < |r| ==> LoanRank(r[i], viewer) <= LoanRank(r[j], viewer)
    ensures forall i, j :: 0 <= i < j < |r| && LoanRank(r[i], viewer) == LoanRank(r[j], viewer) ==>
              r[i].payDate >= r[j].payDate
  {
    var r := SortBy(Filter(loans, (l: LoanRow) => l.moneypool == moneypool && Listed(l.transactionState)), (l: LoanRow) => (LoanRank(l, viewer), -l.payDate));
    assert forall i, j :: 0 <= i < j < |r| ==>
             KeyLe((LoanRank(r[i], viewer), -r[i].payDate), (LoanRank(r[j], viewer), -r[j].payDate));
    r
  }

  /** The viewer's own loans come before everybody else's. */
  lemma OwnLoansFirst(loans: seq<LoanRow>, moneypool: nat, viewer: Poolship, i: int, j: int)
    requires 0 <= i < j < |ListLoans(loans, moneypool, viewer)|
    requires ListLoans(loans, moneypool, viewer)[j].poolship == viewer.id
    ensures ListLoans(loans, moneypool, viewer)[i].poolship == viewer.id
  {
    var r := ListLoans(loans, moneypool, viewer);
    assert LoanRank(r[i], viewer) <= LoanRank(r[j], viewer) == 1;
  }

  /** For an owner or manager, other members' loans with a delayed
      installment come before other members' loans without one. */
  lemma DelayedLoansNext(loans: seq<LoanRow>, moneypool: nat, viewer: Poolship, i: int, j: int)
    requires viewer.role != Normal
    requires 0 <= i < j < |ListLoans(loans, moneypool, viewer)|
    requires ListLoans(loans, moneypool, viewer)[i].poolship != viewer.id
    requires ListLoans(loans, moneypool, viewer)[j].hasDelayedInstallment
    ensures ListLoans(loans, moneypool, viewer)[j].poolship != viewer.id ==>
              ListLoans(loans, moneypool, viewer)[i].hasDelayedInstallment
  {
    var r := ListLoans(loans, moneypool, viewer);
    assert LoanRank(r[i], viewer) <= LoanRank(r[j], viewer);
  }
}
