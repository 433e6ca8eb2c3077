/**
 * The `save` methods of the payment serializers: a list of transactions
 * paid together under one group-pay mother transaction, a list of pool
 * cash-ins likewise, a loan with its already repaid installments, and an
 * order with its optional discount code.
 */
module PaymentSerializers {
  import opened Common
  import opened Ledger
  import opened Moneypool

  // ---------------------------------------------------------------------
  // Transactions created from validated data
  // ---------------------------------------------------------------------

  /** The writable fields of a transaction as a serializer validated them. */
  datatype TxData = TxData(source: Account, destination: Account, receiver: Option<MemberId>,
                           amount: real, ctx: Context, gateway: Option<nat>)

  /** `Transaction.objects.create(**data, payer=payer, mother_transaction=mother)`. */
  function Record(d: TxData, payer: Option<MemberId>, mother: Option<nat>): Transaction
  {
    Transaction(d.source, d.destination, payer, d.receiver, d.amount, 0.0, d.ctx, Init, false, mother, d.gateway, None)
  }

  /** The total of the amounts of `items`. */
  function DataTotal(items: seq<TxData>): real
  {
    if items == [] then 0.0 else DataTotal(items[..|items| - 1]) + items[|items| - 1].amount
  }

  /** The total of the amounts of the transactions `txs`. */
  function TxTotal(txs: seq<Transaction>): real
  {
    if txs == [] then 0.0 else TxTotal(txs[..|txs| - 1]) + txs[|txs| - 1].amount
  }

  /** The total of the commissions of the transactions `txs`. */
  function CommissionTotal(txs: seq<Transaction>): real
  {
    if txs == [] then 0.0 else CommissionTotal(txs[..|txs| - 1]) + txs[|txs| - 1].commission
  }

  // ---------------------------------------------------------------------
  // TransactionListSerializer.save
  // ---------------------------------------------------------------------

  /** A list gets a group-pay mother when it has more than one item and
      the first is not paid from the box balance. */
  predicate HasMother(items: seq<TxData>)
  {
    |items| > 1 && items[0].source != BoxBalance
  }

  /** The mother: a copy of the first item, paid by `payer` to nobody,
      for the total of all the items. */
  function MotherRecord(items: seq<TxData>, payer: Option<MemberId>): Transaction
    requires items != []
  {
    Record(items[0], payer, None).(isGroupPay := true, amount := DataTotal(items), receiver := None)
  }

  /** One transaction per item, each linked to `mother`. */
  function ChildRecords(items: seq<TxData>, payer: Option<MemberId>, mother: Option<nat>): (r: seq<Transaction>)
    ensures |r| == |items|
    ensures forall k :: 0 <= k < |items| ==> r[k] == Record(items[k], payer, mother)
  {
    seq(|items|, k requires 0 <= k < |items| => Record(items[k], payer, mother))
  }

  /** What the save appends to a ledger holding `base` transactions. */
  function ListRecords(items: seq<TxData>, payer: Option<MemberId>, base: nat): seq<Transaction>
  {
    if HasMother(items) then [MotherRecord(items, payer)] + ChildRecords(items, payer, Some(base))
    else ChildRecords(items, payer, None)
  }

  /** What the save returns: the mother, else the last item's transaction,
      else nothing. */
  function ListResult(items: seq<TxData>, base: nat): Option<nat>
  {
    if HasMother(items) then Some(base)
    else if items == [] then None
    else Some(base + |items| - 1)
  }

  /** The children's amounts add up to the items' total. */
  lemma {:induction false} ChildrenTotal(items: seq<TxData>, payer: Option<MemberId>, mother: Option<nat>)
    ensures TxTotal(ChildRecords(items, payer, mother)) == DataTotal(items)
  {
    if items != [] {
      var init := items[..|items| - 1];
      ChildrenTotal(init, payer, mother);
      assert ChildRecords(items, payer, mother)[..|items| - 1] == ChildRecords(init, payer, mother);
    }
  }

  /** A mother is a group pay to nobody for exactly the sum of its
      children's amounts, and every child points to it. */
  lemma ListMotherIsChildrenSum(items: seq<TxData>, payer: Option<MemberId>, base: nat)
    requires HasMother(items)
    ensures var recs := ListRecords(items, payer, base);
            && |recs| == |items| + 1
            && recs[0].isGroupPay && recs[0].receiver.None? && recs[0].payer == payer
            && recs[0].amount == TxTotal(recs[1..])
            && forall k :: 1 <= k < |recs| ==> recs[k].mother == Some(base) && recs[k].amount == items[k - 1].amount
  {
    var recs := ListRecords(items, payer, base);
    assert recs[1..] == ChildRecords(items, payer, Some(base));
    ChildrenTotal(items, payer, Some(base));
  }

  /** Without a mother each item is recorded on its own, with no mother;
      the save returns the last one, or nothing for an empty list. */
  lemma ListWithoutMother(items: seq<TxData>, payer: Option<MemberId>, base: nat)
    requires !HasMother(items)
    ensures var recs := ListRecords(items, payer, base);
            && |recs| == |items|
            && (forall k :: 0 <= k < |recs| ==> recs[k].mother.None? && !recs[k].isGroupPay)
            && (ListResult(items, base).None? <==> items == [])
            && (items != [] ==> ListResult(items, base) == Some(base + |recs| - 1))
  {
  }

  /** `TransactionListSerializer.save` with `payer` passed as keyword
      argument: appends the mother (when there is one) and then one
      transaction per item, and returns the mother's id, else the last
      item's, else None. */
  method TransactionListSave(items: seq<TxData>, payer: Option<MemberId>, ledger: Ledger) returns (r: Option<nat>)
    modifies ledger
    ensures ledger.transactions == old(ledger.transactions) + ListRecords(items, payer, |old(ledger.transactions)|)
    ensures r == ListResult(items, |old(ledger.transactions)|)
  {
    var mother: Option<nat> := None;
    if |items| > 1 && items[0].source != BoxBalance {
      var id := ledger.Create(MotherRecord(items, payer));
      mother := Some(id);
    }
    var last := CreateChildren(items, payer, mother, ledger);
    if mother.Some? {
      return mother;
    }
    return last;
  }

  /** Records one transaction per item, linked to `mother`, and returns
      the id of the last one. */
  method CreateChildren(items: seq<TxData>, payer: Option<MemberId>, mother: Option<nat>, ledger: Ledger)
    returns (last: Option<nat>)
    modifies ledger
    ensures ledger.transactions == old(ledger.transactions) + ChildRecords(items, payer, mother)
    ensures last == if items == [] then None else Some(|ledger.transactions| - 1)
  {
    last := None;
    var j := 0;
    while j < |items|
      invariant 0 <= j <= |items|
      invariant ledger.transactions == old(ledger.transactions) + ChildRecords(items[..j], payer, mother)
      invariant last == if j == 0 then None else Some(|ledger.transactions| - 1)
    {
      assert ChildRecords(items[..j + 1], payer, mother) == ChildRecords(items[..j], payer, mother) + [Record(items[j], payer, mother)];
      var id := ledger.Create(Record(items[j], payer, mother));
      last := Some(id);
      j := j + 1;
    }
    assert items[..j] == items;
  }

  // ---------------------------------------------------------------------
  // MoneypoolCashinListSerializer.save
  // ---------------------------------------------------------------------

  /** A validated cash-in: its fields and, for a paid one, its
      transaction's data. `time` is read-only in the serializer, so it is
      never taken from the request: it stands for the time the cash-in is
      created with (one passed to `save`, or the model's default). */
  datatype CashinData = CashinData(amount: int, poolship: Poolship, kind: CashinType, tag: string, time: int,
                                   tx: Option<TxData>)

  /** The total of the cash-in amounts of the items that carry transaction
      data; the others do not count. */
  function PaidTotal(items: seq<CashinData>): int
  {
    if items == [] then 0
    else PaidTotal(items[..|items| - 1]) + (if items[|items| - 1].tx.Some? then items[|items| - 1].amount else 0)
  }

  /** How many items carry transaction data. */
  function PaidCount(items: seq<CashinData>): nat
  {
    if items == [] then 0 else PaidCount(items[..|items| - 1]) + (if items[|items| - 1].tx.Some? then 1 else 0)
  }

  predicate HasCashinMother(items: seq<CashinData>)
  {
    |items| > 1 && items[0].tx.Some?
  }

  /** The cash-in list's mother: a copy of the first item's transaction
      data, paid by the registrar to nobody, for the paid total. */
  function CashinMotherRecord(items: seq<CashinData>, registrar: MemberId): Transaction
    requires HasCashinMother(items)
  {
    Record(items[0].tx.value, Some(registrar), None).(isGroupPay := true, amount := PaidTotal(items) as real,
                                                      receiver := None)
  }

  /** The transaction of a paid cash-in: its transaction data, for the
      cash-in's amount, from the registrar to the cash-in's poolship. */
  function CashinChild(d: CashinData, registrar: MemberId, mother: Option<nat>): Transaction
    requires d.tx.Some?
  {
    Record(d.tx.value, Some(registrar), mother).(amount := d.amount as real, receiver := Some(d.poolship.member))
  }

  /** The transactions of the paid items, in order. */
  function CashinChildren(items: seq<CashinData>, registrar: MemberId, mother: Option<nat>): (r: seq<Transaction>)
    ensures |r| == PaidCount(items)
    ensures forall k :: 0 <= k < |r| ==>
              r[k].payer == Some(registrar) && r[k].mother == mother && !r[k].isGroupPay
  {
    if items == [] then []
    else
      var init := items[..|items| - 1];
      var last := items[|items| - 1];
      var r0 := CashinChildren(init, registrar, mother);
      assert forall j :: 0 <= j < |init| ==> init[j] == items[j];
      r0 + (if last.tx.Some? then [CashinChild(last, registrar, mother)] else [])
  }

  /** The paid children's amounts add up to the paid total. */
  lemma {:induction false} CashinChildrenTotal(items: seq<CashinData>, registrar: MemberId, mother: Option<nat>)
    ensures TxTotal(CashinChildren(items, registrar, mother)) == PaidTotal(items) as real
  {
    if items != [] {
      var init := items[..|items| - 1];
      var last := items[|items| - 1];
      CashinChildrenTotal(init, registrar, mother);
      var r0 := CashinChildren(init, registrar, mother);
      if last.tx.Some? {
        var r := r0 + [CashinChild(last, registrar, mother)];
        assert r[..|r| - 1] == r0;
      } else {
        assert CashinChildren(items, registrar, mother) == r0;
      }
    }
  }

  /** The transaction numbered `ChildId` for a paid item is that item's
      own: its amount and its poolship's member as receiver. */
  lemma {:induction false} ChildOfPaidItem(items: seq<CashinData>, k: nat, registrar: MemberId, mother: Option<nat>)
    requires k < |items| && items[k].tx.Some?
    ensures PaidCount(items[..k]) < |CashinChildren(items, registrar, mother)|
    ensures CashinChildren(items, registrar, mother)[PaidCount(items[..k])] == CashinChild(items[k], registrar, mother)
  {
    var init := items[..|items| - 1];
    if k < |items| - 1 {
      ChildOfPaidItem(init, k, registrar, mother);
      assert init[..k] == items[..k];
    } else {
      assert init == items[..k];
    }
  }

  /** The cash-in list's mother is a group pay from the registrar to
      nobody, for exactly the sum of its children's amounts. */
  lemma CashinMotherIsChildrenSum(items: seq<CashinData>, registrar: MemberId, base: nat)
    requires HasCashinMother(items)
    ensures CashinMotherRecord(items, registrar).isGroupPay
    ensures CashinMotherRecord(items, registrar).receiver.None?
    ensures CashinMotherRecord(items, registrar).payer == Some(registrar)
    ensures CashinMotherRecord(items, registrar).amount == TxTotal(CashinChildren(items, registrar, Some(base)))
  {
    CashinChildrenTotal(items, registrar, Some(base));
  }

  /** The id of item `k`'s transaction when the children start at id
      `start`: the paid items before it come first. */
  function ChildId(items: seq<CashinData>, k: nat, start: nat): Option<nat>
    requires k < |items|
  {
    if items[k].tx.Some? then Some(start + PaidCount(items[..k])) else None
  }

  /** The cash-in `c` was created from `d` by `registrar`, with transaction
      `tx`. */
  predicate CreatedFrom(c: MoneypoolCashin, d: CashinData, registrar: Poolship, tx: Option<nat>)
  {
    && c.amount == d.amount && c.poolship == d.poolship && c.kind == d.kind && c.tag == d.tag
    && c.time == d.time && c.registrar == registrar && c.transaction == tx
  }

  /** `MoneypoolCashinListSerializer.save` with `registrar` passed as
      keyword argument: appends the mother (when there is one) and the
      paid items' transactions to the ledger, creates one cash-in per item
      linked to its transaction, and returns the cash-ins and the mother. */
  method CashinListSave(items: seq<CashinData>, registrar: Poolship, ledger: Ledger, deeds: Deeds)
    returns (cashins: seq<MoneypoolCashin>, mother: Option<nat>)
    modifies ledger, deeds`cashins
    ensures mother == if HasCashinMother(items) then Some(|old(ledger.transactions)|) else None
    ensures ledger.transactions ==
              old(ledger.transactions)
              + (if HasCashinMother(items) then [CashinMotherRecord(items, registrar.member)] else [])
              + CashinChildren(items, registrar.member, mother)
    ensures |cashins| == |items| && deeds.cashins == old(deeds.cashins) + cashins
    ensures forall k :: 0 <= k < |items| ==>
              fresh(cashins[k]) &&
              CreatedFrom(cashins[k], items[k], registrar,
                          ChildId(items, k, |old(ledger.transactions)| + if mother.Some? then 1 else 0))
  {
    mother := None;
    if |items| > 1 && items[0].tx.Some? {
      var id := ledger.Create(CashinMotherRecord(items, registrar.member));
      mother := Some(id);
    }
    cashins := CreateCashins(items, registrar, mother, ledger, deeds);
  }

  /** Creates one cash-in per item and, for a paid item, its transaction
      linked to `mother`, numbered from the ledger's current end. */
  method CreateCashins(items: seq<CashinData>, registrar: Poolship, mother: Option<nat>, ledger: Ledger, deeds: Deeds)
    returns (cashins: seq<MoneypoolCashin>)
    modifies ledger, deeds`cashins
    ensures ledger.transactions == old(ledger.transactions) + CashinChildren(items, registrar.member, mother)
    ensures |cashins| == |items| && deeds.cashins == old(deeds.cashins) + cashins
    ensures forall k :: 0 <= k < |items| ==>
              fresh(cashins[k]) && CreatedFrom(cashins[k], items[k], registrar, ChildId(items, k, |old(ledger.transactions)|))
  {
    var start := |ledger.transactions|;
    cashins := [];
    var j := 0;
    while j < |items|
      invariant 0 <= j <= |items| && |cashins| == j
      invariant ledger.transactions == old(ledger.transactions) + CashinChildren(items[..j], registrar.member, mother)
      invariant deeds.cashins == old(deeds.cashins) + cashins
      invariant forall k :: 0 <= k < j ==> fresh(cashins[k]) && CreatedFrom(cashins[k], items[k], registrar, ChildId(items, k, start))
    {
      var d := items[j];
      assert items[..j + 1][..j] == items[..j];
      var tx: Option<nat> := None;
      if d.tx.Some? {
        var id := ledger.Create(CashinChild(d, registrar.member, mother));
        tx := Some(id);
      }
      var c := new MoneypoolCashin(registrar, d.poolship, d.amount, d.kind, d.tag, d.time, tx);
      deeds.cashins := deeds.cashins + [c];
      cashins := cashins + [c];
      j := j + 1;
    }
    assert items[..j] == items;
  }

  // ---------------------------------------------------------------------
  // LoanSerializer.save
  // ---------------------------------------------------------------------

  /** The amount the loan's cash-out is created with: in the pre-reduced
      interest mode the interest is taken off up front. */
  function CashoutAmount(preReduced: bool, loan: int, rate: real): (r: real)
    ensures preReduced ==> r == loan as real * (1.0 - rate)
    ensures !preReduced ==> r == loan as real
  {
    if preReduced then loan as real - loan as real * rate else loan as real
  }

  /** With a rate between 0 and 1 the cash-out never exceeds the loan nor
      drops below zero. */
  lemma CashoutWithinLoan(preReduced: bool, loan: int, rate: real)
    requires loan >= 0 && 0.0 <= rate <= 1.0
    ensures 0.0 <= CashoutAmount(preReduced, loan, rate) <= loan as real
  {
    if preReduced {
      assert loan as real * rate <= loan as real * 1.0;
      assert loan as real * rate >= 0.0;
    }
  }

  /** A loan installment; `cashin` is the repayment that settled it. */
  class Installment {
    const amount: int
    const dueDate: int
    var cashin: MoneypoolCashin?

    constructor (amount: int, dueDate: int)
      ensures this.amount == amount && this.dueDate == dueDate && cashin == null
    {
      this.amount := amount;
      this.dueDate := dueDate;
      cashin := null;
    }
  }

  /** The total of the amounts of `insts`. */
  function InstallmentsTotal(insts: seq<Installment>): int
  {
    if insts == [] then 0 else InstallmentsTotal(insts[..|insts| - 1]) + insts[|insts| - 1].amount
  }

  function Min(a: int, b: int): int
  {
    if a <= b then a else b
  }

  /** A repayment cash-in registered for installment `inst`. */
  predicate RepaysInstallment(c: MoneypoolCashin, inst: Installment, registrar: Poolship, poolship: Poolship)
  {
    && c.amount == inst.amount && c.kind == Repayment && c.transaction.None?
    && c.registrar == registrar && c.poolship == poolship
  }

  /** The transaction `MoneypoolCashoutSerializer.create` records with a
      cash-out of `amount` to `poolship` registered by `registrar`: the
      given data, paid by the registrar's member to the poolship's member,
      for the cash-out amount. */
  function CashoutRecord(d: TxData, registrar: Poolship, poolship: Poolship, amount: int): (t: Transaction)
    ensures t.payer == Some(registrar.member) && t.receiver == Some(poolship.member) && t.amount == amount as real
    ensures t.source == d.source && t.destination == d.destination && t.ctx == d.ctx && t.gateway == d.gateway
    ensures t.mother.None? && !t.isGroupPay
  {
    Record(d.(receiver := Some(poolship.member), amount := amount as real), Some(registrar.member), None)
  }

  /** `MoneypoolCashoutSerializer.create`: records the transaction when
      the data carries one, then the cash-out, tied to it. */
  method CashoutCreate(id: nat, registrar: Poolship, poolship: Poolship, amount: int, kind: CashoutType,
                       tag: string, time: int, tx: Option<TxData>, deeds: Deeds, ledger: Ledger)
    returns (c: MoneypoolCashout)
    modifies deeds`cashouts, ledger
    ensures fresh(c) && deeds.cashouts == old(deeds.cashouts) + [c]
    ensures c.id == id && c.registrar == registrar && c.poolship == poolship && c.amount == amount
    ensures c.kind == kind && c.tag == tag && c.time == time
    ensures tx.None? ==> c.transaction.None? && ledger.transactions == old(ledger.transactions)
    ensures tx.Some? ==>
              && c.transaction == Some(|old(ledger.transactions)|)
              && ledger.transactions == old(ledger.transactions) + [CashoutRecord(tx.value, registrar, poolship, amount)]
  {
    var t: Option<nat> := None;
    if tx.Some? {
      var tid := ledger.Create(CashoutRecord(tx.value, registrar, poolship, amount));
      t := Some(tid);
    }
    c := new MoneypoolCashout(id, registrar, poolship, amount, kind, tag, time, t);
    deeds.cashouts := deeds.cashouts + [c];
  }

  /** Whether the cash-out serializer accepts the loan's cash-out amount:
      its `amount` is an integer field, so a fractional amount (which the
      pre-reduced mode can produce) is invalid. */
  predicate WholeAmount(x: real)
  {
    x.Floor as real == x
  }

  /** Without the pre-reduced mode the loan amount always passes; with it,
      an odd loan at half interest does not. */
  lemma PreReducedCanBeFractional()
    ensures forall loan: int, rate: real :: WholeAmount(CashoutAmount(false, loan, rate))
    ensures !WholeAmount(CashoutAmount(true, 1001, 0.5))
  {
    assert CashoutAmount(true, 1001, 0.5) == 500.5;
    assert (500.5).Floor == 500;
  }

  /** A loan as `LoanSerializer.save` creates it: its cash-out and its
      installments in due-date order. */
  class Loan {
    const cashout: MoneypoolCashout
    const installments: seq<Installment>

    constructor (cashout: MoneypoolCashout, installments: seq<Installment>)
      ensures this.cashout == cashout && this.installments == installments
    {
      this.cashout := cashout;
      this.installments := installments;
    }
  }

  /** How many installments `zip(installments, range(repaid))` walks:
      the repaid count, at least 0 and at most the installments there are. */
  function RepaidPrefix(repaid: int, count: nat): (n: nat)
    ensures n <= count
    ensures repaid <= 0 ==> n == 0
    ensures 0 <= repaid <= count ==> n == repaid
    ensures repaid >= count ==> n == count
  {
    if repaid <= 0 then 0 else Min(repaid, count)
  }

  /** `LoanSerializer.save`. `cashoutValid` is whether the cash-out
      serializer accepts the rest of the cash-out data, `tx` its
      transaction data, and `installments` what `create_installments`
      gives the new loan, in due-date order. The cash-out is created with
      the loan amount, less the interest in the pre-reduced mode; a
      fractional amount or otherwise invalid data raises
      InvalidInstanceData with nothing created. Otherwise the cash-out
      (and its transaction) and the loan are created, and the first
      `repaid` installments each get a repayment cash-in of their amount,
      charged to the pool's bank balance unless `noDischarge`. */
  method LoanSave(preReduced: bool, rate: real, loanAmount: int, repaid: int, cashoutValid: bool,
                  cashoutId: nat, registrar: Poolship, poolship: Poolship, kind: CashoutType, cashoutTag: string,
                  cashoutTime: int, tx: Option<TxData>, installments: seq<Installment>, noDischarge: bool,
                  tag: string, now: int, deeds: Deeds, ledger: Ledger)
    returns (r: Result<Loan>)
    requires forall i, j :: 0 <= i < j < |installments| ==> installments[i] != installments[j]
    modifies deeds`cashins, deeds`cashouts, ledger, poolship.moneypool`bankBalance
    modifies set k | 0 <= k < |installments| :: installments[k]
    ensures var amount := CashoutAmount(preReduced, loanAmount, rate);
            !(cashoutValid && WholeAmount(amount)) ==>
              && r == Raised("InvalidInstanceData")
              && deeds.cashins == old(deeds.cashins) && deeds.cashouts == old(deeds.cashouts)
              && ledger.transactions == old(ledger.transactions)
              && poolship.moneypool.bankBalance == old(poolship.moneypool.bankBalance)
              && forall k :: 0 <= k < |installments| ==> installments[k].cashin == old(installments[k].cashin)
    ensures var amount := CashoutAmount(preReduced, loanAmount, rate);
            cashoutValid && WholeAmount(amount) ==>
              && r.Ok? && fresh(r.value) && r.value.installments == installments
              && var c := r.value.cashout;
              && fresh(c) && deeds.cashouts == old(deeds.cashouts) + [c]
              && c.id == cashoutId && c.registrar == registrar && c.poolship == poolship
              && c.amount as real == amount && c.kind == kind && c.tag == cashoutTag && c.time == cashoutTime
              && (tx.None? ==> c.transaction.None? && ledger.transactions == old(ledger.transactions))
              && (tx.Some? ==> c.transaction == Some(|old(ledger.transactions)|)
                               && ledger.transactions == old(ledger.transactions)
                                    + [CashoutRecord(tx.value, registrar, poolship, c.amount)])
    ensures cashoutValid && WholeAmount(CashoutAmount(preReduced, loanAmount, rate)) ==>
              var n := RepaidPrefix(repaid, |installments|);
              && |deeds.cashins| == |old(deeds.cashins)| + n
              && deeds.cashins[..|old(deeds.cashins)|] == old(deeds.cashins)
              && (forall k :: 0 <= k < n ==>
                    && installments[k].cashin == deeds.cashins[|old(deeds.cashins)| + k]
                    && fresh(installments[k].cashin)
                    && RepaysInstallment(installments[k].cashin, installments[k], registrar, poolship))
              && (forall k :: n <= k < |installments| ==> installments[k].cashin == old(installments[k].cashin))
              && poolship.moneypool.bankBalance ==
                   old(poolship.moneypool.bankBalance) + (if noDischarge then 0 else InstallmentsTotal(installments[..n]))
  {
    var amount := CashoutAmount(preReduced, loanAmount, rate);
    if !(cashoutValid && WholeAmount(amount)) {
      return Raised("InvalidInstanceData");
    }
    var c := CashoutCreate(cashoutId, registrar, poolship, amount.Floor, kind, cashoutTag, cashoutTime, tx, deeds, ledger);
    var loan := new Loan(c, installments);
    RepayInstallments(RepaidPrefix(repaid, |installments|), registrar, poolship, installments, noDischarge, tag, now, deeds);
    r := Ok(loan);
  }

  /** The repayment loop of `LoanSerializer.save` over the first `n`
      installments. */
  method RepayInstallments(n: nat, registrar: Poolship, poolship: Poolship, installments: seq<Installment>,
                           noDischarge: bool, tag: string, now: int, deeds: Deeds)
    requires n <= |installments|
    requires forall i, j :: 0 <= i < j < |installments| ==> installments[i] != installments[j]
    modifies deeds`cashins, poolship.moneypool`bankBalance, set k | 0 <= k < |installments| :: installments[k]
    ensures |deeds.cashins| == |old(deeds.cashins)| + n
    ensures deeds.cashins[..|old(deeds.cashins)|] == old(deeds.cashins)
    ensures forall k :: 0 <= k < n ==>
              && installments[k].cashin == deeds.cashins[|old(deeds.cashins)| + k]
              && fresh(installments[k].cashin)
              && RepaysInstallment(installments[k].cashin, installments[k], registrar, poolship)
    ensures forall k :: n <= k < |installments| ==> installments[k].cashin == old(installments[k].cashin)
    ensures poolship.moneypool.bankBalance ==
              old(poolship.moneypool.bankBalance) + (if noDischarge then 0 else InstallmentsTotal(installments[..n]))
  {
    var i := 0;
    while i < n
      invariant 0 <= i <= n
      invariant |deeds.cashins| == |old(deeds.cashins)| + i
      invariant deeds.cashins[..|old(deeds.cashins)|] == old(deeds.cashins)
      invariant forall k :: 0 <= k < i ==>
                  && installments[k].cashin == deeds.cashins[|old(deeds.cashins)| + k]
                  && fresh(installments[k].cashin)
                  && RepaysInstallment(installments[k].cashin, installments[k], registrar, poolship)
      invariant forall k :: i <= k < |installments| ==> installments[k].cashin == old(installments[k].cashin)
      invariant poolship.moneypool.bankBalance ==
                  old(poolship.moneypool.bankBalance) + (if noDischarge then 0 else InstallmentsTotal(installments[..i]))
    {
      var inst := installments[i];
      var c := new MoneypoolCashin(registrar, poolship, inst.amount, Repayment, tag, now, None);
      deeds.cashins := deeds.cashins + [c];
      if !noDischarge {
        poolship.moneypool.ChargeBankBalance(inst.amount);
      }
      assert installments[..i + 1][..i] == installments[..i];
      inst.cashin := c;
      i := i + 1;
    }
  }

  // ---------------------------------------------------------------------
  // Discount codes and orders
  // ---------------------------------------------------------------------

  /** A discount; `isExpired` is the model's computed expiry. */
  datatype Discount = Discount(id: nat, code: string, isActive: bool, numUses: int, hasTargetMember: bool,
                               members: set<MemberId>, isExpired: bool)

  /** The discounts with the code (and active, when `activeOnly`). */
  function Matching(discounts: seq<Discount>, code: string, activeOnly: bool): (r: seq<Discount>)
    ensures forall d :: d in r <==> d in discounts && d.code == code && (activeOnly ==> d.isActive)
  {
    if discounts == [] then []
    else
      var rest := Matching(discounts[1..], code, activeOnly);
      var d := discounts[0];
      if d.code == code && (activeOnly ==> d.isActive) then [d] + rest else rest
  }

  /** `Discount.objects.get(code=code[, is_active=True])`. */
  function GetDiscount(discounts: seq<Discount>, code: string, activeOnly: bool): (r: Result<Discount>)
    ensures |Matching(discounts, code, activeOnly)| == 0 <==> r == Raised("DoesNotExist")
    ensures |Matching(discounts, code, activeOnly)| > 1 <==> r == Raised("MultipleObjectsReturned")
    ensures r.Ok? ==> Matching(discounts, code, activeOnly) == [r.value]
  {
    var found := Matching(discounts, code, activeOnly);
    if |found| == 0 then Raised("DoesNotExist")
    else if |found| > 1 then Raised("MultipleObjectsReturned")
    else Ok(found[0])
  }

  /** A successful transaction that used discount `id` (paid by `payer`,
      when given). */
  predicate UsedAt(t: Transaction, id: nat, payer: Option<MemberId>)
  {
    t.discount == Some(id) && t.state == Successful && (payer.Some? ==> t.payer == payer)
  }

  /** How many successful transactions used discount `id`. */
  function UsedCount(txs: seq<Transaction>, id: nat): (n: nat)
    ensures n <= |txs|
    ensures n == 0 <==> forall k :: 0 <= k < |txs| ==> !UsedAt(txs[k], id, None)
  {
    if txs == [] then 0
    else UsedCount(txs[..|txs| - 1], id) + if UsedAt(txs[|txs| - 1], id, None) then 1 else 0
  }

  /** Whether `payer` already used discount `id` successfully. */
  predicate UsedBy(txs: seq<Transaction>, id: nat, payer: MemberId)
  {
    exists k :: 0 <= k < |txs| && UsedAt(txs[k], id, Some(payer))
  }

  /** `DiscountCodeSerializer.validate_code`. */
  function ValidateCode(discounts: seq<Discount>, txs: seq<Transaction>, code: string): (r: Result<string>)
    ensures r.Ok? <==> GetDiscount(discounts, code, false).Ok? &&
                       GetDiscount(discounts, code, false).value.numUses > UsedCount(txs, GetDiscount(discounts, code, false).value.id)
    ensures r.Ok? ==> r.value == code
    ensures GetDiscount(discounts, code, false) == Raised("MultipleObjectsReturned") ==> r == Raised("MultipleObjectsReturned")
  {
    match GetDiscount(discounts, code, false)
    case Raised(e) =>
      if e == "DoesNotExist" then Raised("ValidationError: discount object not found") else Raised(e)
    case Ok(d) =>
      if d.numUses <= UsedCount(txs, d.id) then Raised("ValidationError: discount already used")
      else Ok(code)
  }

  /** The discount checks of `OrderSerializer.save`: no code (or an empty
      one) means no discount; otherwise the code must name exactly one
      active discount that targets the payer (when it has target
      members), has not expired, has uses left and was not used by the
      payer already. */
  function OrderDiscount(discounts: seq<Discount>, txs: seq<Transaction>, code: Option<string>, payer: MemberId)
    : (r: Result<Option<nat>>)
    ensures code.None? || code == Some("") ==> r == Ok(None)
    ensures r.Ok? && r.value.Some? ==>
              && code.Some? && GetDiscount(discounts, code.value, true).Ok?
              && var d := GetDiscount(discounts, code.value, true).value;
                 && r.value.value == d.id && d.isActive && d.code == code.value
                 && (d.hasTargetMember ==> payer in d.members)
                 && !d.isExpired && d.numUses > UsedCount(txs, d.id) && !UsedBy(txs, d.id, payer)
    ensures code.Some? && code != Some("") && GetDiscount(discounts, code.value, true).Ok? ==>
              var d := GetDiscount(discounts, code.value, true).value;
              (r.Ok? <==> (d.hasTargetMember ==> payer in d.members) && !d.isExpired &&
                          d.numUses > UsedCount(txs, d.id) && !UsedBy(txs, d.id, payer))
    ensures code.Some? && code != Some("") && GetDiscount(discounts, code.value, true).Raised? ==> r.Raised?
  {
    if code.None? || code.value == "" then Ok(None)
    else match GetDiscount(discounts, code.value, true)
      case Raised(e) =>
        if e == "DoesNotExist" then Raised("ValidationError: discount object not found") else Raised(e)
      case Ok(d) =>
        if d.hasTargetMember && payer !in d.members then Raised("ValidationError: you aren't in target members")
        else if d.isExpired then Raised("ValidationError: discount expired")
        else if d.numUses <= UsedCount(txs, d.id) || UsedBy(txs, d.id, payer) then
          Raised("ValidationError: discount already used")
        else Ok(Some(d.id))
  }

  /** When codes are unique, a code an order accepts also passes
      `validate_code`; the order's checks are the stricter ones. */
  lemma OrderAcceptanceImpliesValidation(discounts: seq<Discount>, txs: seq<Transaction>, code: string, payer: MemberId)
    requires forall i, j :: 0 <= i < j < |discounts| ==> discounts[i].code != discounts[j].code
    requires OrderDiscount(discounts, txs, Some(code), payer).Ok?
    requires code != ""
    ensures ValidateCode(discounts, txs, code) == Ok(code)
  {
    var d := GetDiscount(discounts, code, true).value;
    assert d in Matching(discounts, code, true);
    var all := Matching(discounts, code, false);
    assert d in all;
    AllDistinctMatching(discounts, code, false);
    assert all == [d];
  }

  /** With distinct codes at most one discount matches a code. */
  lemma {:induction false} AllDistinctMatching(discounts: seq<Discount>, code: string, activeOnly: bool)
    requires forall i, j :: 0 <= i < j < |discounts| ==> discounts[i].code != discounts[j].code
    ensures |Matching(discounts, code, activeOnly)| <= 1
  {
    if discounts != [] {
      AllDistinctMatching(discounts[1..], code, activeOnly);
      var rest := Matching(discounts[1..], code, activeOnly);
      if discounts[0].code == code && rest != [] {
        assert rest[0] in discounts[1..];
      }
    }
  }

  /** A discount whose uses are exhausted is refused by both checks. */
  lemma ExhaustedDiscountRefused(discounts: seq<Discount>, txs: seq<Transaction>, code: string, payer: MemberId)
    requires GetDiscount(discounts, code, false).Ok? && GetDiscount(discounts, code, true).Ok?
    requires GetDiscount(discounts, code, false).value.numUses <= UsedCount(txs, GetDiscount(discounts, code, false).value.id)
    requires GetDiscount(discounts, code, true).value.numUses <= UsedCount(txs, GetDiscount(discounts, code, true).value.id)
    ensures ValidateCode(discounts, txs, code).Raised?
    ensures code != "" ==> OrderDiscount(discounts, txs, Some(code), payer).Raised?
  {
  }

  /** The kinds of box an order can be for. */
  datatype BoxKind = MoneypoolBox | CashboxBox | AptboxBox | OtherBox

  datatype Order = Order(servicePackage: nat, boxKind: BoxKind, boxId: nat, endDate: int, dayCount: int)

  /** The order table. */
  class OrderBook {
    var orders: seq<Order>

    constructor ()
      ensures orders == []
    {
      orders := [];
    }
  }

  /** `OrderSerializer.save` for `payer`. The discount checks come first,
      then the box lookup (`boxExists`; Http404 when missing,
      UnboundLocalError for a box kind the view does not look up); then
      the order is stored and its transaction, paid into the platform pool
      for `amount` with the discount, is recorded. `endDate`, `dayCount`
      and `amount` are what the payment utilities compute. */
  method OrderSave(tx: TxData, code: Option<string>, payer: MemberId, servicePackage: nat, ctxKind: BoxKind, ctxId: nat,
                   boxExists: (BoxKind, nat) -> bool, discounts: seq<Discount>, endDate: int, dayCount: int,
                   amount: real, ledger: Ledger, book: OrderBook)
    returns (r: Result<nat>)
    modifies ledger, book
    ensures OrderDiscount(discounts, old(ledger.transactions), code, payer).Raised? ==>
              && r == Raised(OrderDiscount(discounts, old(ledger.transactions), code, payer).error)
              && ledger.transactions == old(ledger.transactions) && book.orders == old(book.orders)
    ensures r.Raised? ==> ledger.transactions == old(ledger.transactions) && book.orders == old(book.orders)
    ensures OrderDiscount(discounts, old(ledger.transactions), code, payer).Ok? ==>
              && (ctxKind == OtherBox ==> r == Raised("UnboundLocalError"))
              && (ctxKind != OtherBox && !boxExists(ctxKind, ctxId) ==> r == Raised("Http404"))
              && (ctxKind != OtherBox && boxExists(ctxKind, ctxId) ==>
                    && r == Ok(|old(book.orders)|)
                    && book.orders == old(book.orders) + [Order(servicePackage, ctxKind, ctxId, endDate, dayCount)]
                    && ledger.transactions == old(ledger.transactions) +
                         [Transaction(tx.source, HamyanPool, Some(payer), tx.receiver, amount, 0.0,
                                      OrderCtx(|old(book.orders)|), Init, false, None, tx.gateway,
                                      OrderDiscount(discounts, old(ledger.transactions), code, payer).value)])
  {
    var discount := OrderDiscount(discounts, ledger.transactions, code, payer);
    if discount.Raised? {
      return Raised(discount.error);
    }
    if ctxKind == OtherBox {
      return Raised("UnboundLocalError");
    }
    if !boxExists(ctxKind, ctxId) {
      return Raised("Http404");
    }
    var orderId := |book.orders|;
    book.orders := book.orders + [Order(servicePackage, ctxKind, ctxId, endDate, dayCount)];
    var _ := ledger.Create(Transaction(tx.source, HamyanPool, Some(payer), tx.receiver, amount, 0.0,
                                       OrderCtx(orderId), Init, false, None, tx.gateway, discount.value));
    r := Ok(orderId);
  }
}
