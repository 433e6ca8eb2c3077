/**
 * Moneypools (savings pools with registered cash-ins and cash-outs), their
 * poolships (a member's seat in a pool), the cash-out deed and the
 * cash-in helpers of `cashin_utils`.
 *
 * The Moneypool, Poolship and MoneypoolCashin models are not part of this
 * model: their fields appear here as far as the modelled code uses them.
 * `charge_bank_balance` adds to and `withdraw_from_bank_balance` subtracts
 * from the pool's `bank_balance`; a cash-in's `charge_bank_balance`
 * charges its poolship's pool; a cash-in's deed type is derived from its
 * transaction as a cash-out's is, and its `is_removable` is a parameter.
 */
module Moneypool {
  import opened Common
  import opened Ledger
  import Cashbox

  datatype PoolRole = Owner | Manager | Normal
  datatype DeedType = Transactional | Record
  datatype CashinType = Custom | Repayment
  datatype CashoutType = CustomCashout | LoanCashout

  class Moneypool {
    const id: nat
    var bankBalance: int
    var trustState: Cashbox.TrustState
    var shareValue: int
    var isArchived: bool
    /** `is_registrable` of the Moneypool model. */
    var registrable: bool

    constructor (id: nat, registrable: bool)
      ensures this.id == id && this.registrable == registrable
      ensures bankBalance == 0 && trustState == Cashbox.Trusted && shareValue == 0 && !isArchived
    {
      this.id := id;
      this.registrable := registrable;
      bankBalance := 0;
      trustState := Cashbox.Trusted;
      shareValue := 0;
      isArchived := false;
    }

    /** A pool is worried while its trust state is one of the worried states. */
    predicate IsWorriedBox()
      reads this
    {
      trustState in {Cashbox.WorriedUnverified, Cashbox.WorriedInProgress, Cashbox.WorriedVerified}
    }

    method ChargeBankBalance(amount: int)
      modifies this`bankBalance
      ensures bankBalance == old(bankBalance) + amount
    {
      bankBalance := bankBalance + amount;
    }

    method WithdrawFromBankBalance(amount: int)
      modifies this`bankBalance
      ensures bankBalance == old(bankBalance) - amount
    {
      bankBalance := bankBalance - amount;
    }
  }

  class Poolship {
    const id: nat
    const moneypool: Moneypool
    const member: MemberId
    const role: PoolRole
    var numberOfShares: int

    constructor (id: nat, moneypool: Moneypool, member: MemberId, role: PoolRole)
      ensures this.id == id && this.moneypool == moneypool && this.member == member
      ensures this.role == role && numberOfShares == 1
    {
      this.id := id;
      this.moneypool := moneypool;
      this.member := member;
      this.role := role;
      numberOfShares := 1;
    }
  }

  /** A deed is transactional exactly when a transaction is attached. */
  function DeedOf(transaction: Option<nat>): (d: DeedType)
    ensures d == Transactional <==> transaction.Some?
    ensures d == Record <==> transaction.None?
  {
    if transaction.Some? then Transactional else Record
  }

  class MoneypoolCashout {
    const id: nat
    const registrar: Poolship?
    const poolship: Poolship
    const amount: int
    const kind: CashoutType
    const tag: string
    const time: int
    var transaction: Option<nat>

    constructor (id: nat, registrar: Poolship?, poolship: Poolship, amount: int, kind: CashoutType,
                 tag: string, time: int, transaction: Option<nat>)
      ensures this.id == id && this.registrar == registrar && this.poolship == poolship && this.amount == amount
      ensures this.kind == kind && this.tag == tag && this.time == time
      ensures this.transaction == transaction
    {
      this.id := id;
      this.registrar := registrar;
      this.poolship := poolship;
      this.amount := amount;
      this.kind := kind;
      this.tag := tag;
      this.time := time;
      this.transaction := transaction;
    }

    function DeedType(): (d: DeedType)
      reads this
      ensures d == Transactional <==> transaction.Some?
    {
      DeedOf(transaction)
    }

    /** Successful when no transaction is attached, else the state of the
        attached transaction. */
    function State(txs: seq<Transaction>): (s: TxState)
      requires transaction.Some? ==> transaction.value < |txs|
      reads this
      ensures transaction.None? ==> s == Successful
      ensures transaction.Some? ==> s == txs[transaction.value].state
    {
      if transaction.None? then Successful else txs[transaction.value].state
    }

    /** `Transaction.is_reportable` is not part of this model and is the
        parameter `reportable`. */
    predicate IsReportable(txs: seq<Transaction>, reportable: Transaction -> bool)
      requires transaction.Some? ==> transaction.value < |txs|
      reads this
      ensures transaction.None? ==> IsReportable(txs, reportable)
    {
      transaction.None? || reportable(txs[transaction.value])
    }

    predicate IsRemovable()
      reads this
      ensures IsRemovable() <==> DeedType() == Record
    {
      DeedType() == Record
    }

    /** Takes `amount` out of the pool's bank balance; a transactional
        cash-out raises ValueError and changes nothing. */
    method WithdrawBankBalance() returns (r: Cashbox.Outcome)
      modifies poolship.moneypool`bankBalance
      ensures DeedType() == Record ==>
                r == Cashbox.Done && poolship.moneypool.bankBalance == old(poolship.moneypool.bankBalance) - amount
      ensures DeedType() == Transactional ==>
                r == Cashbox.Failed("ValueError") && poolship.moneypool.bankBalance == old(poolship.moneypool.bankBalance)
    {
      if DeedType() == Record {
        poolship.moneypool.WithdrawFromBankBalance(amount);
        r := Cashbox.Done;
      } else {
        r := Cashbox.Failed("ValueError");
      }
    }

    /** Puts `amount` back for a record cash-out; no-op otherwise. */
    method RollbackBankBalance()
      modifies poolship.moneypool`bankBalance
      ensures DeedType() == Record ==>
                poolship.moneypool.bankBalance == old(poolship.moneypool.bankBalance) + amount
      ensures DeedType() == Transactional ==>
                poolship.moneypool.bankBalance == old(poolship.moneypool.bankBalance)
    {
      if DeedType() == Record {
        poolship.moneypool.ChargeBankBalance(amount);
      }
    }

    /** Attaches a payout transaction from the pool's balance to the
        poolship's member, unless one is attached already; either way
        returns the attached transaction. */
    method SetTransaction(destination: Option<Account>, ledger: Ledger) returns (id: nat)
      modifies this`transaction, ledger
      ensures old(transaction).Some? ==>
                id == old(transaction).value && transaction == old(transaction)
                && ledger.transactions == old(ledger.transactions)
      ensures old(transaction).None? ==>
                && ledger.transactions == old(ledger.transactions) + [PayoutTransaction(this, destination)]
                && id == |old(ledger.transactions)| && transaction == Some(id)
    {
      if transaction.None? {
        id := ledger.Create(PayoutTransaction(this, destination));
        transaction := Some(id);
      } else {
        id := transaction.value;
      }
    }

    /** Deletes a removable cash-out and charges its amount back; raises
        ValueError for a transactional one. */
    method Remove(deeds: Deeds) returns (r: Cashbox.Outcome)
      modifies poolship.moneypool`bankBalance, deeds`cashouts
      ensures IsRemovable() ==>
                && r == Cashbox.Done
                && poolship.moneypool.bankBalance == old(poolship.moneypool.bankBalance) + amount
                && deeds.cashouts == Drop(old(deeds.cashouts), this)
      ensures !IsRemovable() ==>
                && r == Cashbox.Failed("ValueError")
                && poolship.moneypool.bankBalance == old(poolship.moneypool.bankBalance)
                && deeds.cashouts == old(deeds.cashouts)
    {
      if !IsRemovable() {
        return Cashbox.Failed("ValueError");
      }
      poolship.moneypool.ChargeBankBalance(amount);
      deeds.cashouts := Drop(deeds.cashouts, this);
      r := Cashbox.Done;
    }
  }

  /** The transaction `set_transaction` creates: from the box balance to
      the poolship's member, to the wallet unless a destination is given. */
  function PayoutTransaction(c: MoneypoolCashout, destination: Option<Account>): (t: Transaction)
    reads c
    ensures t.amount == c.amount as real && t.receiver == Some(c.poolship.member) && t.payer.None?
    ensures t.source == BoxBalance && t.ctx == MoneypoolCtx(c.poolship.moneypool.id)
    ensures t.destination == (if destination.Some? then destination.value else HamyanWallet)
    ensures t.state == Init && t.mother.None?
  {
    NewTransaction(BoxBalance, if destination.Some? then destination.value else HamyanWallet,
                   None, Some(c.poolship.member), c.amount as real, MoneypoolCtx(c.poolship.moneypool.id))
  }

  /** A removable cash-out carries no transaction, so it always reads as
      successful. */
  lemma RemovableIsSuccessful(c: MoneypoolCashout, txs: seq<Transaction>)
    requires c.IsRemovable()
    ensures c.transaction.None? && c.State(txs) == Successful
  {
  }

  /** Withdrawing and then rolling back a record cash-out leaves the pool's
      bank balance where it was. */
  method WithdrawThenRollback(c: MoneypoolCashout) returns (r: Cashbox.Outcome)
    requires c.IsRemovable()
    modifies c.poolship.moneypool`bankBalance
    ensures r == Cashbox.Done
    ensures c.poolship.moneypool.bankBalance == old(c.poolship.moneypool.bankBalance)
  {
    r := c.WithdrawBankBalance();
    assert c.poolship.moneypool.bankBalance == old(c.poolship.moneypool.bankBalance) - c.amount;
    c.RollbackBankBalance();
  }

  class MoneypoolCashin {
    const registrar: Poolship
    const poolship: Poolship
    const amount: int
    const kind: CashinType
    const tag: string
    const time: int
    const transaction: Option<nat>

    constructor (registrar: Poolship, poolship: Poolship, amount: int, kind: CashinType,
                 tag: string, time: int, transaction: Option<nat>)
      ensures this.registrar == registrar && this.poolship == poolship && this.amount == amount
      ensures this.kind == kind && this.tag == tag && this.time == time
      ensures this.transaction == transaction
    {
      this.registrar := registrar;
      this.poolship := poolship;
      this.amount := amount;
      this.kind := kind;
      this.tag := tag;
      this.time := time;
      this.transaction := transaction;
    }
  }

  /** The cash-in and cash-out tables. */
  class Deeds {
    var cashins: seq<MoneypoolCashin>
    var cashouts: seq<MoneypoolCashout>

    constructor ()
      ensures cashins == [] && cashouts == []
    {
      cashins := [];
      cashouts := [];
    }
  }

  /** `s` without the object `x`. */
  function Drop<T(==)>(s: seq<T>, x: T): (r: seq<T>)
    ensures x !in r && |r| <= |s|
    ensures forall k :: 0 <= k < |r| ==> r[k] in s
    ensures forall k :: 0 <= k < |s| && s[k] != x ==> s[k] in r
  {
    if s == [] then []
    else if s[|s| - 1] == x then Drop(s[..|s| - 1], x)
    else Drop(s[..|s| - 1], x) + [s[|s| - 1]]
  }

  /** Where a cash-in of the pool lands: its bank account when the pool
      is worried, else the box balance. */
  function CashinDestination(m: Moneypool): (a: Account)
    reads m
    ensures a == BoxBankAccount <==> m.IsWorriedBox()
    ensures a == BoxBalance <==> !m.IsWorriedBox()
  {
    if m.IsWorriedBox() then BoxBankAccount else BoxBalance
  }

  /** The transaction `create_moneypool_cashin` records for a cash-in. */
  function CashinTransaction(caller: Poolship, receiver: Poolship, amount: int, source: Account,
                             gateway: nat, mother: Option<nat>, commission: real): (t: Transaction)
    reads caller.moneypool
    ensures t.payer == Some(caller.member) && t.receiver == Some(receiver.member)
    ensures t.amount == amount as real && t.commission == commission && t.source == source
    ensures t.destination == CashinDestination(caller.moneypool)
    ensures t.ctx == MoneypoolCtx(caller.moneypool.id) && t.mother == mother && t.gateway == Some(gateway)
  {
    Transaction(source, CashinDestination(caller.moneypool), Some(caller.member), Some(receiver.member),
                amount as real, commission, MoneypoolCtx(caller.moneypool.id), Init, false, mother, Some(gateway), None)
  }

  /** The `payment` part of the cash-in response. */
  datatype CashinPayment =
    | NoPayment
    | GatewayPayment(amount: int, commission: real, payUrl: string)
    | WalletPayment(amount: int, commission: real)

  /** Whether `create_moneypool_cashin` records a transaction. */
  predicate CashinHasTransaction(deed: DeedType, source: Account)
  {
    || (deed == Transactional && source in {Gateway, HamyanWallet})
    || (deed == Record && source == HamyanWallet)
  }

  /** Registers a cash-in of `amount` for `receiver`, entered by `caller`.
      Transactional deeds record a transaction and, outside a group pay
      (no mother), a payment for the response: through the gateway with
      the URL `payUrl` that `gateway.request_pay` returns (not part of this
      model), or from the wallet. Transactional deeds from other sources
      fail with UnboundLocalError; a gateway deed without a mother and
      without an explicit gateway fails with AttributeError after its
      records are saved. Record deeds charge the pool's bank balance. */
  method CreateMoneypoolCashin(caller: Poolship, receiver: Poolship, amount: int, kind: CashinType,
                               tag: string, source: Account, deed: DeedType, time: Option<int>,
                               now: int, gateway: Option<nat>, defaultGateway: nat,
                               mother: Option<nat>, commission: real, payUrl: string,
                               ledger: Ledger, deeds: Deeds)
    returns (r: Result<(CashinPayment, MoneypoolCashin)>)
    modifies ledger, deeds`cashins, receiver.moneypool`bankBalance
    ensures r.Raised? <==>
              (deed == Transactional && (source !in {Gateway, HamyanWallet}
                                         || (source == Gateway && mother.None? && gateway.None?)))
    ensures CashinHasTransaction(deed, source) ==>
              ledger.transactions == old(ledger.transactions) +
                [CashinTransaction(caller, receiver, amount, source,
                                   if gateway.Some? then gateway.value else defaultGateway, mother, commission)]
    ensures !CashinHasTransaction(deed, source) ==> ledger.transactions == old(ledger.transactions)
    ensures deed == Record ==>
              receiver.moneypool.bankBalance == old(receiver.moneypool.bankBalance) + amount
    ensures deed == Transactional ==>
              receiver.moneypool.bankBalance == old(receiver.moneypool.bankBalance)
    ensures deed == Transactional && source !in {Gateway, HamyanWallet} ==>
              r == Raised("UnboundLocalError") && deeds.cashins == old(deeds.cashins)
    ensures deed == Transactional && source == Gateway && mother.None? && gateway.None? ==>
              && r == Raised("AttributeError")
              && |deeds.cashins| == |old(deeds.cashins)| + 1
              && deeds.cashins[..|old(deeds.cashins)|] == old(deeds.cashins)
              && var cashin := deeds.cashins[|old(deeds.cashins)|];
              && fresh(cashin)
              && cashin.registrar == caller && cashin.poolship == receiver && cashin.amount == amount
              && cashin.kind == kind && cashin.tag == tag
              && cashin.time == (if time.Some? then time.value else now)
              && cashin.transaction == Some(|old(ledger.transactions)|)
    ensures r.Ok? ==>
              var (payment, cashin) := r.value;
              && fresh(cashin) && deeds.cashins == old(deeds.cashins) + [cashin]
              && cashin.registrar == caller && cashin.poolship == receiver && cashin.amount == amount
              && cashin.kind == kind && cashin.tag == tag
              && cashin.time == (if time.Some? then time.value else now)
              && (cashin.transaction.Some? <==> CashinHasTransaction(deed, source))
              && (cashin.transaction.Some? ==> cashin.transaction.value == |old(ledger.transactions)|)
              && payment == (if deed == Transactional && mother.None? then
                               if source == Gateway then GatewayPayment(amount, commission, payUrl)
                               else WalletPayment(amount, commission)
                             else NoPayment)
  {
    var when := if time.Some? then time.value else now;
    var gw := if gateway.Some? then gateway.value else defaultGateway;
    if deed == Transactional {
      if source != Gateway && source != HamyanWallet {
        return Raised("UnboundLocalError");
      }
      var id := ledger.Create(CashinTransaction(caller, receiver, amount, source, gw, mother, commission));
      var cashin := new MoneypoolCashin(caller, receiver, amount, kind, tag, when, Some(id));
      deeds.cashins := deeds.cashins + [cashin];
      var payment := NoPayment;
      if mother.None? {
        if source == Gateway {
          if gateway.None? {
            return Raised("AttributeError");
          }
          payment := GatewayPayment(amount, commission, payUrl);
        } else {
          payment := WalletPayment(amount, commission);
        }
      }
      r := Ok((payment, cashin));
    } else {
      var cashin;
      if source == HamyanWallet {
        var id := ledger.Create(CashinTransaction(caller, receiver, amount, source, gw, mother, commission));
        cashin := new MoneypoolCashin(caller, receiver, amount, kind, tag, when, Some(id));
      } else {
        cashin := new MoneypoolCashin(caller, receiver, amount, kind, tag, when, None);
      }
      deeds.cashins := deeds.cashins + [cashin];
      receiver.moneypool.ChargeBankBalance(amount);
      r := Ok((NoPayment, cashin));
    }
  }

  /** Removes a removable record cash-in and withdraws its amount; a
      non-removable one is only logged, a removable transactional one is
      left alone. */
  method RemoveMoneypoolCashin(cashin: MoneypoolCashin, removable: bool, deeds: Deeds)
    modifies cashin.poolship.moneypool`bankBalance, deeds`cashins
    ensures removable && DeedOf(cashin.transaction) == Record ==>
              && cashin.poolship.moneypool.bankBalance == old(cashin.poolship.moneypool.bankBalance) - cashin.amount
              && deeds.cashins == Drop(old(deeds.cashins), cashin)
    ensures !(removable && DeedOf(cashin.transaction) == Record) ==>
              && cashin.poolship.moneypool.bankBalance == old(cashin.poolship.moneypool.bankBalance)
              && deeds.cashins == old(deeds.cashins)
  {
    if !removable {
      // only logged
    } else if DeedOf(cashin.transaction) == Record {
      cashin.poolship.moneypool.WithdrawFromBankBalance(cashin.amount);
      deeds.cashins := Drop(deeds.cashins, cashin);
    }
  }

  /** Registering a record cash-in from a source other than the wallet and
      removing it again restores the pool's bank balance and the cash-in
      table. (A record cash-in from the wallet carries a transaction, so
      its deed reads as transactional and removal leaves it in place.) */
  method RecordCashinRoundTrip(caller: Poolship, receiver: Poolship, amount: int, source: Account,
                               now: int, defaultGateway: nat, ledger: Ledger, deeds: Deeds)
    returns (r: Result<(CashinPayment, MoneypoolCashin)>)
    requires source != HamyanWallet
    modifies ledger, deeds`cashins, receiver.moneypool`bankBalance
    ensures r.Ok?
    ensures receiver.moneypool.bankBalance == old(receiver.moneypool.bankBalance)
    ensures forall c :: c in deeds.cashins <==> c in old(deeds.cashins)
  {
    r := CreateMoneypoolCashin(caller, receiver, amount, Custom, "", source, Record, None, now,
                               None, defaultGateway, None, 0.0, "", ledger, deeds);
    var cashin := r.value.1;
    assert DeedOf(cashin.transaction) == Record && cashin.poolship == receiver;
    ghost var before := deeds.cashins;
    assert before == old(deeds.cashins) + [cashin] && cashin !in old(deeds.cashins);
    RemoveMoneypoolCashin(cashin, true, deeds);
    forall c | c in deeds.cashins
      ensures c in old(deeds.cashins)
    {
      var k :| 0 <= k < |deeds.cashins| && deeds.cashins[k] == c;
      assert c in before && c != cashin;
    }
    forall c | c in old(deeds.cashins)
      ensures c in deeds.cashins
    {
      var k :| 0 <= k < |old(deeds.cashins)| && old(deeds.cashins)[k] == c;
      assert before[k] == c && c != cashin;
    }
  }
}
