/**
 * The transaction ledger the cashbox and moneypool code writes to. The
 * Transaction model itself is not part of this model; a transaction is a
 * record, and `Transaction.objects.create` appends one to an append-only
 * sequence whose positions serve as transaction ids.
 */
module Ledger {
  import opened Common

  /** The ends of a money movement. The source code uses the same
      constants for sources and destinations (`set_transaction` passes a
      destination constant as a source), so one type covers both. */
  datatype Account =
    | Gateway
    | HamyanWallet
    | BoxBalance
    | BoxBankAccount
    | MemberBankAccount
    | HamyanPool

  datatype TxState = Init | InProgress | ToBank | Successful | Unsuccessful

  /** What a transaction pays for (`ctx_type`, `ctx_id`). */
  datatype Context =
    | CycleCtx(cycleId: nat)
    | MoneypoolCtx(moneypoolId: nat)
    | OrderCtx(orderId: nat)

  datatype Transaction = Transaction(
    source: Account,
    destination: Account,
    payer: Option<MemberId>,
    receiver: Option<MemberId>,
    amount: real,
    commission: real,
    ctx: Context,
    state: TxState,
    isGroupPay: bool,
    mother: Option<nat>,
    gateway: Option<nat>,
    discount: Option<nat>)

  /** A transaction as `Transaction.objects.create` fills in the fields
      a caller leaves out: state init, no commission, no group pay. */
  function NewTransaction(source: Account, destination: Account, payer: Option<MemberId>,
                          receiver: Option<MemberId>, amount: real, ctx: Context): (t: Transaction)
    ensures t.state == Init && t.commission == 0.0 && !t.isGroupPay && t.mother == None && t.discount == None
    ensures t.amount == amount && t.payer == payer && t.receiver == receiver
    ensures t.source == source && t.destination == destination && t.ctx == ctx
  {
    Transaction(source, destination, payer, receiver, amount, 0.0, ctx, Init, false, None, None, None)
  }

  class Ledger {
    var transactions: seq<Transaction>

    constructor ()
      ensures transactions == []
    {
      transactions := [];
    }

    /** `Transaction.objects.create`: appends `t` and returns its id. */
    method Create(t: Transaction) returns (id: nat)
      modifies this
      ensures transactions == old(transactions) + [t]
      ensures id == |old(transactions)| && transactions[id] == t
    {
      id := |transactions|;
      transactions := transactions + [t];
    }
  }

  /** True iff some successful transaction in `txs` has a cycle context
      whose id is in `cycleIds`, a destination in `destinations` and, when
      `party` is given, that member as payer or receiver. */
  predicate HasSuccessfulCycleTx(txs: seq<Transaction>, cycleIds: set<nat>,
                                 destinations: set<Account>, party: Option<MemberId>)
  {
    exists k :: 0 <= k < |txs| && SuccessfulCycleTxAt(txs[k], cycleIds, destinations, party)
  }

  predicate SuccessfulCycleTxAt(t: Transaction, cycleIds: set<nat>,
                                destinations: set<Account>, party: Option<MemberId>)
  {
    && t.state == Successful
    && t.ctx.CycleCtx?
    && t.ctx.cycleId in cycleIds
    && t.destination in destinations
    && (party.Some? ==> t.payer == party || t.receiver == party)
  }

  const AllAccounts: set<Account> :=
    {Gateway, HamyanWallet, BoxBalance, BoxBankAccount, MemberBankAccount, HamyanPool}
}
