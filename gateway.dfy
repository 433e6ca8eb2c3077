/**
 * The gateway payment views: `request_gateway_pay`, which pays one
 * membership's remaining share (or tops up the caller's wallet) through a
 * gateway, and `request_group_pay`, which pays the remaining shares and
 * commissions of several memberships under one group-pay mother
 * transaction. `gateway.request_pay` is not part of this model: whether
 * it leaves the transaction unsuccessful is the parameter `unsuccessful`,
 * and the pay URL it returns is left out of the answers.
 */
module GatewayViews {
  import opened Common
  import opened Ledger
  import opened Cashbox
  import PaymentSerializers

  /** A payment gateway. */
  datatype Gateway = Gateway(id: nat, uniqueCode: string, isActive: bool)

  /** The `destination` field of a pay request: one of the account
      constants, or some other text. */
  datatype Destination = ToAccount(account: Account) | Unrecognised(text: string)

  /** The fields of a `request_gateway_pay` body; `None` is a missing
      key. The client type only matters to `request_pay`. */
  datatype PayRequest = PayRequest(gatewayId: Option<nat>, totalAmount: Option<real>,
                                   destination: Option<Destination>, receiverMembershipId: Option<nat>)

  /** What a view answers: a response code, the payment result with its
      amount and commission, or an exception. */
  datatype PayAnswer = Respond(code: int) | Paid(status: int, amount: real, commission: real) | Crash(error: string)

  /** A response body: a JSON object of (key, value) pairs, or a Python
      set literal of strings, which is not an object. */
  datatype Body = Object(pairs: seq<(string, string)>) | SetLiteral(items: set<string>)

  /** Django's `JsonResponse` with its default `safe=True`: an object
      becomes a response with the status, any other body raises
      TypeError. */
  function JsonResponse(body: Body, status: int): (a: PayAnswer)
    ensures body.Object? <==> a == Respond(status)
    ensures body.SetLiteral? <==> a == Crash("TypeError")
  {
    match body
    case Object(_) => Respond(status)
    case SetLiteral(_) => Crash("TypeError")
  }

  /** The missing-memberships answer of `request_group_pay` as written:
      `{"Message", "No Membership in request"}` is a set, not a dict. */
  function MissingMembershipsAsWritten(): (a: PayAnswer)
    ensures a.Crash?
  {
    JsonResponse(SetLiteral({"Message", "No Membership in request"}), 400)
  }

  /** The request without memberships, which the view means to answer
      with 400, raises instead. */
  lemma MissingMembershipsRaises()
    ensures MissingMembershipsAsWritten() == Crash("TypeError")
    ensures MissingMembershipsAsWritten() != Respond(400)
  {
  }

  /** The missing-memberships answer with the message as a dict, as the
      view intends: a 400 response. */
  function MissingMemberships(): (a: PayAnswer)
    ensures a == Respond(400)
  {
    JsonResponse(Object([("Message", "No Membership in request")]), 400)
  }

  /** The first active gateway with the id. */
  function ActiveGateway(gateways: seq<Gateway>, id: nat): (r: Option<Gateway>)
    ensures r.Some? ==> r.value in gateways && r.value.id == id && r.value.isActive
    ensures r.None? <==> forall k :: 0 <= k < |gateways| ==> !(gateways[k].id == id && gateways[k].isActive)
  {
    if gateways == [] then None
    else if gateways[0].id == id && gateways[0].isActive then Some(gateways[0])
    else ActiveGateway(gateways[1..], id)
  }

  /** The first active gateway with the unique code. */
  function ActiveGatewayByCode(gateways: seq<Gateway>, code: string): (r: Option<Gateway>)
    ensures r.Some? ==> r.value in gateways && r.value.uniqueCode == code && r.value.isActive
    ensures r.None? <==> forall k :: 0 <= k < |gateways| ==> !(gateways[k].uniqueCode == code && gateways[k].isActive)
  {
    if gateways == [] then None
    else if gateways[0].uniqueCode == code && gateways[0].isActive then Some(gateways[0])
    else ActiveGatewayByCode(gateways[1..], code)
  }

  /** The checks `request_gateway_pay` makes before creating anything, in
      order; 0 lets the payment go ahead. */
  function PayRefusal(gateways: seq<Gateway>, req: PayRequest, payer: Option<MemberId>, box: Cashbox?): (code: int)
    reads box
    ensures req.gatewayId.None? ==> code == 1111
    ensures req.gatewayId.Some? && ActiveGateway(gateways, req.gatewayId.value).None? ==> code == 1112
    ensures code in {0, 1111, 1112, 1113, 1114}
    ensures code == 0 <==>
              && req.gatewayId.Some? && ActiveGateway(gateways, req.gatewayId.value).Some?
              && payer.Some? && req.totalAmount.Some? && req.destination.Some?
              && req.destination.value in {ToAccount(BoxBalance), ToAccount(HamyanWallet)}
              && box != null && box.state == Activated
  {
    if req.gatewayId.None? then 1111
    else if ActiveGateway(gateways, req.gatewayId.value).None? then 1112
    else if payer.None? then 1112
    else if req.totalAmount.None? then 1111
    else if req.destination.None? then 1111
    else if req.destination.value !in {ToAccount(BoxBalance), ToAccount(HamyanWallet)} then 1113
    else if box == null then 1112
    else if box.state != Activated then 1114
    else 0
  }

  /** `cashbox.get_current_period().get_current_cycle().id`: an
      AttributeError without a current period or cycle. */
  function CurrentCycleId(box: Cashbox): (r: Result<nat>)
    reads box, box.current
    ensures r.Ok? <==> box.current != null && box.current.CurrentCycle() != null
    ensures r.Ok? ==> r.value == box.current.CurrentCycle().id
  {
    if box.current == null then Raised("AttributeError")
    else if box.current.CurrentCycle() == null then Raised("AttributeError")
    else Ok(box.current.CurrentCycle().id)
  }

  /** The first membership with the id (`Membership.objects.filter(id=…).first()`). */
  function MembershipById(table: seq<(nat, Membership)>, id: nat): (r: Membership?)
    ensures r != null ==> exists k :: 0 <= k < |table| && table[k] == (id, r)
    ensures r == null <==> forall k :: 0 <= k < |table| ==> table[k].0 != id
  {
    if table == [] then null
    else if table[0].0 == id then table[0].1
    else MembershipById(table[1..], id)
  }

  /** `calculate_remaining_commission`, with an AttributeError where the
      commission needs a current period the box does not have. */
  function CommissionDue(m: Membership, rate: int -> int): (r: Result<real>)
    reads m, m.period, m.period.cashbox, m.period.cashbox.current
    ensures r.Ok? ==> m.period.cashbox.periodIndex == 1 ==> m.period.cashbox.current != null
    ensures r.Ok? ==> r.value * m.ShareAmount() as real == m.RemainingShare() as real * m.Commission(rate) as real
  {
    if m.period.cashbox.periodIndex == 1 && m.period.cashbox.current == null then Raised("AttributeError")
    else m.RemainingCommission(rate)
  }

  /** What the payment records once its checks pass. */
  datatype Plan = Record(t: Transaction) | Refuse(code: int) | Fail(error: string)

  /** The transaction `request_gateway_pay` creates for a request that
      passed `PayRefusal`: a wallet top-up of the whole amount, or a
      payment to the receiver membership of the amount less its remaining
      commission, recorded as the commission; a worried box is paid into
      its bank account. `receiver` is the membership looked up by id. */
  function GatewayPayPlan(total: real, toWallet: bool, payer: MemberId, gateway: Gateway, box: Cashbox,
                          receiverId: Option<nat>, receiver: Membership?, rate: int -> int): (p: Plan)
    reads box, box.current
    reads if receiver != null then {receiver, receiver.period, receiver.period.cashbox} else {}
    reads if receiver != null then {receiver.period.cashbox.current} else {}
    ensures p.Record? ==> p.t.amount + p.t.commission == total
    ensures p.Record? ==> p.t.source == Account.Gateway && p.t.payer == Some(payer) && p.t.gateway == Some(gateway.id)
    ensures p.Record? ==> CurrentCycleId(box).Ok? && p.t.ctx == CycleCtx(CurrentCycleId(box).value)
    ensures p.Record? ==> p.t.state == Init && !p.t.isGroupPay && p.t.mother.None?
    ensures toWallet && CurrentCycleId(box).Ok? ==>
              p.Record? && p.t.destination == HamyanWallet && p.t.receiver == Some(payer) && p.t.amount == total
    ensures !toWallet && receiverId.None? ==> p == Refuse(1111)
    ensures !toWallet && receiverId.Some? && receiver == null ==> p == Fail("AttributeError")
    ensures !toWallet && p.Record? ==>
              && receiver != null && p.t.receiver == Some(receiver.member)
              && CommissionDue(receiver, rate) == Ok(p.t.commission)
              && p.t.destination == (if box.IsWorriedBox() then BoxBankAccount else BoxBalance)
    ensures p.Refuse? ==> p.code == 1111
  {
    if toWallet then
      match CurrentCycleId(box)
      case Raised(e) => Fail(e)
      case Ok(cycle) =>
        Record(Transaction(Account.Gateway, HamyanWallet, Some(payer), Some(payer), total, 0.0, CycleCtx(cycle), Init,
                           false, None, Some(gateway.id), None))
    else
      var destination := if box.IsWorriedBox() then BoxBankAccount else BoxBalance;
      if receiverId.None? then Refuse(1111)
      else if receiver == null then Fail("AttributeError")
      else match CommissionDue(receiver, rate)
        case Raised(e) => Fail(e)
        case Ok(commission) =>
          match CurrentCycleId(box)
          case Raised(e) => Fail(e)
          case Ok(cycle) =>
            Record(Transaction(Account.Gateway, destination, Some(payer), Some(receiver.member), total - commission,
                               commission, CycleCtx(cycle), Init, false, None, Some(gateway.id), None))
  }

  /** `request_gateway_pay`: nothing is created unless every check passes
      and the plan yields a transaction; a transaction `request_pay` left
      unsuccessful answers 1115, otherwise the answer carries the total as
      amount and a commission that is always 0. */
  method RequestGatewayPay(gateways: seq<Gateway>, req: PayRequest, payer: Option<MemberId>, box: Cashbox?,
                           table: seq<(nat, Membership)>, rate: int -> int, unsuccessful: bool, ledger: Ledger)
    returns (a: PayAnswer)
    modifies ledger
    ensures PayRefusal(gateways, req, payer, box) != 0 ==>
              a == Respond(PayRefusal(gateways, req, payer, box)) && ledger.transactions == old(ledger.transactions)
    ensures PayRefusal(gateways, req, payer, box) == 0 ==>
              var receiver := if req.receiverMembershipId.Some? then MembershipById(table, req.receiverMembershipId.value) else null;
              var p := GatewayPayPlan(req.totalAmount.value, req.destination.value == ToAccount(HamyanWallet), payer.value,
                                      ActiveGateway(gateways, req.gatewayId.value).value, box,
                                      req.receiverMembershipId, receiver, rate);
              && (p.Refuse? ==> a == Respond(p.code) && ledger.transactions == old(ledger.transactions))
              && (p.Fail? ==> a == Crash(p.error) && ledger.transactions == old(ledger.transactions))
              && (p.Record? ==> ledger.transactions == old(ledger.transactions) + [p.t])
              && (p.Record? && unsuccessful ==> a == Respond(1115))
              && (p.Record? && !unsuccessful ==> a == Paid(1110, req.totalAmount.value, 0.0))
  {
    var code := PayRefusal(gateways, req, payer, box);
    if code != 0 {
      return Respond(code);
    }
    var gateway := ActiveGateway(gateways, req.gatewayId.value).value;
    var total := req.totalAmount.value;
    var amount := total;
    var receiver := if req.receiverMembershipId.Some? then MembershipById(table, req.receiverMembershipId.value) else null;
    var p := GatewayPayPlan(total, req.destination.value == ToAccount(HamyanWallet), payer.value, gateway, box,
                            req.receiverMembershipId, receiver, rate);
    match p
    case Refuse(c) => return Respond(c);
    case Fail(e) => return Crash(e);
    case Record(t) =>
      var _ := ledger.Create(t);
      if unsuccessful {
        return Respond(1115);
      }
      a := Paid(1110, amount, total - amount);
  }

  // ---------------------------------------------------------------------
  // request_group_pay
  // ---------------------------------------------------------------------

  /** What one membership owes: its remaining share and commission. */
  datatype Due = Due(member: MemberId, share: int, commission: real)

  /** The first membership with the id in a period of `box`. */
  function BoxMembership(table: seq<(nat, Membership)>, id: nat, box: Cashbox): (r: Membership?)
    ensures r != null ==> r.period.cashbox == box && exists k :: 0 <= k < |table| && table[k] == (id, r)
    ensures r == null <==> forall k :: 0 <= k < |table| ==> !(table[k].0 == id && table[k].1.period.cashbox == box)
  {
    if table == [] then null
    else if table[0].0 == id && table[0].1.period.cashbox == box then table[0].1
    else BoxMembership(table[1..], id, box)
  }

  /** The dues of the requested memberships found in the box, in request
      order, skipping the ids that are not; the first failing commission
      fails the whole. */
  function DuesOf(table: seq<(nat, Membership)>, ids: seq<nat>, box: Cashbox, rate: int -> int): (r: Result<seq<Due>>)
    reads set k | 0 <= k < |table| :: table[k].1
    reads set k | 0 <= k < |table| :: table[k].1.period
    reads set k | 0 <= k < |table| :: table[k].1.period.cashbox
    reads set k | 0 <= k < |table| :: table[k].1.period.cashbox.current
    ensures r.Ok? ==> |r.value| <= |ids|
  {
    if ids == [] then Ok([])
    else
      match DuesOf(table, ids[..|ids| - 1], box, rate)
      case Raised(e) => Raised(e)
      case Ok(ds) =>
        var m := BoxMembership(table, ids[|ids| - 1], box);
        if m == null then Ok(ds)
        else
          match CommissionDue(m, rate)
          case Raised(e) => Raised(e)
          case Ok(c) => Ok(ds + [Due(m.member, m.RemainingShare(), c)])
  }

  /** The sums of a list of dues. */
  function ShareSum(ds: seq<Due>): int
  {
    if ds == [] then 0 else ShareSum(ds[..|ds| - 1]) + ds[|ds| - 1].share
  }

  function CommissionSum(ds: seq<Due>): real
  {
    if ds == [] then 0.0 else CommissionSum(ds[..|ds| - 1]) + ds[|ds| - 1].commission
  }

  /** `total_sum`: each due's commission plus its share. */
  function DueTotal(ds: seq<Due>): real
  {
    if ds == [] then 0.0 else DueTotal(ds[..|ds| - 1]) + (ds[|ds| - 1].commission + ds[|ds| - 1].share as real)
  }

  /** The total splits into the commissions and the shares. */
  lemma {:induction false} DueTotalSplits(ds: seq<Due>)
    ensures DueTotal(ds) == CommissionSum(ds) + ShareSum(ds) as real
  {
    if ds != [] {
      DueTotalSplits(ds[..|ds| - 1]);
    }
  }

  /** The loop of `request_group_pay`: looks up each requested
      membership in the box and adds up its commission and its total
      due. */
  method CollectDues(table: seq<(nat, Membership)>, ids: seq<nat>, box: Cashbox, rate: int -> int)
    returns (r: Result<seq<Due>>, commissionSum: real, totalSum: real)
    ensures r == DuesOf(table, ids, box, rate)
    ensures r.Ok? ==> commissionSum == CommissionSum(r.value) && totalSum == DueTotal(r.value)
  {
    var dues: seq<Due> := [];
    commissionSum, totalSum := 0.0, 0.0;
    var i := 0;
    while i < |ids|
      invariant 0 <= i <= |ids|
      invariant DuesOf(table, ids[..i], box, rate) == Ok(dues)
      invariant commissionSum == CommissionSum(dues) && totalSum == DueTotal(dues)
    {
      assert ids[..i + 1][..i] == ids[..i];
      var m := BoxMembership(table, ids[i], box);
      if m != null {
        var c := CommissionDue(m, rate);
        if c.Raised? {
          assert ids[..i + 1] <= ids;
          PrefixRaises(table, ids, i + 1, box, rate);
          return Raised(c.error), commissionSum, totalSum;
        }
        var d := Due(m.member, m.RemainingShare(), c.value);
        assert (dues + [d])[..|dues|] == dues;
        dues := dues + [d];
        commissionSum := commissionSum + c.value;
        totalSum := totalSum + (c.value + m.RemainingShare() as real);
      }
      i := i + 1;
    }
    assert ids[..i] == ids;
    r := Ok(dues);
  }

  /** Once a prefix of the ids fails, so does the whole request. */
  lemma {:induction false} PrefixRaises(table: seq<(nat, Membership)>, ids: seq<nat>, n: nat, box: Cashbox, rate: int -> int)
    requires n <= |ids| && DuesOf(table, ids[..n], box, rate).Raised?
    ensures DuesOf(table, ids, box, rate) == DuesOf(table, ids[..n], box, rate)
    decreases |ids| - n
  {
    if n < |ids| {
      assert ids[..n + 1][..n] == ids[..n];
      PrefixRaises(table, ids, n + 1, box, rate);
    } else {
      assert ids[..n] == ids;
    }
  }

  /** The mother of a group pay: from the caller to nobody, for the total
      less the commissions, with the commissions as its commission. */
  function GroupMother(ds: seq<Due>, payer: MemberId, gateway: Option<nat>, destination: Account, cycle: nat): Transaction
  {
    Transaction(Account.Gateway, destination, Some(payer), None, DueTotal(ds) - CommissionSum(ds), CommissionSum(ds),
                CycleCtx(cycle), Init, true, None, gateway, None)
  }

  /** One child per due: its member's remaining share, with its
      commission, linked to the mother. */
  function GroupChildren(ds: seq<Due>, payer: MemberId, gateway: Option<nat>, destination: Account, cycle: nat,
                         mother: nat): (r: seq<Transaction>)
    ensures |r| == |ds|
    ensures forall k :: 0 <= k < |ds| ==>
              r[k] == Transaction(Account.Gateway, destination, Some(payer), Some(ds[k].member), ds[k].share as real,
                                  ds[k].commission, CycleCtx(cycle), Init, false, Some(mother), gateway, None)
  {
    seq(|ds|, k requires 0 <= k < |ds| =>
      Transaction(Account.Gateway, destination, Some(payer), Some(ds[k].member), ds[k].share as real,
                  ds[k].commission, CycleCtx(cycle), Init, false, Some(mother), gateway, None))
  }

  /** The mother's amount is the sum of the children's amounts and its
      commission the sum of theirs. */
  lemma {:induction false} GroupMotherIsChildrenSum(ds: seq<Due>, payer: MemberId, gateway: Option<nat>,
                                                    destination: Account, cycle: nat, mother: nat)
    ensures GroupMother(ds, payer, gateway, destination, cycle).amount ==
              PaymentSerializers.TxTotal(GroupChildren(ds, payer, gateway, destination, cycle, mother))
    ensures GroupMother(ds, payer, gateway, destination, cycle).commission ==
              PaymentSerializers.CommissionTotal(GroupChildren(ds, payer, gateway, destination, cycle, mother))
  {
    DueTotalSplits(ds);
    ChildrenSums(ds, payer, gateway, destination, cycle, mother);
  }

  lemma {:induction false} ChildrenSums(ds: seq<Due>, payer: MemberId, gateway: Option<nat>, destination: Account,
                                        cycle: nat, mother: nat)
    ensures PaymentSerializers.TxTotal(GroupChildren(ds, payer, gateway, destination, cycle, mother)) == ShareSum(ds) as real
    ensures PaymentSerializers.CommissionTotal(GroupChildren(ds, payer, gateway, destination, cycle, mother)) == CommissionSum(ds)
  {
    if ds != [] {
      var init := ds[..|ds| - 1];
      ChildrenSums(init, payer, gateway, destination, cycle, mother);
      assert GroupChildren(ds, payer, gateway, destination, cycle, mother)[..|ds| - 1] ==
             GroupChildren(init, payer, gateway, destination, cycle, mother);
    }
  }

  /** The gateway a group pay uses: the requested active one (1112 when
      there is none), or else the first active gateway with the preset
      unique code, which may be missing. */
  function GroupGateway(gateways: seq<Gateway>, gatewayId: Option<nat>, presetCode: string): (r: Result<Option<Gateway>>)
    ensures gatewayId.Some? ==> (r.Raised? <==> ActiveGateway(gateways, gatewayId.value).None?)
    ensures gatewayId.Some? && r.Ok? ==> r.value == ActiveGateway(gateways, gatewayId.value)
    ensures gatewayId.None? ==> r == Ok(ActiveGatewayByCode(gateways, presetCode))
  {
    match gatewayId
    case None => Ok(ActiveGatewayByCode(gateways, presetCode))
    case Some(id) => if ActiveGateway(gateways, id).None? then Raised("1112") else Ok(ActiveGateway(gateways, id))
  }

  /** `request_group_pay` for the box and the caller `payer`.
      `memberships` is the request's membership ids, `None` when the key
      is missing; `presetCode` is the unique code of the first client's
      preset gateway. Missing memberships answer 400 (see
      MissingMemberships) and an unknown
      requested gateway 1112, with nothing created; a failing commission
      or a box without a current cycle raises before anything is
      created. Otherwise the mother and one child per found membership are
      created; a missing preset gateway then raises AttributeError at
      `request_pay`, with the transactions already recorded. */
  method RequestGroupPay(box: Cashbox, memberships: Option<seq<nat>>, gatewayId: Option<nat>, gateways: seq<Gateway>,
                         presetCode: string, payer: MemberId, table: seq<(nat, Membership)>, rate: int -> int,
                         unsuccessful: bool, ledger: Ledger)
    returns (a: PayAnswer)
    modifies ledger
    ensures memberships.None? ==> a == Respond(400) && ledger.transactions == old(ledger.transactions)
    ensures memberships.Some? && GroupGateway(gateways, gatewayId, presetCode).Raised? ==>
              a == Respond(1112) && ledger.transactions == old(ledger.transactions)
    ensures memberships.Some? && GroupGateway(gateways, gatewayId, presetCode).Ok? ==>
              var gateway := GroupGateway(gateways, gatewayId, presetCode).value;
              var dues := old(DuesOf(table, memberships.value, box, rate));
              var destination := if old(box.IsWorriedBox()) then BoxBankAccount else BoxBalance;
              && (dues.Raised? ==> a == Crash(dues.error) && ledger.transactions == old(ledger.transactions))
              && (dues.Ok? && old(CurrentCycleId(box)).Raised? ==>
                    a == Crash("AttributeError") && ledger.transactions == old(ledger.transactions))
              && (dues.Ok? && old(CurrentCycleId(box)).Ok? ==>
                    var gid := if gateway.Some? then Some(gateway.value.id) else None;
                    var cycle := old(CurrentCycleId(box)).value;
                    var mother := |old(ledger.transactions)|;
                    && ledger.transactions == old(ledger.transactions)
                         + [GroupMother(dues.value, payer, gid, destination, cycle)]
                         + GroupChildren(dues.value, payer, gid, destination, cycle, mother)
                    && (gateway.None? ==> a == Crash("AttributeError"))
                    && (gateway.Some? && unsuccessful ==> a == Respond(1115))
                    && (gateway.Some? && !unsuccessful ==>
                          a == Paid(200, DueTotal(dues.value), CommissionSum(dues.value))))
  {
    if memberships.None? {
      return MissingMemberships();
    }
    var gateway := GroupGateway(gateways, gatewayId, presetCode);
    if gateway.Raised? {
      return Respond(1112);
    }
    var dues, commissionSum, totalSum := CollectDues(table, memberships.value, box, rate);
    // The boxes the table reaches were there before the loop, so its frame held.
    assert forall k :: 0 <= k < |table| ==> old(allocated(table[k].1.period.cashbox));
    if dues.Raised? {
      return Crash(dues.error);
    }
    a := PayDues(box, dues.value, commissionSum, totalSum, gateway.value, payer, unsuccessful, ledger);
  }

  /** The second half of `request_group_pay`, once the dues are known:
      records the mother and the children and asks the gateway to pay. */
  method PayDues(box: Cashbox, dues: seq<Due>, commissionSum: real, totalSum: real, gateway: Option<Gateway>,
                 payer: MemberId, unsuccessful: bool, ledger: Ledger)
    returns (a: PayAnswer)
    requires commissionSum == CommissionSum(dues) && totalSum == DueTotal(dues)
    modifies ledger
    ensures CurrentCycleId(box).Raised? ==> a == Crash("AttributeError") && ledger.transactions == old(ledger.transactions)
    ensures CurrentCycleId(box).Ok? ==>
              var destination := if box.IsWorriedBox() then BoxBankAccount else BoxBalance;
              var gid := if gateway.Some? then Some(gateway.value.id) else None;
              var cycle := CurrentCycleId(box).value;
              && ledger.transactions == old(ledger.transactions)
                   + [GroupMother(dues, payer, gid, destination, cycle)]
                   + GroupChildren(dues, payer, gid, destination, cycle, |old(ledger.transactions)|)
              && (gateway.None? ==> a == Crash("AttributeError"))
              && (gateway.Some? && unsuccessful ==> a == Respond(1115))
              && (gateway.Some? && !unsuccessful ==> a == Paid(200, DueTotal(dues), CommissionSum(dues)))
  {
    var destination := if box.IsWorriedBox() then BoxBankAccount else BoxBalance;
    var cycle := CurrentCycleId(box);
    if cycle.Raised? {
      return Crash("AttributeError");
    }
    var gid := if gateway.Some? then Some(gateway.value.id) else None;
    var mother := ledger.Create(Transaction(Account.Gateway, destination, Some(payer), None, totalSum - commissionSum,
                                            commissionSum, CycleCtx(cycle.value), Init, true, None, gid, None));
    CreateGroupChildren(dues, payer, gid, destination, cycle.value, mother, ledger);
    if gateway.None? {
      return Crash("AttributeError");
    }
    if unsuccessful {
      return Respond(1115);
    }
    a := Paid(200, totalSum, commissionSum);
  }

  /** Records one child transaction per due. */
  method CreateGroupChildren(ds: seq<Due>, payer: MemberId, gateway: Option<nat>, destination: Account, cycle: nat,
                             mother: nat, ledger: Ledger)
    modifies ledger
    ensures ledger.transactions == old(ledger.transactions) + GroupChildren(ds, payer, gateway, destination, cycle, mother)
  {
    var i := 0;
    while i < |ds|
      invariant 0 <= i <= |ds|
      invariant ledger.transactions == old(ledger.transactions) + GroupChildren(ds[..i], payer, gateway, destination, cycle, mother)
    {
      var d := ds[i];
      assert GroupChildren(ds[..i + 1], payer, gateway, destination, cycle, mother) ==
             GroupChildren(ds[..i], payer, gateway, destination, cycle, mother) +
             [Transaction(Account.Gateway, destination, Some(payer), Some(d.member), d.share as real, d.commission,
                          CycleCtx(cycle), Init, false, Some(mother), gateway, None)];
      var _ := ledger.Create(Transaction(Account.Gateway, destination, Some(payer), Some(d.member), d.share as real,
                                         d.commission, CycleCtx(cycle), Init, false, Some(mother), gateway, None));
      i := i + 1;
    }
    assert ds[..i] == ds;
  }
}
