/**
 * The cash-out views: the validation chain of `set_cashout` and the
 * removal of a cash-out. `create_moneypool_cashout` is not part of this
 * model; whether it returned a cash-out is the parameter `created`.
 */
module CashoutViews {
  import opened Common
  import opened Moneypool
  import LoanViews

  /** A cash-out request as `set_cashout` hands it on; `None` in `tag`
      stands for the default CASHOUT tag. */
  datatype CashoutRequest = CashoutRequest(amount: Json, tag: Option<Json>, time: int, receiver: Poolship)

  /** The checks of `set_cashout`, in order. The amount is not checked.
      `customType` is the value of the custom cash-out type constant. */
  function SetCashoutCheck(registrable: bool, m: Moneypool, data: map<string, Json>, customType: string, now: int,
                           parseTime: Json -> Option<int>, poolships: seq<Poolship>): (v: LoanViews.Verdict<CashoutRequest>)
    ensures !registrable ==> v == LoanViews.Refuse(2101)
    ensures registrable && "amount" !in data ==> v == LoanViews.Refuse(2052)
    ensures registrable && "amount" in data && "cashout_type" !in data ==> v == LoanViews.Refuse(2052)
    ensures registrable && "amount" in data && "cashout_type" in data && data["cashout_type"] != JStr(customType) ==>
              v == LoanViews.Refuse(2051)
    ensures v.Refuse? ==> v.code in {2101, 2052, 2051, 2054}
    ensures !v.Crash?
    ensures "cashout_time" in data && parseTime(data["cashout_time"]).None? ==> !v.Accept?
    ensures v.Accept? ==>
              && registrable && "amount" in data && v.request.amount == data["amount"]
              && "cashout_type" in data && data["cashout_type"] == JStr(customType)
              && v.request.tag == (if "cashout_tag" !in data || data["cashout_tag"] == JStr("") then None
                                   else Some(data["cashout_tag"]))
              && v.request.time == (if "cashout_time" !in data then now else parseTime(data["cashout_time"]).value)
              && v.request.receiver in poolships && v.request.receiver.moneypool == m
              && "receiver_id" in data && data["receiver_id"] == JInt(v.request.receiver.id)
  {
    if !registrable then LoanViews.Refuse(2101)
    else if "amount" !in data then LoanViews.Refuse(2052)
    else if "cashout_type" !in data then LoanViews.Refuse(2052)
    else if data["cashout_type"] != JStr(customType) then LoanViews.Refuse(2051)
    else
      var tag := if "cashout_tag" !in data || data["cashout_tag"] == JStr("") then None else Some(data["cashout_tag"]);
      var time := CashoutTime(data, now, parseTime);
      if time.None? then LoanViews.Refuse(2051)
      else if "receiver_id" !in data then LoanViews.Refuse(2052)
      else
        match LoanViews.FindReceiver(poolships, m, data["receiver_id"])
        case None => LoanViews.Refuse(2054)
        case Some(receiver) => LoanViews.Accept(CashoutRequest(data["amount"], tag, time.value, receiver))
  }

  /** The cash-out time: now when absent, else the parsed value. */
  function CashoutTime(data: map<string, Json>, now: int, parseTime: Json -> Option<int>): Option<int>
  {
    if "cashout_time" !in data then Some(now) else parseTime(data["cashout_time"])
  }

  /** The later refusals of `set_cashout`, once the type check passes:
      2051 for a time that does not parse, 2052 for a missing
      `receiver_id`, 2054 for a receiver outside the pool; and it accepts
      exactly the requests that pass every check and name a poolship of
      the pool. */
  lemma SetCashoutRefusals(registrable: bool, m: Moneypool, data: map<string, Json>, customType: string, now: int,
                           parseTime: Json -> Option<int>, poolships: seq<Poolship>)
    ensures var v := SetCashoutCheck(registrable, m, data, customType, now, parseTime, poolships);
            var typed := registrable && "amount" in data && "cashout_type" in data && data["cashout_type"] == JStr(customType);
            && (typed && CashoutTime(data, now, parseTime).None? ==> v == LoanViews.Refuse(2051))
            && (typed && CashoutTime(data, now, parseTime).Some? && "receiver_id" !in data ==> v == LoanViews.Refuse(2052))
            && ((typed && CashoutTime(data, now, parseTime).Some? && "receiver_id" in data
                 && LoanViews.FindReceiver(poolships, m, data["receiver_id"]).None?) ==> v == LoanViews.Refuse(2054))
            && (v.Accept? <==> typed && CashoutTime(data, now, parseTime).Some? && "receiver_id" in data
                               && LoanViews.FindReceiver(poolships, m, data["receiver_id"]).Some?)
  {
  }

  /** What `set_cashout` answers: a status code, or, when no cash-out was
      created, the pair `(result, None)`, which is not a response. */
  datatype SetCashoutAnswer = Status(code: int) | NotAResponse

  function SetCashout(registrable: bool, m: Moneypool, data: map<string, Json>, customType: string, now: int,
                      parseTime: Json -> Option<int>, poolships: seq<Poolship>, created: bool): (a: SetCashoutAnswer)
    ensures a == Status(2110) <==> SetCashoutCheck(registrable, m, data, customType, now, parseTime, poolships).Accept? && created
    ensures a == NotAResponse <==> SetCashoutCheck(registrable, m, data, customType, now, parseTime, poolships).Accept? && !created
    ensures SetCashoutCheck(registrable, m, data, customType, now, parseTime, poolships).Refuse? ==>
              a == Status(SetCashoutCheck(registrable, m, data, customType, now, parseTime, poolships).code)
  {
    match SetCashoutCheck(registrable, m, data, customType, now, parseTime, poolships)
    case Refuse(code) => Status(code)
    case Crash(_) => NotAResponse
    case Accept(_) => if created then Status(2110) else NotAResponse
  }

  /** The first cash-out of the pool with the id. */
  function FindCashout(cashouts: seq<MoneypoolCashout>, m: Moneypool, id: nat): (r: Option<MoneypoolCashout>)
    ensures r.Some? ==> r.value in cashouts && r.value.poolship.moneypool == m && r.value.id == id
    ensures r.None? <==> forall k :: 0 <= k < |cashouts| ==> !(cashouts[k].poolship.moneypool == m && cashouts[k].id == id)
  {
    if cashouts == [] then None
    else if cashouts[0].poolship.moneypool == m && cashouts[0].id == id then Some(cashouts[0])
    else FindCashout(cashouts[1..], m, id)
  }

  /** The checks of `remove_cashout`: 2101 for a pool that is not
      registrable, 2054 for a cash-out not in the pool, 2053 for one that
      is not removable or was registered by someone else; 0 lets the
      removal go ahead. */
  function RemoveCashoutRefusal(registrable: bool, m: Moneypool, caller: Poolship, cashouts: seq<MoneypoolCashout>,
                                id: nat): (code: int)
    reads set k | 0 <= k < |cashouts| :: cashouts[k]
    ensures !registrable ==> code == 2101
    ensures registrable && FindCashout(cashouts, m, id).None? ==> code == 2054
    ensures code == 0 <==>
              && registrable && FindCashout(cashouts, m, id).Some?
              && FindCashout(cashouts, m, id).value.IsRemovable()
              && FindCashout(cashouts, m, id).value.registrar == caller
    ensures code in {2101, 2054, 2053, 0}
  {
    if !registrable then 2101
    else match FindCashout(cashouts, m, id)
      case None => 2054
      case Some(c) =>
        if !c.IsRemovable() then 2053
        else if c.registrar != caller then 2053
        else 0
  }

  /** `remove_cashout` as written: the cash-out is deleted with
      `cashout.delete()`, so its amount is not charged back to the pool's
      bank balance. */
  method RemoveCashoutAsWritten(registrable: bool, m: Moneypool, caller: Poolship, id: nat, deeds: Deeds)
    returns (status: int)
    modifies deeds`cashouts
    ensures var code := old(RemoveCashoutRefusal(registrable, m, caller, deeds.cashouts, id));
            && (code != 0 ==> status == code && deeds.cashouts == old(deeds.cashouts))
            && (code == 0 ==>
                  && status == 2050
                  && deeds.cashouts == Drop(old(deeds.cashouts), old(FindCashout(deeds.cashouts, m, id)).value))
  {
    var code := RemoveCashoutRefusal(registrable, m, caller, deeds.cashouts, id);
    if code != 0 {
      return code;
    }
    var c := FindCashout(deeds.cashouts, m, id).value;
    deeds.cashouts := Drop(deeds.cashouts, c);
    status := 2050;
  }

  /** `remove_cashout` removing through `MoneypoolCashout.remove`, which
      charges the amount back to the pool's bank balance. */
  method RemoveCashout(registrable: bool, m: Moneypool, caller: Poolship, id: nat, deeds: Deeds)
    returns (status: int)
    modifies deeds`cashouts, m`bankBalance
    ensures var code := old(RemoveCashoutRefusal(registrable, m, caller, deeds.cashouts, id));
            && (code != 0 ==> status == code && deeds.cashouts == old(deeds.cashouts)
                              && m.bankBalance == old(m.bankBalance))
            && (code == 0 ==>
                  var c := old(FindCashout(deeds.cashouts, m, id)).value;
                  && status == 2050
                  && deeds.cashouts == Drop(old(deeds.cashouts), c)
                  && m.bankBalance == old(m.bankBalance) + c.amount)
  {
    var code := RemoveCashoutRefusal(registrable, m, caller, deeds.cashouts, id);
    if code != 0 {
      return code;
    }
    var c := FindCashout(deeds.cashouts, m, id).value;
    var outcome := c.Remove(deeds);
    status := 2050;
  }

  /** A record cash-out of 100 in an empty pool: removing it as written
      leaves the bank balance at 0, removing it through
      `MoneypoolCashout.remove` brings it to 100. */
  method RemovalsDisagree() returns (asWritten: int, corrected: int)
    ensures asWritten == 0 && corrected == 100
  {
    var m1 := new Moneypool(1, true);
    var p1 := new Poolship(1, m1, "09120000000", Owner);
    var c1 := new MoneypoolCashout(5, p1, p1, 100, CustomCashout, "", 0, None);
    var d1 := new Deeds();
    d1.cashouts := [c1];
    var s1 := RemoveCashoutAsWritten(true, m1, p1, 5, d1);
    asWritten := m1.bankBalance;

    var m2 := new Moneypool(1, true);
    var p2 := new Poolship(1, m2, "09120000000", Owner);
    var c2 := new MoneypoolCashout(5, p2, p2, 100, CustomCashout, "", 0, None);
    var d2 := new Deeds();
    d2.cashouts := [c2];
    var s2 := RemoveCashout(true, m2, p2, 5, d2);
    corrected := m2.bankBalance;
  }
}
