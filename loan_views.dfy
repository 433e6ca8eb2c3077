/**
 * The validation chains of the loan views. Each view answers with a
 * response code as soon as a check fails; what it does after the checks
 * (`create_moneypool_loan`, `payoff_multiple_installments`,
 * `remove_moneypool_loan`, `Loan.grace_installments`) is not part of this
 * model, and the Loan model's own predicates are fields of `LoanRecord`.
 * The jalali date parsers are the parameters `parseTime` and `parseDate`.
 */
module LoanViews {
  import opened Common
  import opened Moneypool

  /** A view's verdict on a request: a response code, the request it
      accepts, or an exception it raises. */
  datatype Verdict<T> = Refuse(code: int) | Accept(request: T) | Crash(error: string)

  /** A loan request as `create_loan` hands it on. `None` in `tag` and
      `interestPayMode` stands for the defaults (the LOAN tag and the
      mid-appended mode). */
  datatype LoanRequest = LoanRequest(
    amount: int,
    numberOfRepayments: int,
    repaid: int,
    interval: string,
    payDate: Date,
    dueDate: Option<Date>,
    tag: Option<Json>,
    interestRate: Json,
    interestPayMode: Option<Json>,
    receiver: Poolship)

  /** The first poolship of the pool with the requested id; only integer
      ids match. */
  function FindReceiver(poolships: seq<Poolship>, m: Moneypool, id: Json): (r: Option<Poolship>)
    ensures r.Some? ==> r.value in poolships && r.value.moneypool == m && id == JInt(r.value.id)
    ensures r.None? <==> forall k :: 0 <= k < |poolships| ==> !(poolships[k].moneypool == m && id == JInt(poolships[k].id))
  {
    if poolships == [] then None
    else if poolships[0].moneypool == m && id == JInt(poolships[0].id) then Some(poolships[0])
    else FindReceiver(poolships[1..], m, id)
  }

  /** The number of installments marked repaid: the given count when it
      is a non-negative int, else 0. */
  function RepaidCount(data: map<string, Json>): (n: int)
    ensures n >= 0
    ensures "number_of_repaid_installments" !in data ==> n == 0
    ensures "number_of_repaid_installments" in data && IsInt(data["number_of_repaid_installments"])
            && IntValue(data["number_of_repaid_installments"]) >= 0 ==>
              n == IntValue(data["number_of_repaid_installments"])
    ensures "number_of_repaid_installments" in data && !IsInt(data["number_of_repaid_installments"]) ==> n == 0
  {
    if "number_of_repaid_installments" !in data || !IsInt(data["number_of_repaid_installments"])
       || IntValue(data["number_of_repaid_installments"]) < 0
    then 0
    else IntValue(data["number_of_repaid_installments"])
  }

  /** The request fields `create_loan` checks before the interval's
      value: a registrable pool or a repaid count, and whole `amount` and
      `number_of_repayments`, and a `repayment_interval`. */
  predicate LoanFieldsGiven(registrable: bool, data: map<string, Json>)
  {
    && (registrable || "number_of_repaid_installments" in data)
    && "amount" in data && IsInt(data["amount"])
    && "number_of_repayments" in data && IsInt(data["number_of_repayments"])
    && "repayment_interval" in data
  }

  /** The payment time: today when absent or empty, else the parsed value. */
  function LoanPayTime(data: map<string, Json>, today: Date, parseTime: Json -> Option<Date>): Option<Date>
  {
    if "payment_time" !in data || data["payment_time"] == JStr("") then Some(today)
    else parseTime(data["payment_time"])
  }

  /** The due date: none when absent or empty, else the parsed value. */
  function LoanDueDate(data: map<string, Json>, parseDate: Json -> Option<Date>): Option<Date>
  {
    if "due_date" in data && data["due_date"] != JStr("") then parseDate(data["due_date"]) else None
  }

  /** Every check of `create_loan` before the receiver lookup passes. */
  predicate LoanChecksPass(registrable: bool, data: map<string, Json>, intervals: set<string>,
                           today: Date, parseTime: Json -> Option<Date>, parseDate: Json -> Option<Date>)
  {
    && LoanFieldsGiven(registrable, data)
    && data["repayment_interval"].JStr? && data["repayment_interval"].s in intervals
    && LoanPayTime(data, today, parseTime).Some?
    && !(LoanDueDate(data, parseDate).Some?
         && LoanDueDate(data, parseDate).value <= LoanPayTime(data, today, parseTime).value)
    && "receiver_id" in data
  }

  /** The checks of `create_loan`, in order. */
  function CreateLoanCheck(registrable: bool, m: Moneypool, data: map<string, Json>, intervals: set<string>,
                           today: Date, parseTime: Json -> Option<Date>, parseDate: Json -> Option<Date>,
                           poolships: seq<Poolship>): (v: Verdict<LoanRequest>)
    ensures !registrable && "number_of_repaid_installments" !in data ==> v == Refuse(2101)
    ensures ((registrable || "number_of_repaid_installments" in data)
             && ("amount" !in data || !IsInt(data["amount"]))) ==> v == Refuse(2052)
    ensures v.Accept? ==>
              && "amount" in data && IsInt(data["amount"]) && v.request.amount == IntValue(data["amount"])
              && "number_of_repayments" in data && IsInt(data["number_of_repayments"])
              && v.request.numberOfRepayments == IntValue(data["number_of_repayments"])
              && v.request.repaid == RepaidCount(data)
              && "repayment_interval" in data && data["repayment_interval"] == JStr(v.request.interval)
              && v.request.interval in intervals
              && (v.request.dueDate.Some? ==> v.request.dueDate.value > v.request.payDate)
              && v.request.receiver in poolships && v.request.receiver.moneypool == m
              && "receiver_id" in data && data["receiver_id"] == JInt(v.request.receiver.id)
    ensures v.Accept? && ("payment_time" !in data || data["payment_time"] == JStr("")) ==>
              v.request.payDate == today
    ensures v.Accept? ==>
              && v.request.tag == (if "cashout_tag" !in data || data["cashout_tag"] == JStr("") then None
                                   else Some(data["cashout_tag"]))
              && v.request.interestRate == (if "interest_rate" in data then data["interest_rate"] else JFloat(0.0))
              && v.request.interestPayMode == (if "interest_pay_mode" in data then Some(data["interest_pay_mode"])
                                               else None)
    ensures v.Refuse? ==> v.code in {2101, 2052, 2051, 2054}
  {
    if !registrable && "number_of_repaid_installments" !in data then Refuse(2101)
    else if "amount" !in data || !IsInt(data["amount"]) then Refuse(2052)
    else if "number_of_repayments" !in data || !IsInt(data["number_of_repayments"]) then Refuse(2052)
    else if "repayment_interval" !in data then Refuse(2052)
    else if data["repayment_interval"].JCompound? then Crash("TypeError")
    else if !(data["repayment_interval"].JStr? && data["repayment_interval"].s in intervals) then Refuse(2051)
    else
      var time := LoanPayTime(data, today, parseTime);
      if time.None? then Crash("AttributeError")
      else
        var due := LoanDueDate(data, parseDate);
        if due.Some? && due.value <= time.value then Refuse(2052)
        else if "receiver_id" !in data then Refuse(2052)
        else
          match FindReceiver(poolships, m, data["receiver_id"])
          case None => Refuse(2054)
          case Some(receiver) =>
            Accept(LoanRequest(
              IntValue(data["amount"]),
              IntValue(data["number_of_repayments"]),
              RepaidCount(data),
              data["repayment_interval"].s,
              time.value,
              due,
              if "cashout_tag" !in data || data["cashout_tag"] == JStr("") then None else Some(data["cashout_tag"]),
              if "interest_rate" in data then data["interest_rate"] else JFloat(0.0),
              if "interest_pay_mode" in data then Some(data["interest_pay_mode"]) else None,
              receiver))
  }

  /** The later refusals of `create_loan`, each once the checks before
      it pass: 2052 for a missing `number_of_repayments` or
      `repayment_interval`, a TypeError for an unhashable interval, 2051
      for an interval that is not one of the pool intervals, an
      AttributeError for a payment time that does not parse, 2052 for a
      due date not after the payment date or a missing `receiver_id`, and
      2054 for a receiver outside the pool. */
  lemma CreateLoanRefusals(registrable: bool, m: Moneypool, data: map<string, Json>, intervals: set<string>,
                           today: Date, parseTime: Json -> Option<Date>, parseDate: Json -> Option<Date>,
                           poolships: seq<Poolship>)
    ensures var v := CreateLoanCheck(registrable, m, data, intervals, today, parseTime, parseDate, poolships);
            && (((registrable || "number_of_repaid_installments" in data) && "amount" in data && IsInt(data["amount"])
                 && ("number_of_repayments" !in data || !IsInt(data["number_of_repayments"]))) ==> v == Refuse(2052))
            && (((registrable || "number_of_repaid_installments" in data) && "amount" in data && IsInt(data["amount"])
                 && "number_of_repayments" in data && IsInt(data["number_of_repayments"])
                 && "repayment_interval" !in data) ==> v == Refuse(2052))
            && (LoanFieldsGiven(registrable, data) && data["repayment_interval"].JCompound? ==> v == Crash("TypeError"))
            && ((LoanFieldsGiven(registrable, data) && !data["repayment_interval"].JCompound?
                 && !(data["repayment_interval"].JStr? && data["repayment_interval"].s in intervals)) ==> v == Refuse(2051))
    ensures var v := CreateLoanCheck(registrable, m, data, intervals, today, parseTime, parseDate, poolships);
            var time := LoanPayTime(data, today, parseTime);
            var due := LoanDueDate(data, parseDate);
            LoanFieldsGiven(registrable, data) && data["repayment_interval"].JStr?
            && data["repayment_interval"].s in intervals ==>
              && (time.None? ==> v == Crash("AttributeError"))
              && (time.Some? && due.Some? && due.value <= time.value ==> v == Refuse(2052))
              && (time.Some? && !(due.Some? && due.value <= time.value) && "receiver_id" !in data ==> v == Refuse(2052))
              && ((time.Some? && !(due.Some? && due.value <= time.value) && "receiver_id" in data
                   && FindReceiver(poolships, m, data["receiver_id"]).None?) ==> v == Refuse(2054))
  {
  }

  /** `create_loan` accepts exactly the requests that pass every check
      and name a poolship of the pool, with the parsed payment time and
      due date. */
  lemma CreateLoanAccepts(registrable: bool, m: Moneypool, data: map<string, Json>, intervals: set<string>,
                          today: Date, parseTime: Json -> Option<Date>, parseDate: Json -> Option<Date>,
                          poolships: seq<Poolship>)
    ensures var v := CreateLoanCheck(registrable, m, data, intervals, today, parseTime, parseDate, poolships);
            && (v.Accept? <==> LoanChecksPass(registrable, data, intervals, today, parseTime, parseDate)
                               && FindReceiver(poolships, m, data["receiver_id"]).Some?)
            && (v.Accept? ==> v.request.payDate == LoanPayTime(data, today, parseTime).value
                              && v.request.dueDate == LoanDueDate(data, parseDate))
  {
  }

  /** A loan that names a receiver outside the pool is refused with 2054,
      whatever else it says, once the earlier checks pass. */
  lemma ForeignReceiverRefused(registrable: bool, m: Moneypool, data: map<string, Json>, intervals: set<string>,
                               today: Date, parseTime: Json -> Option<Date>, parseDate: Json -> Option<Date>,
                               poolships: seq<Poolship>)
    requires "receiver_id" in data
    requires forall k :: 0 <= k < |poolships| && data["receiver_id"] == JInt(poolships[k].id) ==>
               poolships[k].moneypool != m
    ensures !CreateLoanCheck(registrable, m, data, intervals, today, parseTime, parseDate, poolships).Accept?
  {
    assert FindReceiver(poolships, m, data["receiver_id"]).None?;
  }

  /** What `remove_loan` and `grace_installments` need of a Loan. */
  datatype LoanRecord = LoanRecord(id: nat, moneypool: nat, registrar: Option<nat>, removable: bool, fullyRepaid: bool)

  function FindLoan(loans: seq<LoanRecord>, moneypool: Option<nat>, id: nat): (r: Option<LoanRecord>)
    ensures r.Some? ==> r.value in loans && r.value.id == id && (moneypool.Some? ==> r.value.moneypool == moneypool.value)
    ensures r.None? <==> forall k :: 0 <= k < |loans| ==>
              !(loans[k].id == id && (moneypool.Some? ==> loans[k].moneypool == moneypool.value))
  {
    if loans == [] then None
    else if loans[0].id == id && (moneypool.Some? ==> loans[0].moneypool == moneypool.value) then Some(loans[0])
    else FindLoan(loans[1..], moneypool, id)
  }

  /** `remove_loan`: 2101 for a pool that is not registrable, 2054 for a
      loan not in the pool, 2053 for a loan that is not removable, was
      registered by someone else or fails to be removed (`removed`, the
      outcome of `remove_moneypool_loan`), else 2050. */
  function RemoveLoanStatus(registrable: bool, moneypool: nat, loans: seq<LoanRecord>, loanId: nat,
                            caller: nat, removed: bool): (status: int)
    ensures !registrable ==> status == 2101
    ensures registrable && FindLoan(loans, Some(moneypool), loanId).None? ==> status == 2054
    ensures status == 2050 <==>
              && registrable && FindLoan(loans, Some(moneypool), loanId).Some?
              && FindLoan(loans, Some(moneypool), loanId).value.removable
              && FindLoan(loans, Some(moneypool), loanId).value.registrar == Some(caller)
              && removed
    ensures status in {2101, 2054, 2053, 2050}
  {
    if !registrable then 2101
    else match FindLoan(loans, Some(moneypool), loanId)
      case None => 2054
      case Some(loan) =>
        if !loan.removable then 2053
        else if loan.registrar != Some(caller) then 2053
        else if !removed then 2053
        else 2050
  }

  /** Only a loan of the pool, registered by the caller, is ever removed. */
  lemma RemovedLoanBelongsToCaller(registrable: bool, moneypool: nat, loans: seq<LoanRecord>, loanId: nat,
                                   caller: nat, removed: bool)
    requires RemoveLoanStatus(registrable, moneypool, loans, loanId, caller, removed) == 2050
    ensures exists k :: 0 <= k < |loans| && loans[k].id == loanId && loans[k].moneypool == moneypool
                        && loans[k].registrar == Some(caller) && loans[k].removable
  {
    var loan := FindLoan(loans, Some(moneypool), loanId).value;
    var k :| 0 <= k < |loans| && loans[k] == loan;
  }

  /** `grace_installments` as written: 2052 without an int count, 2054
      when no loan has the id, 2051 for a fully repaid loan, else 2050.
      The loan is looked up by id alone, in any pool. */
  function GraceStatusAsWritten(data: map<string, Json>, loans: seq<LoanRecord>, loanId: nat): (status: int)
    ensures "grace_intervals_count" !in data || !IsInt(data["grace_intervals_count"]) ==> status == 2052
    ensures status == 2050 <==>
              && "grace_intervals_count" in data && IsInt(data["grace_intervals_count"])
              && FindLoan(loans, None, loanId).Some? && !FindLoan(loans, None, loanId).value.fullyRepaid
  {
    if "grace_intervals_count" !in data || !IsInt(data["grace_intervals_count"]) then 2052
    else match FindLoan(loans, None, loanId)
      case None => 2054
      case Some(loan) => if loan.fullyRepaid then 2051 else 2050
  }

  /** A manager of pool 1 asking for grace on loan 7 of pool 2: the view
      as written extends it; looked up in the caller's pool it is not
      found. */
  lemma GraceReachesForeignLoan()
    ensures GraceStatusAsWritten(map["grace_intervals_count" := JInt(1)],
                                 [LoanRecord(7, 2, Some(3), true, false)], 7) == 2050
    ensures GraceStatus(map["grace_intervals_count" := JInt(1)], 1,
                        [LoanRecord(7, 2, Some(3), true, false)], 7) == 2054
  {
  }

  /** `grace_installments` with the loan looked up in the caller's pool,
      as `remove_loan` does. */
  function GraceStatus(data: map<string, Json>, moneypool: nat, loans: seq<LoanRecord>, loanId: nat): (status: int)
    ensures "grace_intervals_count" !in data || !IsInt(data["grace_intervals_count"]) ==> status == 2052
    ensures status == 2050 <==>
              && "grace_intervals_count" in data && IsInt(data["grace_intervals_count"])
              && FindLoan(loans, Some(moneypool), loanId).Some?
              && !FindLoan(loans, Some(moneypool), loanId).value.fullyRepaid
  {
    if "grace_intervals_count" !in data || !IsInt(data["grace_intervals_count"]) then 2052
    else match FindLoan(loans, Some(moneypool), loanId)
      case None => 2054
      case Some(loan) => if loan.fullyRepaid then 2051 else 2050
  }

  /** Only a loan of the caller's pool that is not fully repaid gets grace. */
  lemma GraceStaysInPool(data: map<string, Json>, moneypool: nat, loans: seq<LoanRecord>, loanId: nat)
    requires GraceStatus(data, moneypool, loans, loanId) == 2050
    ensures exists k :: 0 <= k < |loans| && loans[k].id == loanId && loans[k].moneypool == moneypool
                        && !loans[k].fullyRepaid
  {
    var loan := FindLoan(loans, Some(moneypool), loanId).value;
    var k :| 0 <= k < |loans| && loans[k] == loan;
  }
}
