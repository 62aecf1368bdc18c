/**
 * The bill history screen: fetching the last year's bills, normalising each
 * one for display, and the "All" / "6 Months" filter.
 *
 * Dates are already-parsed calendar months (`Date.getFullYear` and the
 * zero-based `Date.getMonth`); turning a bill's `BillDate` into one is a
 * parameter, `None` standing for an invalid date.
 */
module BillHistory {
  import opened JsValues
  import opened ApiConfig

  /** A calendar month: the year and JavaScript's zero-based month index. */
  datatype YearMonth = YearMonth(year: int, month: int)

  predicate ValidMonth(d: YearMonth) {
    0 <= d.month < 12
  }

  /** `monthsDiff(from, to)`: whole calendar months from `from` to `to`, ignoring the day. */
  function MonthsDiff(from: YearMonth, to: YearMonth): int {
    (to.year - from.year) * 12 + (to.month - from.month)
  }

  /** The number of months since year 0, which `MonthsDiff` is the difference of. */
  function MonthIndex(d: YearMonth): int {
    d.year * 12 + d.month
  }

  const ALL := "all"
  const LAST6 := "last6"
  const BILL_ERROR := "Unable to load bill history"

  /** A bill as the screen shows it. */
  datatype Bill = Bill(
    id: string,
    billDate: JsVal,
    billType: JsVal,
    paymentMethod: string,
    amount: JsVal,
    currency: JsVal,
    billNo: JsVal)

  /**
   * One bill of the response, normalised: `id` is `String(BillId || Gen_No)`,
   * `type` falls back to `"Bill"`, `currency` to `"AED"`, the payment method
   * is always `"Online Payment"`, and `amount` is `Number(BillAmount || 0)`
   * (before `toFixed(2)`).
   */
  function NormalizeBill(bill: JsVal): (b: Bill)
    ensures b.paymentMethod == "Online Payment"
  {
    Bill(
      ToStr(Or(Get(bill, "BillId"), Get(bill, "Gen_No"))),
      Get(bill, "BillDate"),
      Or(Get(bill, "TransTypeName"), Str("Bill")),
      "Online Payment",
      ToNumber(Or(Get(bill, "BillAmount"), Num(0))),
      Or(Get(bill, "CurrencyType"), Str("AED")),
      Get(bill, "BillNo"))
  }

  /**
   * `data.map(normalise)`: one bill per item, in order; `None` when an item
   * is `null` or `undefined`, where reading `bill.BillId` throws a TypeError.
   */
  function NormalizeBills(data: seq<JsVal>): (r: Option<seq<Bill>>)
    ensures r.Some? <==> forall i :: 0 <= i < |data| ==> !IsNullish(data[i])
    ensures r.Some? ==> |r.value| == |data| && forall i :: 0 <= i < |data| ==> r.value[i] == NormalizeBill(data[i])
  {
    if data == [] then Some([])
    else if IsNullish(data[0]) then None
    else
      match NormalizeBills(data[1..])
      case None => None
      case Some(rest) => Some([NormalizeBill(data[0])] + rest)
  }

  /** Whether the "6 Months" filter keeps a bill dated `billDate` when today is `today`; an invalid date gives NaN, which fails both comparisons. */
  predicate InLastSix(billDate: Option<YearMonth>, today: YearMonth) {
    billDate.Some? && 0 <= MonthsDiff(billDate.value, today) < 6
  }

  /** `filteredBills`: `"last6"` keeps the bills of the last six months; every other filter keeps everything. */
  function FilterBills(bills: seq<Bill>, activeFilter: string, today: YearMonth,
                       parseDate: JsVal -> Option<YearMonth>): (r: seq<Bill>)
    ensures |r| <= |bills|
  {
    if bills == [] then []
    else
      var keep := activeFilter != LAST6 || InLastSix(parseDate(bills[0].billDate), today);
      (if keep then [bills[0]] else []) + FilterBills(bills[1..], activeFilter, today, parseDate)
  }

  /** The body arguments `fetchBillHistory` hands to `getBillHistory`. */
  function HistoryArgs(loginKey: JsVal, fromDate: string, toDate: string, clientId: JsVal): JsVal {
    Obj([
      Prop("key", loginKey),
      Prop("fromDate", Str(fromDate)),
      Prop("toDate", Str(toDate)),
      Prop("byOffice", Bool(false)),
      Prop("officeIds", Str("")),
      Prop("clientIds", clientId)
    ])
  }

  /** The guard of `fetchBillHistory`: both `loginKey` and `clientId` must be truthy. */
  predicate FetchesBills(session: JsVal) {
    Truthy(Get(session, "loginKey")) && Truthy(Get(session, "clientId"))
  }

  /** The bills an outcome yields, or `None` where the screen shows its error instead. */
  function BillsOf(outcome: Outcome): Option<seq<Bill>> {
    match outcome
    case Threw(_) => None
    case Replied(ok, _, data) =>
      if !ok || !data.Arr? then None else NormalizeBills(data.items)
  }

  class BillHistoryScreen {
    var activeFilter: string
    var billData: seq<Bill>
    var loading: bool
    var error: Option<string>

    constructor()
      ensures activeFilter == ALL && billData == [] && loading && error == None
    {
      activeFilter := ALL;
      billData := [];
      loading := true;
      error := None;
    }

    /**
     * `fetchBillHistory` for the signed-in `session`, `fromDate` and `toDate`
     * being the formatted dates a year apart and `outcome` what the request
     * gave.  Returns the request it made, if any.
     */
    method FetchBillHistory(session: JsVal, fromDate: string, toDate: string, outcome: Outcome)
      returns (sent: Option<Request>)
      modifies this
      ensures sent.Some? <==> FetchesBills(session)
      ensures sent.Some? ==>
        sent.value == GetBillHistory(HistoryArgs(Get(session, "loginKey"), fromDate, toDate, Get(session, "clientId")))
      ensures !FetchesBills(session) ==>
        billData == old(billData) && loading == old(loading) && error == old(error)
      ensures FetchesBills(session) && BillsOf(outcome).Some? ==>
        billData == BillsOf(outcome).value && error == None && !loading
      ensures FetchesBills(session) && BillsOf(outcome).None? ==>
        billData == old(billData) && error == Some(BILL_ERROR) && !loading
      ensures activeFilter == old(activeFilter)
    {
      var loginKey := Get(session, "loginKey");
      var clientId := Get(session, "clientId");
      if !Truthy(loginKey) || !Truthy(clientId) {
        return None;
      }
      loading := true;
      error := None;
      sent := Some(GetBillHistory(HistoryArgs(loginKey, fromDate, toDate, clientId)));
      var bills := BillsOf(outcome);
      if bills.None? {
        error := Some(BILL_ERROR);
      } else {
        billData := bills.value;
      }
      loading := false;
    }

    /** A filter chip was pressed. */
    method SetActiveFilter(key: string)
      modifies this
      ensures activeFilter == key
      ensures billData == old(billData) && loading == old(loading) && error == old(error)
    {
      activeFilter := key;
    }

    /** The bills shown under the active filter. */
    function Shown(today: YearMonth, parseDate: JsVal -> Option<YearMonth>): (r: seq<Bill>)
      reads this
      ensures activeFilter != LAST6 ==> r == billData
    {
      var r := FilterBills(billData, activeFilter, today, parseDate);
      if activeFilter != LAST6 then AllKeepsEverything(billData, activeFilter, today, parseDate); r else r
    }
  }

  // ---------------------------------------------------------------------
  // Properties
  // ---------------------------------------------------------------------

  /** `MonthsDiff` is the difference of month indices: zero on equal months, antisymmetric, and additive. */
  lemma MonthsDiffLaws(a: YearMonth, b: YearMonth, c: YearMonth)
    ensures MonthsDiff(a, b) == MonthIndex(b) - MonthIndex(a)
    ensures MonthsDiff(a, a) == 0
    ensures MonthsDiff(a, b) == -MonthsDiff(b, a)
    ensures MonthsDiff(a, b) + MonthsDiff(b, c) == MonthsDiff(a, c)
  {
  }

  /** For real calendar months the difference is zero exactly on the same month. */
  lemma MonthsDiffZero(a: YearMonth, b: YearMonth)
    requires ValidMonth(a) && ValidMonth(b)
    ensures MonthsDiff(a, b) == 0 <==> a == b
  {
    if MonthsDiff(a, b) == 0 {
      assert (b.year - a.year) * 12 == a.month - b.month;
    }
  }

  /** Any filter other than `"last6"` shows the list unchanged. */
  lemma {:induction false} AllKeepsEverything(bills: seq<Bill>, activeFilter: string, today: YearMonth,
                                              parseDate: JsVal -> Option<YearMonth>)
    requires activeFilter != LAST6
    ensures FilterBills(bills, activeFilter, today, parseDate) == bills
  {
    if bills != [] {
      AllKeepsEverything(bills[1..], activeFilter, today, parseDate);
    }
  }

  /** Under `"last6"` a bill is shown exactly when it is in the list and dated within the last six months. */
  lemma {:induction false} LastSixExact(bills: seq<Bill>, today: YearMonth, parseDate: JsVal -> Option<YearMonth>, b: Bill)
    ensures b in FilterBills(bills, LAST6, today, parseDate) <==>
      b in bills && InLastSix(parseDate(b.billDate), today)
  {
    if bills != [] {
      LastSixExact(bills[1..], today, parseDate, b);
      assert bills == [bills[0]] + bills[1..];
    }
  }

  /** Filtering works bill by bill, so it keeps the list's order: a split list filters to the two filtered halves. */
  lemma {:induction false} FilterSplits(a: seq<Bill>, b: seq<Bill>, activeFilter: string, today: YearMonth,
                                        parseDate: JsVal -> Option<YearMonth>)
    ensures FilterBills(a + b, activeFilter, today, parseDate) ==
      FilterBills(a, activeFilter, today, parseDate) + FilterBills(b, activeFilter, today, parseDate)
  {
    if a != [] {
      assert (a + b)[1..] == a[1..] + b;
      FilterSplits(a[1..], b, activeFilter, today, parseDate);
    } else {
      assert a + b == b;
    }
  }

  /** A bill with an invalid or future date, or one six or more months old, is never shown under `"last6"`. */
  lemma LastSixExcludes(bills: seq<Bill>, today: YearMonth, parseDate: JsVal -> Option<YearMonth>, b: Bill)
    requires parseDate(b.billDate).None? ||
      MonthsDiff(parseDate(b.billDate).value, today) < 0 ||
      MonthsDiff(parseDate(b.billDate).value, today) >= 6
    ensures b !in FilterBills(bills, LAST6, today, parseDate)
  {
    LastSixExact(bills, today, parseDate, b);
  }

  /**
   * Normalisation fallbacks: `id` from `BillId` when truthy, else `Gen_No`;
   * type, currency and amount as given when truthy, and `"Bill"`, `"AED"`
   * and 0 when falsy.
   */
  lemma NormalizeBillFallbacks(bill: JsVal)
    ensures Truthy(Get(bill, "BillId")) ==> NormalizeBill(bill).id == ToStr(Get(bill, "BillId"))
    ensures !Truthy(Get(bill, "BillId")) ==> NormalizeBill(bill).id == ToStr(Get(bill, "Gen_No"))
    ensures !Truthy(Get(bill, "TransTypeName")) ==> NormalizeBill(bill).billType == Str("Bill")
    ensures Truthy(Get(bill, "TransTypeName")) ==> NormalizeBill(bill).billType == Get(bill, "TransTypeName")
    ensures !Truthy(Get(bill, "CurrencyType")) ==> NormalizeBill(bill).currency == Str("AED")
    ensures Truthy(Get(bill, "CurrencyType")) ==> NormalizeBill(bill).currency == Get(bill, "CurrencyType")
    ensures !Truthy(Get(bill, "BillAmount")) ==> NormalizeBill(bill).amount == Num(0)
    ensures Truthy(Get(bill, "BillAmount")) ==> NormalizeBill(bill).amount == ToNumber(Get(bill, "BillAmount"))
    ensures Truthy(NormalizeBill(bill).billType) && Truthy(NormalizeBill(bill).currency)
  {
  }

  /** A thrown request, a reply that is not ok, or one that is not an array leaves the list as it was and shows the error. */
  lemma BadRepliesFail(status: int, data: JsVal, message: string)
    ensures BillsOf(Threw(message)) == None
    ensures BillsOf(Replied(false, status, data)) == None
    ensures !data.Arr? ==> BillsOf(Replied(true, status, data)) == None
  {
  }

  /** An ok array reply holding a nullish bill fails as a whole, because normalising that bill throws. */
  lemma NullishBillFails(status: int, items: seq<JsVal>, i: nat)
    requires i < |items| && IsNullish(items[i])
    ensures BillsOf(Replied(true, status, Arr(items))) == None
  {
  }
}
