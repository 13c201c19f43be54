/** The back-office dashboard: when it reloads its lists, which requests it
    makes for which role, how the server's records become table rows, the
    actions each row offers, and opening and closing the quotation form. */
module Dashboard {
  import opened Strings
  import Profile
  import QuotationForm

  /** The cache window, in milliseconds. */
  const CacheWindow := 30000

  /** Reload when forced, when nothing was loaded yet (no time, or the
      falsy time 0), or when strictly more than the window has passed. */
  predicate ShouldRefresh(force: bool, lastFetchTime: Option<int>, now: int) {
    force || lastFetchTime.None? || lastFetchTime.value == 0 || now - lastFetchTime.value > CacheWindow
  }

  /** With the time `t` recorded by the previous call, an unforced call at
      `now` reloads exactly when the window has passed since then. */
  lemma RefreshAfterLoad(t: int, now: int)
    requires t != 0
    ensures ShouldRefresh(false, Some(t), now) <==> now > t + CacheWindow
    ensures ShouldRefresh(true, Some(t), now)
  {
  }

  /** The customer of a record; an absent name is the empty string. */
  datatype Customer = Customer(firstName: string, lastName: string, companyName: string)

  /** "first last" trimmed, or N/A when that is blank. */
  function CustomerName(c: Option<Customer>): (r: string)
  {
    var first := if c.Some? then c.value.firstName else "";
    var last := if c.Some? then c.value.lastName else "";
    var d := Profile.DisplayName(first, last);
    if d != "" then d else "N/A"
  }

  /** The customer column is never empty: it is the trimmed name when the
      name is not blank, and N/A otherwise. */
  lemma CustomerNameMeaning(c: Customer)
    ensures CustomerName(Some(c)) != ""
    ensures IsBlank(c.firstName + " " + c.lastName) ==> CustomerName(Some(c)) == "N/A"
    ensures !IsBlank(c.firstName + " " + c.lastName) ==>
      CustomerName(Some(c)) == Trim(c.firstName + " " + c.lastName)
    ensures CustomerName(None) == "N/A"
  {
    assert Trim(" ") == "" by {
      assert LeadingSpace(" ") == 1;
    }
  }

  function CompanyName(c: Option<Customer>): string {
    if c.Some? && c.value.companyName != "" then c.value.companyName else "N/A"
  }

  /** `xs?.length || 0`. */
  function CountOf<T>(xs: Option<seq<T>>): nat {
    if xs.Some? then |xs.value| else 0
  }

  /** An inquiry as the server sends it; `key` is its database id. */
  datatype RawInquiry = RawInquiry(inquiryNumber: string, customer: Option<Customer>,
                                   files: Option<seq<string>>, parts: Option<seq<QuotationForm.Part>>,
                                   status: string, key: string)

  /** A row of the inquiries table. Its parts are the full list (the later
      key of the same name replaces the count). */
  datatype InquiryRow = InquiryRow(id: string, customer: string, company: string, files: nat,
                                   parts: seq<QuotationForm.Part>, status: string, key: string,
                                   inquiryNumber: string, customerData: Option<Customer>)

  function InquiryRowOf(i: RawInquiry): (r: InquiryRow)
    ensures r.id == r.inquiryNumber == i.inquiryNumber && r.key == i.key && r.status == i.status
    ensures r.customer != "" && r.company != ""
    ensures r.files == CountOf(i.files)
    ensures i.parts.Some? ==> r.parts == i.parts.value
    ensures i.parts.None? ==> r.parts == []
  {
    CustomerNameNonEmpty(i.customer);
    InquiryRow(i.inquiryNumber, CustomerName(i.customer), CompanyName(i.customer), CountOf(i.files),
               if i.parts.Some? then i.parts.value else [], i.status, i.key, i.inquiryNumber, i.customer)
  }

  lemma CustomerNameNonEmpty(c: Option<Customer>)
    ensures CustomerName(c) != ""
  {
  }

  /** The inquiry a quotation was made for, as the server nests it. */
  datatype QuotedInquiry = QuotedInquiry(inquiryNumber: string, customer: Option<Customer>)

  datatype RawQuotation = RawQuotation(quotationNumber: string, inquiry: Option<QuotedInquiry>,
                                       totalAmount: int, status: string, key: string,
                                       quotationPdf: string)

  datatype QuotationRow = QuotationRow(id: string, inquiryId: string, customer: string, company: string,
                                       amount: int, status: string, key: string, quotationPdf: string)

  function QuotationRowOf(q: RawQuotation): (r: QuotationRow)
    ensures r.id == q.quotationNumber && r.amount == q.totalAmount && r.status == q.status && r.key == q.key
    ensures r.quotationPdf == q.quotationPdf
    ensures q.inquiry.None? ==> r.inquiryId == "N/A" && r.customer == "N/A" && r.company == "N/A"
    ensures r.inquiryId != "" && r.customer != "" && r.company != ""
  {
    CustomerNameNonEmpty(None);
    var c := if q.inquiry.Some? then q.inquiry.value.customer else None;
    CustomerNameNonEmpty(c);
    var number := if q.inquiry.Some? && q.inquiry.value.inquiryNumber != "" then q.inquiry.value.inquiryNumber else "N/A";
    QuotationRow(q.quotationNumber, number, CustomerName(c), CompanyName(c), q.totalAmount, q.status, q.key,
                 q.quotationPdf)
  }

  datatype RawOrder = RawOrder(orderNumber: string, customer: Option<Customer>,
                               parts: Option<seq<QuotationForm.Part>>, status: string, totalAmount: int,
                               key: string)

  datatype OrderRow = OrderRow(id: string, orderId: string, customer: string, items: nat, status: string,
                               amount: int, key: string)

  function OrderRowOf(o: RawOrder): (r: OrderRow)
    ensures r.id == r.orderId == o.orderNumber && r.status == o.status && r.amount == o.totalAmount
    ensures r.key == o.key && r.customer != ""
    ensures r.items == CountOf(o.parts)
  {
    CustomerNameNonEmpty(o.customer);
    OrderRow(o.orderNumber, o.orderNumber, CustomerName(o.customer), CountOf(o.parts), o.status,
             o.totalAmount, o.key)
  }

  /** A list transformed record by record, in order. */
  function InquiryRows(xs: seq<RawInquiry>): (r: seq<InquiryRow>)
    ensures |r| == |xs| && forall i :: 0 <= i < |xs| ==> r[i] == InquiryRowOf(xs[i])
  {
    seq(|xs|, i requires 0 <= i < |xs| => InquiryRowOf(xs[i]))
  }

  function QuotationRows(xs: seq<RawQuotation>): (r: seq<QuotationRow>)
    ensures |r| == |xs| && forall i :: 0 <= i < |xs| ==> r[i] == QuotationRowOf(xs[i])
  {
    seq(|xs|, i requires 0 <= i < |xs| => QuotationRowOf(xs[i]))
  }

  function OrderRows(xs: seq<RawOrder>): (r: seq<OrderRow>)
    ensures |r| == |xs| && forall i :: 0 <= i < |xs| ==> r[i] == OrderRowOf(xs[i])
  {
    seq(|xs|, i requires 0 <= i < |xs| => OrderRowOf(xs[i]))
  }

  /** The dashboard's counters. */
  datatype Stats = Stats(inquiries: int, quotations: int, orders: int, completed: int)

  /** How a request of `Promise.allSettled` ended: answered (with the
      answer's success flag and data), or failed (with the HTTP status, the
      server's message and the error's own message). */
  datatype Settled<T> = Fulfilled(success: bool, value: T)
                      | Rejected(status: Option<int>, serverMessage: string, message: string)

  /** Only administrators and back office may list orders. */
  predicate OrdersAllowed(role: Option<string>) {
    role == Some("admin") || role == Some("backoffice")
  }

  /** What reaches the order handling: the real answer when orders may be
      listed, otherwise an answer without success. */
  function OrderAnswer(role: Option<string>, answer: Settled<seq<RawOrder>>): (r: Settled<seq<RawOrder>>)
    ensures OrdersAllowed(role) ==> r == answer
    ensures !OrdersAllowed(role) ==> r.Fulfilled? && !r.success
  {
    if OrdersAllowed(role) then answer else Fulfilled(false, [])
  }

  /** The message shown when listing orders failed. */
  function OrderFailureNotice(status: Option<int>, serverMessage: string, errorMessage: string): (r: string)
    ensures status == Some(401) ==> r == "Authentication failed. Please login again."
    ensures status == Some(403) ==> r == "Access denied. You do not have permission to view orders."
    ensures status == Some(500) ==> r == "Server error. Please try again later."
    ensures status !in {Some(401), Some(403), Some(500)} ==>
      r == "Failed to fetch orders: " + (if serverMessage != "" then serverMessage else errorMessage)
  {
    if status == Some(401) then "Authentication failed. Please login again."
    else if status == Some(403) then "Access denied. You do not have permission to view orders."
    else if status == Some(500) then "Server error. Please try again later."
    else "Failed to fetch orders: " + (if serverMessage != "" then serverMessage else errorMessage)
  }

  /** The buttons of a table row. */
  datatype RowAction = View | Quote | Send | OpenPdf

  /** An inquiry row offers Quote only while it is pending. */
  function InquiryActions(r: InquiryRow): (a: seq<RowAction>)
    ensures Quote in a <==> r.status == "pending"
    ensures |a| >= 1 && a[0] == View && Send !in a && OpenPdf !in a
  {
    [View] + (if r.status == "pending" then [Quote] else [])
  }

  /** A quotation row offers Send only as a draft, and its PDF only when it
      has one. */
  function QuotationActions(q: QuotationRow): (a: seq<RowAction>)
    ensures Send in a <==> q.status == "draft"
    ensures OpenPdf in a <==> q.quotationPdf != ""
    ensures |a| >= 1 && a[0] == View && Quote !in a
  {
    [View] + (if q.status == "draft" then [Send] else []) + (if q.quotationPdf != "" then [OpenPdf] else [])
  }

  class Dashboard {
    /** The signed-in user's role; None when nobody is signed in. */
    var role: Option<string>
    var lastFetchTime: Option<int>
    var stats: Stats
    var pendingInquiries: seq<InquiryRow>
    var quotations: seq<QuotationRow>
    var orders: seq<OrderRow>
    var showQuotationForm: bool
    var selectedInquiry: Option<InquiryRow>

    constructor (role: Option<string>)
      ensures this.role == role && lastFetchTime.None? && stats == Stats(0, 0, 0, 0)
      ensures pendingInquiries == [] && quotations == [] && orders == []
      ensures !showQuotationForm && selectedInquiry.None?
    {
      this.role := role;
      lastFetchTime := None;
      stats := Stats(0, 0, 0, 0);
      pendingInquiries := [];
      quotations := [];
      orders := [];
      showQuotationForm := false;
      selectedInquiry := None;
    }

    /** `fetchData`: the four answers are parameters, `now` the time of the
        call and `finishedAt` the time its `finally` block runs. Each list is
        replaced by its successful answer; failed orders empty the order
        list. The `finally` block records the time on every call, also when
        the cache answered and nothing was loaded. */
    method FetchData(force: bool, now: int, finishedAt: int, statsAnswer: Settled<Stats>,
                     inquiryAnswer: Settled<seq<RawInquiry>>, quotationAnswer: Settled<seq<RawQuotation>>,
                     orderAnswer: Settled<seq<RawOrder>>)
      returns (refreshed: bool, orderNotice: Option<string>)
      modifies this
      ensures refreshed == ShouldRefresh(force, old(lastFetchTime), now)
      ensures lastFetchTime == Some(finishedAt)
      ensures !refreshed ==> orderNotice.None? && stats == old(stats) && pendingInquiries == old(pendingInquiries)
                             && quotations == old(quotations) && orders == old(orders)
      ensures role == old(role) && showQuotationForm == old(showQuotationForm)
      ensures selectedInquiry == old(selectedInquiry)
      ensures refreshed ==> stats == (if statsAnswer.Fulfilled? && statsAnswer.success then statsAnswer.value
                                      else old(stats))
      ensures refreshed ==> (pendingInquiries ==
        if inquiryAnswer.Fulfilled? && inquiryAnswer.success then InquiryRows(inquiryAnswer.value)
        else old(pendingInquiries))
      ensures refreshed ==> (quotations ==
        if quotationAnswer.Fulfilled? && quotationAnswer.success then QuotationRows(quotationAnswer.value)
        else old(quotations))
      ensures refreshed ==>
        var a := OrderAnswer(old(role), orderAnswer);
        orders == (if a.Fulfilled? && a.success then OrderRows(a.value)
                   else if a.Rejected? then [] else old(orders))
      ensures refreshed && !OrdersAllowed(old(role)) ==> orders == old(orders) && orderNotice.None?
      ensures orderNotice.Some? <==> refreshed && OrdersAllowed(old(role)) && orderAnswer.Rejected?
      ensures orderNotice.Some? ==> (orderNotice.value ==
        OrderFailureNotice(orderAnswer.status, orderAnswer.serverMessage, orderAnswer.message))
    {
      orderNotice := None;
      refreshed := ShouldRefresh(force, lastFetchTime, now);
      if refreshed {
        TakeLists(statsAnswer, inquiryAnswer, quotationAnswer);
        orderNotice := TakeOrders(orderAnswer);
      }
      lastFetchTime := Some(finishedAt);
    }

    /** The stats, inquiry and quotation answers: each successful one
        replaces what it lists, any other leaves it as it was. */
    method TakeLists(statsAnswer: Settled<Stats>, inquiryAnswer: Settled<seq<RawInquiry>>,
                     quotationAnswer: Settled<seq<RawQuotation>>)
      modifies this
      ensures stats == (if statsAnswer.Fulfilled? && statsAnswer.success then statsAnswer.value else old(stats))
      ensures pendingInquiries == (if inquiryAnswer.Fulfilled? && inquiryAnswer.success
                                   then InquiryRows(inquiryAnswer.value) else old(pendingInquiries))
      ensures quotations == (if quotationAnswer.Fulfilled? && quotationAnswer.success
                             then QuotationRows(quotationAnswer.value) else old(quotations))
      ensures role == old(role) && lastFetchTime == old(lastFetchTime) && orders == old(orders)
      ensures showQuotationForm == old(showQuotationForm) && selectedInquiry == old(selectedInquiry)
    {
      if statsAnswer.Fulfilled? && statsAnswer.success {
        stats := statsAnswer.value;
      }
      if inquiryAnswer.Fulfilled? && inquiryAnswer.success {
        pendingInquiries := InquiryRows(inquiryAnswer.value);
      }
      if quotationAnswer.Fulfilled? && quotationAnswer.success {
        quotations := QuotationRows(quotationAnswer.value);
      }
    }

    /** The order answer, which only staff allowed to list orders really
        ask for: a success replaces the orders, a failure empties them and
        is reported. */
    method TakeOrders(orderAnswer: Settled<seq<RawOrder>>) returns (orderNotice: Option<string>)
      modifies this
      ensures var a := OrderAnswer(role, orderAnswer);
        orders == (if a.Fulfilled? && a.success then OrderRows(a.value)
                   else if a.Rejected? then [] else old(orders))
      ensures !OrdersAllowed(role) ==> orders == old(orders) && orderNotice.None?
      ensures orderNotice.Some? <==> OrdersAllowed(role) && orderAnswer.Rejected?
      ensures orderNotice.Some? ==> (orderNotice.value ==
        OrderFailureNotice(orderAnswer.status, orderAnswer.serverMessage, orderAnswer.message))
      ensures role == old(role) && lastFetchTime == old(lastFetchTime) && stats == old(stats)
      ensures pendingInquiries == old(pendingInquiries) && quotations == old(quotations)
      ensures showQuotationForm == old(showQuotationForm) && selectedInquiry == old(selectedInquiry)
    {
      orderNotice := None;
      var a := OrderAnswer(role, orderAnswer);
      if a.Fulfilled? && a.success {
        orders := OrderRows(a.value);
      } else if a.Rejected? {
        assert a == orderAnswer;
        orderNotice := Some(OrderFailureNotice(orderAnswer.status, orderAnswer.serverMessage, orderAnswer.message));
        orders := [];
      }
    }

    /** `handleCreateQuotation`: the form opens on the chosen inquiry. */
    method CreateQuotation(inquiry: InquiryRow)
      modifies this
      ensures showQuotationForm && selectedInquiry == Some(inquiry)
      ensures role == old(role) && lastFetchTime == old(lastFetchTime) && stats == old(stats)
      ensures pendingInquiries == old(pendingInquiries) && quotations == old(quotations) && orders == old(orders)
    {
      selectedInquiry := Some(inquiry);
      showQuotationForm := true;
    }

    /** `handleCloseQuotationForm`: the form closes and forgets its inquiry. */
    method CloseQuotationForm()
      modifies this
      ensures !showQuotationForm && selectedInquiry.None?
      ensures role == old(role) && lastFetchTime == old(lastFetchTime) && stats == old(stats)
      ensures pendingInquiries == old(pendingInquiries) && quotations == old(quotations) && orders == old(orders)
    {
      showQuotationForm := false;
      selectedInquiry := None;
    }
  }

  /** A row keeps what the quotation form needs of its inquiry: its key
      and the full list of parts. */
  lemma RowFeedsQuotationForm(i: RawInquiry)
    requires i.parts.Some?
    ensures InquiryRowOf(i).parts == i.parts.value && InquiryRowOf(i).key == i.key
    ensures |InquiryRowOf(i).parts| == CountOf(i.parts)
  {
  }

  /** Calls that the cache answers still record their time, so unforced
      calls put the next load off: after a load at `t`, a call 20 s later
      is cached and records its time, and a call 40 s after the load, more
      than the window after it, is cached too. */
  method CachedCallDefersReload(d: Dashboard, t: int, statsAnswer: Settled<Stats>,
                                inquiryAnswer: Settled<seq<RawInquiry>>, quotationAnswer: Settled<seq<RawQuotation>>,
                                orderAnswer: Settled<seq<RawOrder>>)
    returns (first: bool, second: bool)
    requires d.lastFetchTime == Some(t) && t > 0
    modifies d
    ensures !first && !second && (t + 40000) - t > CacheWindow
    ensures d.lastFetchTime == Some(t + 40000)
    ensures d.stats == old(d.stats) && d.pendingInquiries == old(d.pendingInquiries)
    ensures d.quotations == old(d.quotations) && d.orders == old(d.orders)
  {
    var notice;
    first, notice := d.FetchData(false, t + 20000, t + 20000, statsAnswer, inquiryAnswer, quotationAnswer, orderAnswer);
    second, notice := d.FetchData(false, t + 40000, t + 40000, statsAnswer, inquiryAnswer, quotationAnswer, orderAnswer);
  }
}
