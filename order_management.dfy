/** The order-management page: which workflow buttons each order status
    offers, the input guards of the delivery-time and dispatch forms, the
    status filter with its counters, and the status label. */
module OrderManagement {
  import opened Strings

  /** The order statuses the page recognises. */
  datatype Status = Pending | Confirmed | InProduction | ReadyForDispatch | Dispatched | Delivered | Cancelled

  /** The backend's spelling of a status. */
  function StatusName(st: Status): string {
    match st
    case Pending => "pending"
    case Confirmed => "confirmed"
    case InProduction => "in_production"
    case ReadyForDispatch => "ready_for_dispatch"
    case Dispatched => "dispatched"
    case Delivered => "delivered"
    case Cancelled => "cancelled"
  }

  /** The status a backend string names, if it names one. */
  function ParseStatus(s: string): Option<Status> {
    if s == "pending" then Some(Pending)
    else if s == "confirmed" then Some(Confirmed)
    else if s == "in_production" then Some(InProduction)
    else if s == "ready_for_dispatch" then Some(ReadyForDispatch)
    else if s == "dispatched" then Some(Dispatched)
    else if s == "delivered" then Some(Delivered)
    else if s == "cancelled" then Some(Cancelled)
    else None
  }

  /** Names and parsing are inverse: a string names a status exactly when
      it is that status's spelling. */
  lemma ParseIffName(s: string, st: Status)
    ensures ParseStatus(s) == Some(st) <==> s == StatusName(st)
  {
  }

  /** The forward chain pending, confirmed, in_production,
      ready_for_dispatch, dispatched, delivered; cancelled lies outside it. */
  function Stage(st: Status): nat
    requires st != Cancelled
  {
    match st
    case Pending => 0
    case Confirmed => 1
    case InProduction => 2
    case ReadyForDispatch => 3
    case Dispatched => 4
    case Delivered => 5
  }

  /** The buttons of an order row, in the order they are rendered. */
  datatype Action = View | Confirm | SetDelivery | StartProduction | MarkReadyForDispatch
                  | UpdateDelivery | Dispatch | MarkDelivered

  /** What pressing a button does. */
  datatype Effect = OpenDetail | RequestStatus(target: Status) | OpenDeliveryForm | OpenDispatchForm

  function EffectOf(a: Action): Effect {
    match a
    case View => OpenDetail
    case Confirm => RequestStatus(Confirmed)
    case SetDelivery => OpenDeliveryForm
    case StartProduction => RequestStatus(InProduction)
    case MarkReadyForDispatch => RequestStatus(ReadyForDispatch)
    case UpdateDelivery => OpenDeliveryForm
    case Dispatch => OpenDispatchForm
    case MarkDelivered => RequestStatus(Delivered)
  }

  /** The buttons shown for an order whose status string is `status`. */
  function ActionsFor(status: string): (r: seq<Action>)
    ensures 1 <= |r| <= 3 && r[0] == View && View !in r[1..]
    ensures (Dispatch in r) <==> status == "ready_for_dispatch"
    ensures (SetDelivery in r || UpdateDelivery in r)
      <==> status == "pending" || status == "confirmed" || status == "in_production"
    ensures r == [View] <==> ParseStatus(status) in {None, Some(Delivered), Some(Cancelled)}
    ensures status == "pending" ==> Confirm in r && SetDelivery in r
    ensures status == "confirmed" ==> StartProduction in r && SetDelivery in r
    ensures status == "in_production" ==> MarkReadyForDispatch in r && UpdateDelivery in r
    ensures status == "dispatched" ==> MarkDelivered in r
  {
    [View] +
    if status == "pending" then [Confirm, SetDelivery]
    else if status == "confirmed" then [StartProduction, SetDelivery]
    else if status == "in_production" then [MarkReadyForDispatch, UpdateDelivery]
    else if status == "ready_for_dispatch" then [Dispatch]
    else if status == "dispatched" then [MarkDelivered]
    else []
  }

  /** Every status request a row can make moves the order exactly one stage
      forward along the chain; none moves it back or sideways. */
  lemma ActionsMoveForward(status: string, a: Action)
    requires a in ActionsFor(status) && EffectOf(a).RequestStatus?
    ensures ParseStatus(status).Some?
    ensures var cur := ParseStatus(status).value;
      cur != Cancelled && EffectOf(a).target != Cancelled
      && Stage(EffectOf(a).target) == Stage(cur) + 1
  {
    var cur := ParseStatus(status).value;
    assert status == StatusName(cur);
  }

  /** The other direction: every status before delivered offers its way
      forward. Ready for dispatch offers the dispatch form; every other one
      offers a button that requests the next stage. */
  lemma ForwardActionOffered(st: Status)
    requires st != Cancelled && st != Delivered
    ensures st == ReadyForDispatch ==> Dispatch in ActionsFor(StatusName(st))
    ensures st != ReadyForDispatch ==>
      exists a :: a in ActionsFor(StatusName(st)) && EffectOf(a).RequestStatus?
        && EffectOf(a).target != Cancelled && Stage(EffectOf(a).target) == Stage(st) + 1
  {
    var a := match st
      case Pending => Confirm
      case Confirmed => StartProduction
      case InProduction => MarkReadyForDispatch
      case ReadyForDispatch => Dispatch
      case Dispatched => MarkDelivered;
    assert a in ActionsFor(StatusName(st));
  }

  /** The dispatch form is offered only to orders ready for dispatch, the
      stage just before dispatched. */
  lemma DispatchFollowsReady(status: string)
    requires Dispatch in ActionsFor(status)
    ensures ParseStatus(status) == Some(ReadyForDispatch)
    ensures Stage(Dispatched) == Stage(ReadyForDispatch) + 1
  {
  }

  /** An order row as the page keeps it after fetching. */
  datatype Order = Order(id: string, orderNumber: string, customerName: string, status: string, amount: int)

  /** `orders.filter(order => order.status === status)` */
  function WithStatus(orders: seq<Order>, status: string): (r: seq<Order>)
    ensures |r| <= |orders|
    ensures forall o :: o in r <==> o in orders && o.status == status
  {
    if |orders| == 0 then []
    else if orders[0].status == status then [orders[0]] + WithStatus(orders[1..], status)
    else WithStatus(orders[1..], status)
  }

  /** Filtering distributes over concatenation, so the kept orders stay in
      their original order. */
  lemma {:induction false} WithStatusAppend(a: seq<Order>, b: seq<Order>, status: string)
    ensures WithStatus(a + b, status) == WithStatus(a, status) + WithStatus(b, status)
  {
    if |a| > 0 {
      assert (a + b)[1..] == a[1..] + b;
      WithStatusAppend(a[1..], b, status);
    } else {
      assert a + b == b;
    }
  }

  /** The list the table shows for the selected filter. */
  function FilteredOrders(orders: seq<Order>, filter: string): (r: seq<Order>)
    ensures filter == "all" ==> r == orders
    ensures filter != "all" ==> forall o :: o in r <==> o in orders && o.status == filter
  {
    if filter == "all" then orders else WithStatus(orders, filter)
  }

  /** The badge on a filter button: `getStatusCount`. */
  function StatusCount(orders: seq<Order>, status: string): nat {
    |WithStatus(orders, status)|
  }

  /** An independent count of the orders carrying `status`. */
  function CountWhere(orders: seq<Order>, status: string): nat {
    if |orders| == 0 then 0
    else (if orders[0].status == status then 1 else 0) + CountWhere(orders[1..], status)
  }

  /** The badge agrees with a direct count, and with the length of the list
      the same filter shows. */
  lemma {:induction false} StatusCountIsCount(orders: seq<Order>, status: string)
    ensures StatusCount(orders, status) == CountWhere(orders, status)
    ensures status != "all" ==> StatusCount(orders, status) == |FilteredOrders(orders, status)|
  {
    if |orders| > 0 {
      StatusCountIsCount(orders[1..], status);
    }
  }

  /** Orders of two different statuses never outnumber the list. */
  lemma {:induction false} TwoCountsFit(orders: seq<Order>, s: string, t: string)
    requires s != t
    ensures CountWhere(orders, s) + CountWhere(orders, t) <= |orders|
  {
    if |orders| > 0 {
      TwoCountsFit(orders[1..], s, t);
    }
  }

  /** The position of the first `c` in `t`, or `|t|` when there is none. */
  function IndexOf(t: string, c: char): (k: nat)
    ensures k <= |t| && c !in t[..k]
    ensures k < |t| ==> t[k] == c
  {
    if |t| == 0 then 0
    else if t[0] == c then 0
    else
      var k := 1 + IndexOf(t[1..], c);
      assert t[..k] == [t[0]] + t[1..][..k - 1];
      k
  }

  /** `t.replace(from, to)` with a one-character string pattern: only the
      first occurrence is replaced. */
  function ReplaceFirst(t: string, from: char, to: char): (r: string)
    ensures var k := IndexOf(t, from); r == if k < |t| then t[k := to] else t
  {
    if |t| == 0 then ""
    else if t[0] == from then [to] + t[1..]
    else [t[0]] + ReplaceFirst(t[1..], from, to)
  }

  /** `status.charAt(0).toUpperCase() + status.slice(1).replace('_', ' ')` */
  function StatusLabel(status: string): (r: string)
    ensures |r| == |status|
    ensures |status| > 0 ==> r[0] == UpperChar(status[0])
  {
    if |status| == 0 then "" else [UpperChar(status[0])] + ReplaceFirst(status[1..], '_', ' ')
  }

  /** After the first character, the label is the status with its first
      '_' turned into a space. */
  lemma StatusLabelMeaning(status: string)
    ensures |status| > 0 ==> var r := StatusLabel(status); var k := 1 + IndexOf(status[1..], '_');
      forall i :: 1 <= i < |status| ==> r[i] == (if i == k then ' ' else status[i])
  {
    if |status| > 0 {
      var t := status[1..];
      var rest := ReplaceFirst(t, '_', ' ');
      var r := StatusLabel(status);
      assert r == [UpperChar(status[0])] + rest;
      forall i | 1 <= i < |status|
        ensures r[i] == (if i == 1 + IndexOf(t, '_') then ' ' else status[i])
      {
        assert r[i] == rest[i - 1] && t[i - 1] == status[i];
      }
    }
  }

  /** Text before the first `from` is kept, that `from` becomes `to`, and the
      rest, further `from`s included, is kept. */
  lemma {:induction false} ReplaceFirstAfter(a: string, b: string, from: char, to: char)
    requires from !in a
    ensures ReplaceFirst(a + [from] + b, from, to) == a + [to] + b
  {
    if |a| > 0 {
      assert (a + [from] + b)[1..] == a[1..] + [from] + b;
      ReplaceFirstAfter(a[1..], b, from, to);
    }
  }

  /** Only the first underscore becomes a space: `ready_for_dispatch` is
      shown as `Ready for_dispatch`. */
  lemma StatusLabelOfSplit(c: char, a: string, b: string)
    requires '_' !in a
    ensures StatusLabel([c] + (a + "_" + b)) == [UpperChar(c)] + (a + " " + b)
  {
    LabelOfTail(c, a + "_" + b);
    ReplaceFirstAfter(a, b, '_', ' ');
  }

  lemma LabelOfTail(c: char, tail: string)
    ensures StatusLabel([c] + tail) == [UpperChar(c)] + ReplaceFirst(tail, '_', ' ')
  {
    assert ([c] + tail)[1..] == tail;
  }

  /** The three fields of the dispatch form. */
  datatype DispatchForm = DispatchForm(courier: string, trackingNumber: string, estimatedDelivery: string)

  /** The requests the page sends to the order backend. */
  datatype Request =
    | StatusUpdate(orderId: string, target: Status)
    | DeliveryDetails(orderId: string, estimatedDelivery: string)
    | DispatchDetails(orderId: string, form: DispatchForm)

  /** How a form submission ended: refused by the page's guard with no
      request; aborted because no order was selected; or sent, with whether
      the backend accepted it. */
  datatype Submission = Refused | NoOrderSelected | Sent(request: Request, accepted: bool)

  /** The request a workflow button sends, if it sends one. */
  function ButtonRequest(order: Order, a: Action): (r: Option<Request>)
    ensures r.Some? <==> EffectOf(a).RequestStatus?
    ensures r.Some? ==> r.value == StatusUpdate(order.id, EffectOf(a).target)
  {
    match EffectOf(a)
    case RequestStatus(t) => Some(StatusUpdate(order.id, t))
    case _ => None
  }

  /** The page's own state. */
  class OrderManagementPage {
    var orders: seq<Order>
    var filter: string
    var showDeliveryModal: bool
    var showDispatchModal: bool
    var selectedOrder: Option<Order>
    var deliveryTime: string
    var dispatch: DispatchForm

    constructor ()
      ensures orders == [] && filter == "all"
      ensures !showDeliveryModal && !showDispatchModal && selectedOrder == None
      ensures deliveryTime == "" && dispatch == DispatchForm("", "", "")
    {
      orders := [];
      filter := "all";
      showDeliveryModal := false;
      showDispatchModal := false;
      selectedOrder := None;
      deliveryTime := "";
      dispatch := DispatchForm("", "", "");
    }

    /** The rows the table shows now. */
    function Shown(): seq<Order>
      reads this
    {
      FilteredOrders(orders, filter)
    }

    /** `fetchOrders`: a successful answer replaces the list; a failed one
        leaves it. */
    method ReceiveOrders(success: bool, fetched: seq<Order>)
      modifies this`orders
      ensures orders == if success then fetched else old(orders)
    {
      if success {
        orders := fetched;
      }
    }

    method SelectFilter(f: string)
      modifies this`filter
      ensures filter == f
    {
      filter := f;
    }

    /** `handleSetDeliveryTime` */
    method OpenDeliveryForm(order: Order)
      modifies this`selectedOrder, this`deliveryTime, this`showDeliveryModal
      ensures selectedOrder == Some(order) && deliveryTime == "" && showDeliveryModal
    {
      selectedOrder := Some(order);
      deliveryTime := "";
      showDeliveryModal := true;
    }

    method EnterDeliveryTime(t: string)
      modifies this`deliveryTime
      ensures deliveryTime == t
    {
      deliveryTime := t;
    }

    method CloseDeliveryForm()
      modifies this`showDeliveryModal
      ensures !showDeliveryModal
    {
      showDeliveryModal := false;
    }

    /** `handleSubmitDeliveryTime`; `accepted` is the backend's answer. An
        empty delivery time is refused before any request; the form closes
        only when the backend accepts. */
    method SubmitDeliveryTime(accepted: bool) returns (out: Submission)
      modifies this`showDeliveryModal
      ensures deliveryTime == "" ==> out == Refused && showDeliveryModal == old(showDeliveryModal)
      ensures deliveryTime != "" && selectedOrder == None ==>
        out == NoOrderSelected && showDeliveryModal == old(showDeliveryModal)
      ensures deliveryTime != "" && selectedOrder.Some? ==>
        out == Sent(DeliveryDetails(selectedOrder.value.id, deliveryTime), accepted)
        && showDeliveryModal == (old(showDeliveryModal) && !accepted)
    {
      if deliveryTime == "" {
        return Refused;
      }
      if selectedOrder == None {
        return NoOrderSelected;
      }
      out := Sent(DeliveryDetails(selectedOrder.value.id, deliveryTime), accepted);
      if accepted {
        showDeliveryModal := false;
      }
    }

    /** `handleDispatchOrder` */
    method OpenDispatchForm(order: Order)
      modifies this`selectedOrder, this`dispatch, this`showDispatchModal
      ensures selectedOrder == Some(order) && dispatch == DispatchForm("", "", "") && showDispatchModal
    {
      selectedOrder := Some(order);
      dispatch := DispatchForm("", "", "");
      showDispatchModal := true;
    }

    method EnterCourier(v: string)
      modifies this`dispatch
      ensures dispatch == old(dispatch).(courier := v)
    {
      dispatch := dispatch.(courier := v);
    }

    method EnterTrackingNumber(v: string)
      modifies this`dispatch
      ensures dispatch == old(dispatch).(trackingNumber := v)
    {
      dispatch := dispatch.(trackingNumber := v);
    }

    method EnterEstimatedDelivery(v: string)
      modifies this`dispatch
      ensures dispatch == old(dispatch).(estimatedDelivery := v)
    {
      dispatch := dispatch.(estimatedDelivery := v);
    }

    method CloseDispatchForm()
      modifies this`showDispatchModal
      ensures !showDispatchModal
    {
      showDispatchModal := false;
    }

    /** `handleSubmitDispatch`: courier and tracking number are required,
        the estimated delivery is optional. A refused submission sends
        nothing and leaves the form open. */
    method SubmitDispatch(accepted: bool) returns (out: Submission)
      modifies this`showDispatchModal
      ensures (dispatch.courier == "" || dispatch.trackingNumber == "") ==>
        out == Refused && showDispatchModal == old(showDispatchModal)
      ensures dispatch.courier != "" && dispatch.trackingNumber != "" && selectedOrder == None ==>
        out == NoOrderSelected && showDispatchModal == old(showDispatchModal)
      ensures dispatch.courier != "" && dispatch.trackingNumber != "" && selectedOrder.Some? ==>
        out == Sent(DispatchDetails(selectedOrder.value.id, dispatch), accepted)
        && showDispatchModal == (old(showDispatchModal) && !accepted)
    {
      if dispatch.courier == "" || dispatch.trackingNumber == "" {
        return Refused;
      }
      if selectedOrder == None {
        return NoOrderSelected;
      }
      out := Sent(DispatchDetails(selectedOrder.value.id, dispatch), accepted);
      if accepted {
        showDispatchModal := false;
      }
    }
  }
}
