/** The admin order table (src/components/admin/OrderList.tsx): search and status
    filtering, in-place status changes, status labels and colours, and the
    service-type chips. */
module OrderList {
  import opened Text

  datatype Order = Order(
    id: string,
    customerName: string,
    contactPerson: string,
    email: string,
    phone: string,
    serviceType: seq<string>,
    projectScale: string,
    status: string,
    createdAt: string,
    expectedCompletion: string,
    estimatedValue: int)

  /** `matchesSearch`: the lower-cased term occurs in the lower-cased customer name,
      id or contact person. */
  predicate MatchesSearch(o: Order, searchTerm: string) {
    var term := ToLower(searchTerm);
    || Contains(ToLower(o.customerName), term)
    || Contains(ToLower(o.id), term)
    || Contains(ToLower(o.contactPerson), term)
  }

  /** `matchesStatus`. */
  predicate MatchesStatus(o: Order, filterStatus: string) {
    filterStatus == "all" || o.status == filterStatus
  }

  /** `filteredOrders`. */
  function FilteredOrders(orderData: seq<Order>, searchTerm: string, filterStatus: string): (r: seq<Order>)
    ensures forall k :: 0 <= k < |r| ==> MatchesSearch(r[k], searchTerm) && MatchesStatus(r[k], filterStatus)
    ensures forall k :: 0 <= k < |orderData| ==>
      (MatchesSearch(orderData[k], searchTerm) && MatchesStatus(orderData[k], filterStatus) ==> orderData[k] in r)
  {
    Filter(orderData, o => MatchesSearch(o, searchTerm) && MatchesStatus(o, filterStatus))
  }

  /** The table keeps the rows' order and invents none. */
  lemma FilteredIsSubsequence(orderData: seq<Order>, searchTerm: string, filterStatus: string)
    ensures SubsequenceOf(FilteredOrders(orderData, searchTerm, filterStatus), orderData)
  {
    FilterIsSubsequence(orderData, o => MatchesSearch(o, searchTerm) && MatchesStatus(o, filterStatus));
  }

  /** An empty search with the 'all' filter shows every order. */
  lemma EmptySearchShowsAll(orderData: seq<Order>)
    ensures FilteredOrders(orderData, "", "all") == orderData
  {
    forall k | 0 <= k < |orderData| ensures MatchesSearch(orderData[k], "") {
      ContainsEmpty(ToLower(orderData[k].customerName));
    }
    FilterKeepsAll(orderData, o => MatchesSearch(o, "") && MatchesStatus(o, "all"));
  }

  /** Shortening the search to a part of itself, or widening the filter to 'all',
      keeps every order shown before, in the same order. */
  lemma RelaxingKeepsOrders(orderData: seq<Order>, term: string, term': string,
                            filter: string, filter': string)
    requires Contains(term, term')
    requires filter' == "all" || filter' == filter
    ensures SubsequenceOf(FilteredOrders(orderData, term, filter), FilteredOrders(orderData, term', filter'))
  {
    ContainsToLower(term, term');
    forall o: Order | MatchesSearch(o, term) ensures MatchesSearch(o, term') {
      if Contains(ToLower(o.customerName), ToLower(term)) {
        ContainsTransitive(ToLower(term'), ToLower(term), ToLower(o.customerName));
      } else if Contains(ToLower(o.id), ToLower(term)) {
        ContainsTransitive(ToLower(term'), ToLower(term), ToLower(o.id));
      } else {
        ContainsTransitive(ToLower(term'), ToLower(term), ToLower(o.contactPerson));
      }
    }
    FilterWeaker(orderData, o => MatchesSearch(o, term) && MatchesStatus(o, filter),
                 o => MatchesSearch(o, term') && MatchesStatus(o, filter'));
  }

  /** `handleStatusChange`'s `prev.map(...)`: the orders with that id get the new
      status. */
  function SetStatus(orders: seq<Order>, orderId: string, newStatus: string): (r: seq<Order>)
    ensures |r| == |orders|
    ensures forall k :: 0 <= k < |r| && orders[k].id == orderId ==> r[k] == orders[k].(status := newStatus)
    ensures forall k :: 0 <= k < |r| && orders[k].id != orderId ==> r[k] == orders[k]
  {
    seq(|orders|, k requires 0 <= k < |orders| =>
      if orders[k].id == orderId then orders[k].(status := newStatus) else orders[k])
  }

  /** Setting the same status twice is setting it once. */
  lemma SetStatusIdempotent(orders: seq<Order>, orderId: string, newStatus: string)
    ensures SetStatus(SetStatus(orders, orderId, newStatus), orderId, newStatus)
         == SetStatus(orders, orderId, newStatus)
  {
  }

  /** After the change, filtering by the new status shows every order with that id. */
  lemma ChangedOrderShowsUnderNewStatus(orders: seq<Order>, orderId: string, newStatus: string, k: nat)
    requires k < |orders| && orders[k].id == orderId
    ensures SetStatus(orders, orderId, newStatus)[k] in FilteredOrders(SetStatus(orders, orderId, newStatus), orderId, newStatus)
  {
    var r := SetStatus(orders, orderId, newStatus);
    assert ToLower(r[k].id) == ToLower(orderId);
    assert StartsWith(ToLower(r[k].id), ToLower(orderId));
  }

  /** `getStatusColor`, with the gray fallback. */
  function StatusColor(status: string): (c: string)
    ensures status !in {"pending", "in-progress", "completed", "cancelled"} ==> c == "bg-gray-100 text-gray-800"
  {
    match status
    case "pending" => "bg-yellow-100 text-yellow-800"
    case "in-progress" => "bg-blue-100 text-blue-800"
    case "completed" => "bg-green-100 text-green-800"
    case "cancelled" => "bg-red-100 text-red-800"
    case _ => "bg-gray-100 text-gray-800"
  }

  /** The `labels` table shared by the detail modal and the table badge; the badge
      (`getStatusBadge`) shows the looked-up value as is, so an unknown status gets
      no label there. */
  function KnownLabel(status: string): Option<string> {
    match status
    case "pending" => Some("대기중")
    case "in-progress" => Some("진행중")
    case "completed" => Some("완료")
    case "cancelled" => Some("취소")
    case _ => None
  }

  /** `getStatusLabel`: the table's label, or the status itself when there is none. */
  function StatusLabel(status: string): (l: string)
    ensures KnownLabel(status).Some? ==> l == KnownLabel(status).value
    ensures KnownLabel(status).None? ==> l == status
  {
    if KnownLabel(status).Some? then KnownLabel(status).value else status
  }

  /** The four known statuses have four different labels. */
  lemma StatusLabelInjective(s1: string, s2: string)
    requires KnownLabel(s1).Some? && KnownLabel(s2).Some?
    requires StatusLabel(s1) == StatusLabel(s2)
    ensures s1 == s2
  {
  }

  /** The service cell: the first two service types, then "+k" for the rest. */
  datatype Chips = Chips(shown: seq<string>, more: Option<string>)

  function ServiceChips(serviceType: seq<string>): (c: Chips)
    ensures |c.shown| == if |serviceType| < 2 then |serviceType| else 2
    ensures forall k :: 0 <= k < |c.shown| ==> c.shown[k] == serviceType[k]
    ensures c.more.Some? <==> |serviceType| > 2
  {
    var shown := if |serviceType| <= 2 then serviceType else serviceType[..2];
    if |serviceType| > 2 then Chips(shown, Some("+" + IntToString(|serviceType| - 2)))
    else Chips(shown, None)
  }

  /** The chips account for every service: the number after '+' is the count of
      the ones not shown. */
  lemma ChipsCountEveryService(serviceType: seq<string>)
    ensures var c := ServiceChips(serviceType);
      c.more.Some? ==>
        (|c.more.value| >= 2 && c.more.value[0] == '+' && ParseInt(c.more.value[1..]) == Int(|serviceType| - |c.shown|))
  {
    var c := ServiceChips(serviceType);
    if c.more.Some? {
      assert c.more.value[1..] == IntToString(|serviceType| - 2);
      ParseIntOfIntToString(|serviceType| - 2);
    }
  }

  /** The component's state slots: its own copy of the orders, and the modal. */
  class OrderListState {
    var orderData: seq<Order>
    var selectedOrder: Option<Order>
    var isModalOpen: bool

    constructor (orders: seq<Order>)
      ensures orderData == orders && selectedOrder.None? && !isModalOpen
    {
      orderData := orders;
      selectedOrder := None;
      isModalOpen := false;
    }

    method HandleViewOrder(o: Order)
      modifies this
      ensures selectedOrder == Some(o) && isModalOpen && orderData == old(orderData)
    {
      selectedOrder := Some(o);
      isModalOpen := true;
    }

    method HandleCloseModal()
      modifies this
      ensures selectedOrder.None? && !isModalOpen && orderData == old(orderData)
    {
      isModalOpen := false;
      selectedOrder := None;
    }

    /** `handleStatusChange(orderId, newStatus)`: only the status of the orders with
        that id changes; the length, every other field and every other order stay. */
    method HandleStatusChange(orderId: string, newStatus: string)
      modifies this
      ensures orderData == SetStatus(old(orderData), orderId, newStatus)
      ensures |orderData| == |old(orderData)|
      ensures forall k :: 0 <= k < |orderData| ==>
        orderData[k].(status := old(orderData)[k].status) == old(orderData)[k]
      ensures forall k :: 0 <= k < |orderData| && old(orderData)[k].id == orderId ==> orderData[k].status == newStatus
      ensures forall k :: 0 <= k < |orderData| && old(orderData)[k].id != orderId ==> orderData[k] == old(orderData)[k]
      ensures selectedOrder == old(selectedOrder) && isModalOpen == old(isModalOpen)
    {
      orderData := SetStatus(orderData, orderId, newStatus);
    }
  }
}
