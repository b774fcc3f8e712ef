/** The order list of the admin panel (src/pages/admin/Orders.tsx): the
    search/status/payment filter and the label tables for statuses and
    payment methods. */
module AdminOrders {
  import opened Seqs
  import opened Text
  import Entities

  /** an order line as the page loads it with the order */
  datatype OrderLine = OrderLine(productName: string, quantity: int, price: int, total: int)

  /** An order row as the page loads it: statuses and payment method are the
      plain strings read from the database */
  datatype OrderRow = OrderRow(
    id: string,
    customerName: string,
    customerPhone: string,
    customerAddress: string,
    subtotal: int,
    discount: int,
    shippingCost: int,
    total: int,
    paymentMethod: string,
    paymentStatus: string,
    orderStatus: string,
    notes: string,
    voucherCode: string,
    createdAt: string,
    orderItems: seq<OrderLine>)

  /** the search box: customer name and order id ignoring case, phone as typed */
  predicate MatchesSearch(o: OrderRow, term: string) {
    ContainsIgnoringCase(o.customerName, term)
    || Contains(o.customerPhone, term)
    || ContainsIgnoringCase(o.id, term)
  }

  /** filterOrders: three successive filters, each applied only when its
      criterion is non-empty */
  function FilterOrders(orders: seq<OrderRow>, searchTerm: string, statusFilter: string,
                        paymentFilter: string): seq<OrderRow>
  {
    var bySearch := if searchTerm != "" then Filter(orders, (o: OrderRow) => MatchesSearch(o, searchTerm)) else orders;
    var byStatus := if statusFilter != "" then Filter(bySearch, (o: OrderRow) => o.orderStatus == statusFilter) else bySearch;
    if paymentFilter != "" then Filter(byStatus, (o: OrderRow) => o.paymentStatus == paymentFilter) else byStatus
  }

  /** an order passes when it meets every criterion that is set */
  predicate OrderMatches(o: OrderRow, searchTerm: string, statusFilter: string, paymentFilter: string) {
    && (searchTerm == "" || MatchesSearch(o, searchTerm))
    && (statusFilter == "" || o.orderStatus == statusFilter)
    && (paymentFilter == "" || o.paymentStatus == paymentFilter)
  }

  /** The three successive filters keep exactly the orders meeting every
      active criterion, in their original order. */
  lemma {:induction false} FilterOrdersSpec(orders: seq<OrderRow>, searchTerm: string, statusFilter: string,
                                            paymentFilter: string)
    ensures FilterOrders(orders, searchTerm, statusFilter, paymentFilter)
         == Filter(orders, (o: OrderRow) => OrderMatches(o, searchTerm, statusFilter, paymentFilter))
  {
    var t, st, pf := searchTerm, statusFilter, paymentFilter;
    var pSearch := (o: OrderRow) => MatchesSearch(o, t);
    var qSearch := (o: OrderRow) => t == "" || MatchesSearch(o, t);
    var pStatus := (o: OrderRow) => o.orderStatus == st;
    var qStatus := (o: OrderRow) => st == "" || o.orderStatus == st;
    var pPay := (o: OrderRow) => o.paymentStatus == pf;
    var qPay := (o: OrderRow) => pf == "" || o.paymentStatus == pf;
    var qSearchStatus := (o: OrderRow) => (t == "" || MatchesSearch(o, t)) && (st == "" || o.orderStatus == st);
    var qAll := (o: OrderRow) => OrderMatches(o, t, st, pf);
    var bySearch := if t != "" then Filter(orders, pSearch) else orders;
    FilterWhen(orders, t != "", pSearch, qSearch);
    var byStatus := if st != "" then Filter(bySearch, pStatus) else bySearch;
    FilterWhen(bySearch, st != "", pStatus, qStatus);
    FilterFilter(orders, qSearch, qStatus, qSearchStatus);
    FilterWhen(byStatus, pf != "", pPay, qPay);
    FilterFilter(orders, qSearchStatus, qPay, qAll);
  }

  /** The filtered list is a subsequence of the orders that misses no
      matching order, and the whole list when no criterion is set. */
  lemma {:induction false} FilterOrdersMembers(orders: seq<OrderRow>, searchTerm: string, statusFilter: string,
                                               paymentFilter: string)
    ensures IsSubseq(FilterOrders(orders, searchTerm, statusFilter, paymentFilter), orders)
    ensures forall o :: o in FilterOrders(orders, searchTerm, statusFilter, paymentFilter)
                        <==> o in orders && OrderMatches(o, searchTerm, statusFilter, paymentFilter)
    ensures searchTerm == "" && statusFilter == "" && paymentFilter == ""
            ==> FilterOrders(orders, searchTerm, statusFilter, paymentFilter) == orders
  {
    var qAll := (o: OrderRow) => OrderMatches(o, searchTerm, statusFilter, paymentFilter);
    FilterOrdersSpec(orders, searchTerm, statusFilter, paymentFilter);
    FilterIsSubseq(orders, qAll);
    forall o ensures o in Filter(orders, qAll) <==> o in orders && qAll(o) {
      FilterMembers(orders, qAll, o);
    }
    if searchTerm == "" && statusFilter == "" && paymentFilter == "" {
      FilterAll(orders, qAll);
    }
  }

  // ------------------------------------------------------------ status badges

  datatype Badge = Badge(color: string, text: string)

  /** orderStatusConfig */
  const OrderStatusConfig: map<string, Badge> := map[
    "pending" := Badge("bg-yellow-100 text-yellow-800", "Pending"),
    "processing" := Badge("bg-blue-100 text-blue-800", "Diproses"),
    "shipped" := Badge("bg-purple-100 text-purple-800", "Dikirim"),
    "delivered" := Badge("bg-green-100 text-green-800", "Selesai"),
    "cancelled" := Badge("bg-red-100 text-red-800", "Dibatal")]

  /** paymentStatusConfig */
  const PaymentStatusConfig: map<string, Badge> := map[
    "pending" := Badge("bg-yellow-100 text-yellow-800", "Belum Bayar"),
    "dp_paid" := Badge("bg-blue-100 text-blue-800", "DP Dibayar"),
    "paid" := Badge("bg-green-100 text-green-800", "Lunas")]

  datatype BadgeKind = OrderBadge | PaymentBadge

  /** getStatusBadge (the configuration it renders): the entry for the status,
      or the `pending` entry when the table has none */
  function StatusBadge(status: string, kind: BadgeKind): Badge {
    var config := if kind == OrderBadge then OrderStatusConfig else PaymentStatusConfig;
    if status in config then config[status] else config["pending"]
  }

  /** A status outside the table shows the `pending` badge; a status inside
      it shows its own entry, and two different statuses of the table never
      share a label. */
  lemma {:induction false} StatusBadgeSpec(status: string, other: string, kind: BadgeKind)
    ensures kind == OrderBadge && status in OrderStatusConfig
            ==> StatusBadge(status, kind) == OrderStatusConfig[status]
    ensures kind == PaymentBadge && status in PaymentStatusConfig
            ==> StatusBadge(status, kind) == PaymentStatusConfig[status]
    ensures kind == OrderBadge && status !in OrderStatusConfig
            ==> StatusBadge(status, kind) == StatusBadge("pending", kind)
    ensures kind == PaymentBadge && status !in PaymentStatusConfig
            ==> StatusBadge(status, kind) == StatusBadge("pending", kind)
    ensures kind == OrderBadge && status in OrderStatusConfig && other in OrderStatusConfig && status != other
            ==> StatusBadge(status, kind).text != StatusBadge(other, kind).text
    ensures kind == PaymentBadge && status in PaymentStatusConfig && other in PaymentStatusConfig
            && status != other
            ==> StatusBadge(status, kind).text != StatusBadge(other, kind).text
  {
  }

  /** Every order status and payment status the schema allows has an entry
      of its own, so only a value outside the schema falls back */
  lemma {:induction false} EveryDeclaredStatusHasBadge(os: Entities.OrderStatus, ps: Entities.PaymentStatus)
    ensures Entities.OrderStatusName(os) in OrderStatusConfig
    ensures Entities.PaymentStatusName(ps) in PaymentStatusConfig
  {
  }

  // ------------------------------------------------------- payment methods

  const PaymentMethodLabels: map<string, string> := map[
    "dp" := "DP", "cod" := "COD", "cash" := "Tunai", "transfer" := "Transfer"]

  /** getPaymentMethodText */
  function PaymentMethodText(paymentMethod: string): string {
    if paymentMethod in PaymentMethodLabels then PaymentMethodLabels[paymentMethod] else paymentMethod
  }

  /** A method is relabelled exactly when it is one of the four known ones;
      anything else is shown as stored */
  lemma {:induction false} PaymentMethodTextSpec(paymentMethod: string)
    ensures PaymentMethodText(paymentMethod) != paymentMethod <==> paymentMethod in PaymentMethodLabels
    ensures paymentMethod !in PaymentMethodLabels ==> PaymentMethodText(paymentMethod) == paymentMethod
  {
  }

  /** every payment method of the schema has a label */
  lemma {:induction false} EveryPaymentMethodHasLabel(m: Entities.PaymentMethod)
    ensures Entities.PaymentMethodName(m) in PaymentMethodLabels
    ensures PaymentMethodText(Entities.PaymentMethodName(m)) != Entities.PaymentMethodName(m)
  {
  }

  // ------------------------------------------------------- activity logging

  /** the action strings updateOrderStatus and updatePaymentStatus log */
  const UpdateOrderStatusAction := "update_order_status"
  const UpdatePaymentStatusAction := "update_payment_status"
}
