/** The checkout page (src/pages/Checkout.tsx): the order record and order
    lines built from the form and the cart, the stock each product is set
    to, and handleSubmit's sequence of remote writes, which stops at the
    first failure and clears the cart only after every checked write went
    through.

    The database is not part of this model. A submission's writes are
    numbered from 0 in the order they are issued, and `accepts(k)` says
    whether the database accepts the k-th one; the id the database gives the
    new order is a parameter. */
module Checkout {
  import opened Seqs
  import opened Entities
  import CartPage

  /** the action logged for a new order */
  const CreateOrderAction := "create_order"

  datatype CheckoutForm = CheckoutForm(
    customerName: string,
    customerPhone: string,
    customerAddress: string,
    paymentMethod: PaymentMethod,
    notes: string,
    voucherCode: string)

  /** the order record sent to the database */
  datatype OrderDraft = OrderDraft(
    customerName: string,
    customerPhone: string,
    customerAddress: string,
    subtotal: int,
    discount: int,
    shippingCost: int,
    total: int,
    paymentMethod: PaymentMethod,
    paymentStatus: PaymentStatus,
    orderStatus: OrderStatus,
    notes: string,
    voucherCode: string,
    createdBy: Option<string>)

  /** `user?.id || null`: the signed-in user's id, none for a guest or an
      empty id */
  function CreatedBy(userId: Option<string>): (r: Option<string>)
    ensures r != Some("")
    ensures r.Some? ==> r == userId
    ensures r.None? ==> userId.None? || userId == Some("")
  {
    if userId.Some? && userId.value != "" then userId else None
  }

  /** orderData: the form's fields, the cart total as both subtotal and
      total, nothing off and no shipping, both statuses pending */
  function OrderDraftOf(form: CheckoutForm, cartTotal: int, userId: Option<string>): OrderDraft {
    OrderDraft(form.customerName, form.customerPhone, form.customerAddress,
               cartTotal, 0, 0, cartTotal, form.paymentMethod, PaymentPending, OrderPending,
               form.notes, form.voucherCode, CreatedBy(userId))
  }

  /** The order charges exactly the cart total: subtotal and total agree and
      the total is subtotal minus discount plus shipping; it starts pending
      on both counts and carries the customer fields as typed. */
  lemma {:induction false} OrderDraftSpec(form: CheckoutForm, cartTotal: int, userId: Option<string>)
    ensures OrderDraftOf(form, cartTotal, userId).subtotal == cartTotal
    ensures OrderDraftOf(form, cartTotal, userId).total == cartTotal
    ensures var d := OrderDraftOf(form, cartTotal, userId);
            d.total == d.subtotal - d.discount + d.shippingCost && d.discount == 0 && d.shippingCost == 0
    ensures OrderDraftOf(form, cartTotal, userId).paymentStatus == PaymentPending
    ensures OrderDraftOf(form, cartTotal, userId).orderStatus == OrderPending
    ensures var d := OrderDraftOf(form, cartTotal, userId);
            d.customerName == form.customerName && d.customerPhone == form.customerPhone
            && d.customerAddress == form.customerAddress && d.paymentMethod == form.paymentMethod
            && d.notes == form.notes && d.voucherCode == form.voucherCode
    ensures OrderDraftOf(form, cartTotal, userId).createdBy.None? <==> userId.None? || userId == Some("")
  {
  }

  /** an order line as sent to the database */
  datatype OrderItemDraft = OrderItemDraft(
    orderId: string,
    productId: string,
    productName: string,
    quantity: int,
    price: int,
    total: int)

  function OrderItemOf(orderId: string, item: CartItem): OrderItemDraft {
    OrderItemDraft(orderId, item.product.id, item.product.name, item.quantity,
                   item.product.price, item.product.price * item.quantity)
  }

  /** orderItems: one line per cart item */
  function OrderItemsOf(orderId: string, items: seq<CartItem>): seq<OrderItemDraft> {
    Map(items, (item: CartItem) => OrderItemOf(orderId, item))
  }

  /** the sum of the cart's line totals as the cart page shows them */
  function LineTotalsSum(items: seq<CartItem>): int {
    if items == [] then 0
    else LineTotalsSum(items[..|items| - 1]) + CartPage.LineTotal(items[|items| - 1])
  }

  /** the sum of the order lines' totals */
  function OrderItemsSum(lines: seq<OrderItemDraft>): int {
    if lines == [] then 0 else OrderItemsSum(lines[..|lines| - 1]) + lines[|lines| - 1].total
  }

  /** The order lines follow the cart item by item and in order: same
      product, quantity and unit price, a line total equal to the line total
      the cart page shows, so the lines add up to the cart page's sum. */
  lemma {:induction false} OrderItemsSpec(orderId: string, items: seq<CartItem>)
    ensures |OrderItemsOf(orderId, items)| == |items|
    ensures forall i :: 0 <= i < |items| ==>
              var line := OrderItemsOf(orderId, items)[i];
              line.orderId == orderId && line.productId == items[i].product.id
              && line.productName == items[i].product.name && line.quantity == items[i].quantity
              && line.price == items[i].product.price && line.total == CartPage.LineTotal(items[i])
    ensures OrderItemsSum(OrderItemsOf(orderId, items)) == LineTotalsSum(items)
  {
    var lines := OrderItemsOf(orderId, items);
    if items != [] {
      var init := items[..|items| - 1];
      OrderItemsSpec(orderId, init);
      assert lines[..|lines| - 1] == OrderItemsOf(orderId, init);
    }
  }

  /** the stock write for one cart item */
  datatype StockUpdate = StockUpdate(productId: string, stock: int)

  /** `item.product.stock - item.quantity`, from the product as it was when
      it entered the cart */
  function StockUpdateOf(item: CartItem): StockUpdate {
    StockUpdate(item.product.id, item.product.stock - item.quantity)
  }

  /** The new stock is the cart's snapshot of the stock less the quantity
      ordered: it stays non-negative exactly when the snapshot covered the
      quantity, and it is lower than the snapshot for every positive
      quantity. */
  lemma {:induction false} StockUpdateSpec(item: CartItem)
    ensures StockUpdateOf(item).productId == item.product.id
    ensures StockUpdateOf(item).stock + item.quantity == item.product.stock
    ensures StockUpdateOf(item).stock >= 0 <==> item.quantity <= item.product.stock
    ensures item.quantity > 0 ==> StockUpdateOf(item).stock < item.product.stock
  {
  }

  /** a write to the database */
  datatype RemoteWrite =
    | InsertOrder(order: OrderDraft)
    | InsertOrderItems(lines: seq<OrderItemDraft>)
    | UpdateStock(update: StockUpdate)
    | InsertActivity(userId: string, action: string, orderId: string, total: int, itemsCount: int)

  /** the stock writes, one per cart item in cart order */
  function StockWrites(items: seq<CartItem>): (r: seq<RemoteWrite>)
    ensures |r| == |items|
    ensures forall i :: 0 <= i < |items| ==> r[i] == UpdateStock(StockUpdateOf(items[i]))
  {
    Map(items, (item: CartItem) => UpdateStock(StockUpdateOf(item)))
  }

  /** the activity entry, written only for a signed-in user */
  function ActivityWrites(userId: Option<string>, orderId: string, cartTotal: int, itemCount: int): seq<RemoteWrite> {
    if userId.Some? then [InsertActivity(userId.value, CreateOrderAction, orderId, cartTotal, itemCount)] else []
  }

  /** every write handleSubmit would issue if all went through */
  function PlannedWrites(form: CheckoutForm, items: seq<CartItem>, cartTotal: int,
                         userId: Option<string>, orderId: string): seq<RemoteWrite>
  {
    [InsertOrder(OrderDraftOf(form, cartTotal, userId)), InsertOrderItems(OrderItemsOf(orderId, items))]
    + StockWrites(items)
    + ActivityWrites(userId, orderId, cartTotal, |items|)
  }

  /** the writes whose failure handleSubmit checks: the order, its lines and
      each stock update (the activity entry's outcome is not looked at) */
  function CheckedCount(items: seq<CartItem>): nat {
    2 + |items|
  }

  /** every one of the first n writes is accepted */
  predicate AllAccepted(accepts: nat -> bool, n: nat) {
    forall k: nat :: k < n ==> accepts(k)
  }

  /** The writes issued from position k of the plan on: each write is
      issued, and a rejected checked write is the last one. */
  function Issued(plan: seq<RemoteWrite>, accepts: nat -> bool, checked: nat, k: nat): seq<RemoteWrite>
    decreases |plan| - k
  {
    if k >= |plan| then []
    else if k < checked && !accepts(k) then [plan[k]]
    else [plan[k]] + Issued(plan, accepts, checked, k + 1)
  }

  /** the writes issued from position 0: those of an accepted prefix, then
      whatever follows it */
  lemma {:induction false} IssuedAfterAcceptedPrefix(plan: seq<RemoteWrite>, accepts: nat -> bool, checked: nat, k: nat)
    requires k <= |plan| && k <= checked && AllAccepted(accepts, k)
    ensures Issued(plan, accepts, checked, 0) == plan[..k] + Issued(plan, accepts, checked, k)
  {
    if k > 0 {
      IssuedAfterAcceptedPrefix(plan, accepts, checked, k - 1);
      assert plan[..k] == plan[..k - 1] + [plan[k - 1]];
    }
  }

  /** Issued writes form a prefix of the plan ending at the first rejection. */
  lemma {:induction false} IssuedIsPrefix(plan: seq<RemoteWrite>, accepts: nat -> bool, checked: nat, k: nat)
    requires k <= |plan|
    ensures var w := Issued(plan, accepts, checked, k);
            |w| <= |plan| - k && w == plan[k..k + |w|]
    decreases |plan| - k
  {
    if k < |plan| && !(k < checked && !accepts(k)) {
      IssuedIsPrefix(plan, accepts, checked, k + 1);
    }
  }

  /** With every checked write accepted the whole plan goes out; when write
      r is the first rejected one, exactly the writes up to and including r
      go out and nothing after it. */
  lemma {:induction false} IssuedSpec(plan: seq<RemoteWrite>, accepts: nat -> bool, checked: nat, r: nat)
    requires checked <= |plan|
    ensures AllAccepted(accepts, checked) ==> Issued(plan, accepts, checked, 0) == plan
    ensures r < checked && AllAccepted(accepts, r) && !accepts(r)
            ==> Issued(plan, accepts, checked, 0) == plan[..r + 1]
  {
    if AllAccepted(accepts, checked) {
      IssuedAfterAcceptedPrefix(plan, accepts, checked, checked);
      IssuedTail(plan, accepts, checked, checked);
      assert plan[..checked] + plan[checked..] == plan;
    }
    if r < checked && AllAccepted(accepts, r) && !accepts(r) {
      IssuedAfterAcceptedPrefix(plan, accepts, checked, r);
      assert plan[..r] + [plan[r]] == plan[..r + 1];
    }
  }

  /** past the checked writes everything is issued */
  lemma {:induction false} IssuedTail(plan: seq<RemoteWrite>, accepts: nat -> bool, checked: nat, k: nat)
    requires checked <= k <= |plan|
    ensures Issued(plan, accepts, checked, k) == plan[k..]
    decreases |plan| - k
  {
    if k < |plan| {
      IssuedTail(plan, accepts, checked, k + 1);
      assert plan[k..] == [plan[k]] + plan[k + 1..];
    }
  }

  /** what the page tells the customer */
  datatype Notice = EmptyCartError | OrderCreated | OrderFailed

  class CheckoutPage {
    /** the submit button's busy flag */
    var loading: bool
    /** every write sent to the database so far */
    var writes: seq<RemoteWrite>
    /** every command sent to the cart store so far */
    var cartCommands: seq<CartCommand>
    /** the toasts shown so far */
    var notices: seq<Notice>
    /** whether the page has sent the customer to the home page */
    var navigatedHome: bool

    constructor()
      ensures !loading && writes == [] && cartCommands == [] && notices == [] && !navigatedHome
    {
      loading := false;
      writes := [];
      cartCommands := [];
      notices := [];
      navigatedHome := false;
    }

    /** handleSubmit. An empty cart only shows an error. Otherwise the order,
        its lines and the stock updates are written in turn, stopping at the
        first rejected one; after all of them the activity entry is written
        for a signed-in user, the cart is cleared and the customer is sent
        home. The busy flag is down again at the end. */
    method HandleSubmit(form: CheckoutForm, items: seq<CartItem>, cartTotal: int, userId: Option<string>,
                        orderId: string, accepts: nat -> bool)
      modifies this
      ensures items == [] ==>
                loading == old(loading) && writes == old(writes) && cartCommands == old(cartCommands)
                && notices == old(notices) + [EmptyCartError] && navigatedHome == old(navigatedHome)
      ensures items != [] ==> !loading
      ensures items != [] ==>
                writes == old(writes) + SubmitWrites(form, items, cartTotal, userId, orderId, accepts)
      ensures items != [] ==>
                var ok := Succeeds(items, accepts);
                && cartCommands == old(cartCommands) + (if ok then [ClearCart] else [])
                && notices == old(notices) + [if ok then OrderCreated else OrderFailed]
                && navigatedHome == (old(navigatedHome) || ok)
    {
      if |items| == 0 {
        notices := notices + [EmptyCartError];
        return;
      }
      loading := true;
      var ok, issued, rejectedAt := IssueCheckedWrites(form, items, cartTotal, userId, orderId, accepts);
      writes := writes + issued;
      if ok {
        if userId.Some? {
          writes := writes + [InsertActivity(userId.value, CreateOrderAction, orderId, cartTotal, |items|)];
        }
        SubmitSucceeded(form, items, cartTotal, userId, orderId, accepts);
        cartCommands := cartCommands + [ClearCart];
        notices := notices + [OrderCreated];
        navigatedHome := true;
      } else {
        SubmitFailed(form, items, cartTotal, userId, orderId, accepts, rejectedAt);
        notices := notices + [OrderFailed];
      }
      loading := false;
    }
  }

  /** the checked part of handleSubmit's try block: the order, its lines,
      then the stock writes one item at a time, stopping at the first
      rejected write; `issued` lists the writes sent */
  method IssueCheckedWrites(form: CheckoutForm, items: seq<CartItem>, cartTotal: int, userId: Option<string>,
                            orderId: string, accepts: nat -> bool)
    returns (ok: bool, issued: seq<RemoteWrite>, ghost rejectedAt: nat)
    ensures ok ==> AllAccepted(accepts, CheckedCount(items))
                   && issued == PlannedWrites(form, items, cartTotal, userId, orderId)[..CheckedCount(items)]
    ensures !ok ==> rejectedAt < CheckedCount(items) && AllAccepted(accepts, rejectedAt) && !accepts(rejectedAt)
                    && issued == PlannedWrites(form, items, cartTotal, userId, orderId)[..rejectedAt + 1]
  {
    ghost var plan := PlannedWrites(form, items, cartTotal, userId, orderId);
    PlanHead(form, items, cartTotal, userId, orderId);
    rejectedAt := 0;
    issued := [InsertOrder(OrderDraftOf(form, cartTotal, userId))];
    ok := accepts(0);
    if ok {
      issued := issued + [InsertOrderItems(OrderItemsOf(orderId, items))];
      ok := accepts(1);
      rejectedAt := 1;
      if ok {
        var stock;
        ok, stock, rejectedAt := IssueStockWrites(items, accepts);
        ghost var j := if ok then |items| else rejectedAt - 1;
        PlanPrefix(form, items, cartTotal, userId, orderId, j);
        issued := issued + stock;
      }
    }
  }

  /** the loop over the cart: one stock write per item, stopping at the
      first rejected one; the two writes before it were accepted */
  method IssueStockWrites(items: seq<CartItem>, accepts: nat -> bool)
    returns (ok: bool, issued: seq<RemoteWrite>, ghost rejectedAt: nat)
    requires AllAccepted(accepts, 2)
    ensures ok ==> AllAccepted(accepts, 2 + |items|) && issued == StockWrites(items)
    ensures !ok ==> 2 <= rejectedAt < 2 + |items| && AllAccepted(accepts, rejectedAt) && !accepts(rejectedAt)
                    && issued == StockWrites(items)[..rejectedAt - 1]
  {
    ok := true;
    issued := [];
    rejectedAt := 0;
    var i := 0;
    while ok && i < |items|
      invariant 0 <= i <= |items|
      invariant ok ==> issued == StockWrites(items)[..i] && AllAccepted(accepts, 2 + i)
      invariant !ok ==> 2 <= rejectedAt < 2 + |items| && AllAccepted(accepts, rejectedAt) && !accepts(rejectedAt)
                        && issued == StockWrites(items)[..rejectedAt - 1]
    {
      issued := issued + [UpdateStock(StockUpdateOf(items[i]))];
      assert StockWrites(items)[..i + 1] == StockWrites(items)[..i] + [UpdateStock(StockUpdateOf(items[i]))];
      if !accepts(2 + i) {
        ok := false;
        rejectedAt := 2 + i;
      } else {
        i := i + 1;
      }
    }
    if ok {
      assert StockWrites(items)[..i] == StockWrites(items);
    }
  }

  /** the order and its lines open the plan */
  lemma {:induction false} PlanHead(form: CheckoutForm, items: seq<CartItem>, cartTotal: int,
                                    userId: Option<string>, orderId: string)
    ensures var plan := PlannedWrites(form, items, cartTotal, userId, orderId);
            && |plan| >= CheckedCount(items)
            && plan[..1] == [InsertOrder(OrderDraftOf(form, cartTotal, userId))]
            && plan[..2] == [InsertOrder(OrderDraftOf(form, cartTotal, userId)),
                             InsertOrderItems(OrderItemsOf(orderId, items))]
  {
  }

  /** the first j stock writes follow the order and its lines in the plan */
  lemma {:induction false} PlanPrefix(form: CheckoutForm, items: seq<CartItem>, cartTotal: int,
                                      userId: Option<string>, orderId: string, j: nat)
    requires j <= |items|
    ensures var plan := PlannedWrites(form, items, cartTotal, userId, orderId);
            2 + j <= |plan| && plan[..2 + j] == plan[..2] + StockWrites(items)[..j]
  {
    var plan := PlannedWrites(form, items, cartTotal, userId, orderId);
    forall k | 0 <= k < 2 + j ensures plan[..2 + j][k] == (plan[..2] + StockWrites(items)[..j])[k] {
    }
  }

  /** with every checked write accepted the submission issues the checked
      writes and then the activity entry */
  lemma {:induction false} SubmitSucceeded(form: CheckoutForm, items: seq<CartItem>, cartTotal: int,
                                           userId: Option<string>, orderId: string, accepts: nat -> bool)
    requires AllAccepted(accepts, CheckedCount(items))
    ensures Succeeds(items, accepts)
    ensures var plan := PlannedWrites(form, items, cartTotal, userId, orderId);
            SubmitWrites(form, items, cartTotal, userId, orderId, accepts)
            == plan[..CheckedCount(items)] + ActivityWrites(userId, orderId, cartTotal, |items|)
  {
    var plan := PlannedWrites(form, items, cartTotal, userId, orderId);
    PlanShape(form, items, cartTotal, userId, orderId);
    IssuedSpec(plan, accepts, CheckedCount(items), 0);
  }

  /** when write r is the first rejected one the submission fails, having
      issued the writes up to r */
  lemma {:induction false} SubmitFailed(form: CheckoutForm, items: seq<CartItem>, cartTotal: int,
                                        userId: Option<string>, orderId: string, accepts: nat -> bool, r: nat)
    requires r < CheckedCount(items) && AllAccepted(accepts, r) && !accepts(r)
    ensures !Succeeds(items, accepts)
    ensures SubmitWrites(form, items, cartTotal, userId, orderId, accepts)
            == PlannedWrites(form, items, cartTotal, userId, orderId)[..r + 1]
  {
    var plan := PlannedWrites(form, items, cartTotal, userId, orderId);
    PlanShape(form, items, cartTotal, userId, orderId);
    IssuedSpec(plan, accepts, CheckedCount(items), r);
  }

  /** the writes a non-empty submission issues */
  function SubmitWrites(form: CheckoutForm, items: seq<CartItem>, cartTotal: int, userId: Option<string>,
                        orderId: string, accepts: nat -> bool): seq<RemoteWrite>
  {
    Issued(PlannedWrites(form, items, cartTotal, userId, orderId), accepts, CheckedCount(items), 0)
  }

  /** whether a submission goes through: every checked write is accepted */
  predicate Succeeds(items: seq<CartItem>, accepts: nat -> bool) {
    AllAccepted(accepts, CheckedCount(items))
  }

  /** the plan: order, lines, one stock write per item, then the activity
      entry when there is a user */
  lemma {:induction false} PlanShape(form: CheckoutForm, items: seq<CartItem>, cartTotal: int,
                                     userId: Option<string>, orderId: string)
    ensures var plan := PlannedWrites(form, items, cartTotal, userId, orderId);
            && |plan| >= CheckedCount(items)
            && plan[..1] == [InsertOrder(OrderDraftOf(form, cartTotal, userId))]
            && plan[..2] == [InsertOrder(OrderDraftOf(form, cartTotal, userId)),
                             InsertOrderItems(OrderItemsOf(orderId, items))]
            && (forall i :: 0 <= i < |items| ==> plan[2 + i] == UpdateStock(StockUpdateOf(items[i])))
            && plan == plan[..CheckedCount(items)] + ActivityWrites(userId, orderId, cartTotal, |items|)
  {
    var plan := PlannedWrites(form, items, cartTotal, userId, orderId);
    var head := [InsertOrder(OrderDraftOf(form, cartTotal, userId)), InsertOrderItems(OrderItemsOf(orderId, items))];
    assert plan[..CheckedCount(items)] == head + StockWrites(items);
  }

  /** A submission that goes through clears the cart and leaves nothing of
      the plan unwritten; one that fails does not clear the cart and writes
      no activity entry, and when the order itself is refused nothing else
      is written at all. */
  lemma {:induction false} SubmitOutcome(form: CheckoutForm, items: seq<CartItem>, cartTotal: int,
                                         userId: Option<string>, orderId: string, accepts: nat -> bool)
    requires items != []
    ensures var plan := PlannedWrites(form, items, cartTotal, userId, orderId);
            AllAccepted(accepts, CheckedCount(items))
            ==> Issued(plan, accepts, CheckedCount(items), 0) == plan
    ensures var plan := PlannedWrites(form, items, cartTotal, userId, orderId);
            !AllAccepted(accepts, CheckedCount(items))
            ==> |Issued(plan, accepts, CheckedCount(items), 0)| <= CheckedCount(items)
    ensures var plan := PlannedWrites(form, items, cartTotal, userId, orderId);
            !accepts(0) ==> Issued(plan, accepts, CheckedCount(items), 0)
                            == [InsertOrder(OrderDraftOf(form, cartTotal, userId))]
  {
    var plan := PlannedWrites(form, items, cartTotal, userId, orderId);
    var checked := CheckedCount(items);
    PlanHead(form, items, cartTotal, userId, orderId);
    IssuedSpec(plan, accepts, checked, 0);
    if !AllAccepted(accepts, checked) {
      var r := FirstRejected(accepts, checked);
      SubmitFailed(form, items, cartTotal, userId, orderId, accepts, r);
      PlanHead(form, items, cartTotal, userId, orderId);
      assert |Issued(plan, accepts, checked, 0)| == r + 1;
    }
    if !accepts(0) {
      SubmitFailed(form, items, cartTotal, userId, orderId, accepts, 0);
      PlanHead(form, items, cartTotal, userId, orderId);
    }
  }

  /** the first rejected write among the first n, when there is one */
  function FirstRejected(accepts: nat -> bool, n: nat): (r: nat)
    requires !AllAccepted(accepts, n)
    ensures r < n && !accepts(r) && AllAccepted(accepts, r)
  {
    if AllAccepted(accepts, n - 1) then n - 1 else FirstRejected(accepts, n - 1)
  }
}
