/** The cart page (src/pages/Cart.tsx): which cart operation a quantity
    change becomes, the guards on the plus and minus controls, and the line
    totals. The cart store that carries the operations out is not part of
    this model. */
module CartPage {
  import opened Entities

  /** handleQuantityChange: a quantity of zero or less removes the line,
      anything else sets it */
  function QuantityChange(productId: string, newQuantity: int): CartCommand {
    if newQuantity <= 0 then RemoveItem(productId) else UpdateQuantity(productId, newQuantity)
  }

  /** A non-positive quantity is always a removal and never an update; a
      positive one is an update to exactly that quantity of the same product.
      So no update ever asks for a quantity below 1. */
  lemma {:induction false} QuantityChangeSpec(productId: string, newQuantity: int)
    ensures QuantityChange(productId, newQuantity).RemoveItem? <==> newQuantity <= 0
    ensures QuantityChange(productId, newQuantity).UpdateQuantity? <==> newQuantity > 0
    ensures QuantityChange(productId, newQuantity).RemoveItem?
            ==> QuantityChange(productId, newQuantity).productId == productId
    ensures QuantityChange(productId, newQuantity).UpdateQuantity?
            ==> (QuantityChange(productId, newQuantity) == UpdateQuantity(productId, newQuantity)
                 && QuantityChange(productId, newQuantity).quantity >= 1)
  {
  }

  /** the minus control, which is never disabled */
  function MinusPressed(item: CartItem): CartCommand {
    QuantityChange(item.product.id, item.quantity - 1)
  }

  /** the plus control is enabled while the quantity is below the stock */
  predicate PlusEnabled(item: CartItem) {
    !(item.quantity >= item.product.stock)
  }

  /** the plus control */
  function PlusPressed(item: CartItem): CartCommand {
    QuantityChange(item.product.id, item.quantity + 1)
  }

  /** Minus on a line holding one unit (or fewer) removes it; on a larger line
      it lowers the quantity by exactly one. */
  lemma {:induction false} MinusSpec(item: CartItem)
    ensures item.quantity <= 1 ==> MinusPressed(item) == RemoveItem(item.product.id)
    ensures item.quantity > 1 ==> MinusPressed(item) == UpdateQuantity(item.product.id, item.quantity - 1)
  {
    QuantityChangeSpec(item.product.id, item.quantity - 1);
  }

  /** An enabled plus on a line with a positive quantity raises it by one and
      never asks for more than the stock snapshot, for any non-negative quantity. */
  lemma {:induction false} PlusWithinStock(item: CartItem)
    requires PlusEnabled(item) && item.quantity >= 0
    ensures PlusPressed(item) == UpdateQuantity(item.product.id, item.quantity + 1)
    ensures PlusPressed(item).quantity <= item.product.stock
  {
    QuantityChangeSpec(item.product.id, item.quantity + 1);
  }

  /** One press of an enabled plus or of minus on a line within [1, stock]
      yields, when it is an update, a quantity within [1, stock]. */
  lemma {:induction false} ControlsKeepWithinStock(item: CartItem, plus: bool)
    requires 1 <= item.quantity <= item.product.stock
    requires plus ==> PlusEnabled(item)
    ensures var cmd := if plus then PlusPressed(item) else MinusPressed(item);
            cmd.UpdateQuantity? ==> 1 <= cmd.quantity <= item.product.stock
  {
    if plus {
      PlusWithinStock(item);
    } else {
      MinusSpec(item);
    }
  }

  /** the line total shown in the item list and in the summary */
  function LineTotal(item: CartItem): (r: int)
    ensures item.quantity == 0 ==> r == 0
    ensures item.quantity == 1 ==> r == item.product.price
    ensures item.product.price >= 0 && item.quantity >= 0 ==> r >= 0
  {
    item.product.price * item.quantity
  }

  /** One more unit adds one unit price to the line total, one fewer removes
      one, which is what the plus and minus controls show. */
  lemma {:induction false} LineTotalStep(item: CartItem)
    ensures LineTotal(CartItem(item.product, item.quantity + 1)) == LineTotal(item) + item.product.price
    ensures LineTotal(CartItem(item.product, item.quantity - 1)) == LineTotal(item) - item.product.price
  {
  }
}
