/** The product page (src/pages/ProductDetail.tsx): the quantity selector
    kept in the page's state, its guarded update, the add-to-cart handler
    and the enable rules of its buttons.

    The page object stays mounted when the route parameter changes (a link
    to a related product), so loading another product keeps the selected
    quantity. LoadProductAsWritten models that; LoadProduct is the corrected
    load, which starts the selector at 1 again. */
module ProductDetail {
  import opened Seqs
  import opened Entities

  /** The quantity a change request leaves: the requested one when it lies
      in [1, stock], the current one otherwise. */
  function AcceptedQuantity(current: int, stock: int, requested: int): (r: int)
    ensures r == requested || r == current
    ensures r != current ==> 1 <= r <= stock
  {
    if 1 <= requested && requested <= stock then requested else current
  }

  /** A request is taken exactly when it lies within [1, stock]; the
      selector never drops below 1 once it is there, and once it lies within
      [1, stock] no request moves it out. */
  lemma {:induction false} AcceptedQuantitySpec(current: int, stock: int, requested: int)
    ensures 1 <= requested <= stock ==> AcceptedQuantity(current, stock, requested) == requested
    ensures !(1 <= requested <= stock) ==> AcceptedQuantity(current, stock, requested) == current
    ensures current >= 1 ==> AcceptedQuantity(current, stock, requested) >= 1
    ensures 1 <= current <= stock ==> 1 <= AcceptedQuantity(current, stock, requested) <= stock
    ensures stock <= 0 ==> AcceptedQuantity(current, stock, requested) == current
  {
  }

  class ProductDetailPage {
    /** the loaded product, None until a fetch succeeds */
    var product: Option<Product>
    /** the selected quantity */
    var quantity: int

    /** the selector is at least 1, and within the stock whenever the loaded
        product has some */
    predicate Valid()
      reads this
    {
      quantity >= 1 && (AvailableStock() >= 1 ==> quantity <= AvailableStock())
    }

    /** `product?.stock || 0`: the loaded product's stock, 0 with none */
    function AvailableStock(): int
      reads this
    {
      if product.Some? then product.value.stock else 0
    }

    constructor()
      ensures product == None && quantity == 1
      ensures Valid()
    {
      product := None;
      quantity := 1;
    }

    /** handleQuantityChange */
    method HandleQuantityChange(requested: int)
      modifies this
      ensures product == old(product)
      ensures quantity == AcceptedQuantity(old(quantity), old(AvailableStock()), requested)
      ensures old(Valid()) ==> Valid()
    {
      if requested >= 1 && requested <= AvailableStock() {
        quantity := requested;
      }
      AcceptedQuantitySpec(old(quantity), AvailableStock(), requested);
    }

    /** the minus control: disabled at a quantity of 1 or less */
    predicate MinusEnabled()
      reads this
    {
      !(quantity <= 1)
    }

    /** the plus control: disabled once the quantity reaches the stock */
    predicate PlusEnabled()
      reads this
    {
      !(quantity >= AvailableStock())
    }

    /** the add-to-cart button: disabled when the stock is exactly 0 */
    predicate AddEnabled()
      reads this
    {
      product.Some? && product.value.stock != 0
    }

    /** handleAddToCart: nothing without a product, otherwise the product at
        the selected quantity. On a valid page with the button enabled the
        quantity asked for is between 1 and the stock. */
    method HandleAddToCart() returns (cmd: Option<CartCommand>)
      ensures product.None? <==> cmd.None?
      ensures product.Some? ==> cmd == Some(AddItem(product.value, quantity))
      ensures Valid() && AddEnabled() && product.value.stock >= 0
              ==> 1 <= cmd.value.quantity <= product.value.stock
    {
      if product.Some? {
        cmd := Some(AddItem(product.value, quantity));
      } else {
        cmd := None;
      }
    }

    /** fetchProduct's successful path as written: the product is replaced
        and the selector keeps whatever quantity it had */
    method LoadProductAsWritten(p: Product)
      modifies this
      ensures product == Some(p) && quantity == old(quantity)
    {
      product := Some(p);
    }

    /** the corrected load: the selector starts again at 1, so the page stays
        valid across products */
    method LoadProduct(p: Product)
      modifies this
      ensures product == Some(p) && quantity == 1
      ensures Valid()
    {
      product := Some(p);
      quantity := 1;
    }
  }

  /** With no product loaded every request is refused, since the stock then
      counts as 0 */
  lemma {:induction false} NoProductRefusesEveryChange(current: int, requested: int)
    ensures AcceptedQuantity(current, 0, requested) == current
  {
    AcceptedQuantitySpec(current, 0, requested);
  }

  /** Pressing an enabled plus (the quantity below the stock) or an enabled
      minus (the quantity above 1, up to the stock) moves the selector by
      exactly one. */
  lemma {:induction false} ControlsStepByOne(current: int, stock: int)
    ensures 0 <= current < stock ==> AcceptedQuantity(current, stock, current + 1) == current + 1
    ensures 1 < current <= stock ==> AcceptedQuantity(current, stock, current - 1) == current - 1
  {
  }

  /** The page as written: five units selected on a product with stock 10,
      then a related product with stock 2 is opened. The add button is
      enabled and asks for 5 units of a product that has 2, and the minus
      control cannot bring the quantity back into range, since 4 is refused
      as well. */
  method StaleQuantityAsWritten() returns (cmd: Option<CartCommand>, afterMinus: int)
    ensures cmd.Some? && cmd.value.AddItem?
    ensures cmd.value.quantity == 5 && cmd.value.product.stock == 2
    ensures afterMinus == 5
  {
    var first := Product("a", "A", "", 100, "", "c", 10, [], false, false, None, "", "");
    var related := Product("b", "B", "", 100, "", "c", 2, [], false, false, None, "", "");
    var page := new ProductDetailPage();
    page.LoadProductAsWritten(first);
    page.HandleQuantityChange(5);
    page.LoadProductAsWritten(related);
    assert page.AddEnabled() && page.MinusEnabled() && !page.PlusEnabled();
    cmd := page.HandleAddToCart();
    page.HandleQuantityChange(page.quantity - 1);
    afterMinus := page.quantity;
  }

  /** The same steps with the corrected load: the add button asks for 1 unit,
      which the related product's stock covers. */
  method StaleQuantityCorrected() returns (cmd: Option<CartCommand>)
    ensures cmd.Some? && cmd.value.AddItem?
    ensures cmd.value.quantity == 1 && cmd.value.quantity <= cmd.value.product.stock
  {
    var first := Product("a", "A", "", 100, "", "c", 10, [], false, false, None, "", "");
    var related := Product("b", "B", "", 100, "", "c", 2, [], false, false, None, "", "");
    var page := new ProductDetailPage();
    page.LoadProduct(first);
    page.HandleQuantityChange(5);
    page.LoadProduct(related);
    cmd := page.HandleAddToCart();
  }
}
