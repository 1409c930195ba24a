/** The area calculator on a product card (src/ui/productCard.js): the buyer
    types a width and a height, "Calculate" prices the lawn, and "Add to
    Cart" hands the priced line to the cart. */
module ProductCard {
  import opened Common
  import opened Numbers
  import opened Catalog
  import CartComponent

  /** What a successful calculation leaves on the add button's `dataset`. */
  datatype Quote = Quote(width: real, height: real, area: real, total: real)

  /** The calculate handler's arithmetic: nothing unless both dimensions are
      positive; otherwise the area and its price. */
  function Priced(product: Product, w: real, h: real): (q: Option<Quote>)
    ensures q.Some? <==> w > 0.0 && h > 0.0
    ensures q.Some? ==> q.value.width == w && q.value.height == h
                        && q.value.area == w * h && q.value.total == q.value.area * product.price
  {
    if w > 0.0 && h > 0.0 then Some(Quote(w, h, w * h, w * h * product.price)) else None
  }

  /** The cart line the add handler builds from the last quote: the height
      becomes the length, and one piece is ordered. */
  function CartItemFor(product: Product, q: Quote): (it: CartComponent.CartItem)
    ensures it.id == product.id && it.name == product.name && it.price == product.price
    ensures it.length == q.height && it.width == q.width && it.quantity == 1
    ensures it.area == q.area && it.total == q.total
  {
    CartComponent.CartItem(product.id, product.name, product.price, q.height, q.width,
                           q.area, q.total, 1)
  }

  /** A line built from a calculated quote is priced the way the cart
      reprices lines: total = area × price × quantity. */
  lemma QuotedItemConsistent(product: Product, w: real, h: real)
    requires Priced(product, w, h).Some?
    ensures CartComponent.Consistent(CartItemFor(product, Priced(product, w, h).value))
  {
  }

  class Card {
    const product: Product
    /** The add button is enabled. */
    var addEnabled: bool
    /** The `dataset` of the add button, once a calculation succeeded. */
    var quote: Option<Quote>

    ghost predicate Valid()
      reads this
    {
      (addEnabled <==> quote.Some?)
      && (quote.Some? ==> Priced(product, quote.value.width, quote.value.height) == quote)
    }

    /** The card as rendered: the add button starts disabled. */
    constructor (p: Product)
      ensures Valid() && product == p && !addEnabled && quote.None?
    {
      product := p;
      addEnabled := false;
      quote := None;
    }

    /** The calculate handler; unparseable text counts as 0. */
    method Calculate(widthText: string, heightText: string)
      requires Valid()
      modifies this
      ensures Valid()
      ensures Priced(product, NumberOrZero(widthText), NumberOrZero(heightText)).None? ==>
                addEnabled == old(addEnabled) && quote == old(quote)
      ensures Priced(product, NumberOrZero(widthText), NumberOrZero(heightText)).Some? ==>
                addEnabled && quote == Priced(product, NumberOrZero(widthText), NumberOrZero(heightText))
    {
      CalculateWith(NumberOrZero(widthText), NumberOrZero(heightText));
    }

    /** The calculate handler once both inputs are read as numbers. */
    method CalculateWith(w: real, h: real)
      requires Valid()
      modifies this
      ensures Valid()
      ensures Priced(product, w, h).None? ==> addEnabled == old(addEnabled) && quote == old(quote)
      ensures Priced(product, w, h).Some? ==> addEnabled && quote == Priced(product, w, h)
    {
      if w > 0.0 && h > 0.0 {
        var area := w * h;
        var total := area * product.price;
        ghost var expected := Priced(product, w, h);
        assert expected.value == Quote(w, h, area, total);
        quote := Some(Quote(w, h, area, total));
        addEnabled := true;
      }
    }

    /** The add handler: a disabled button does not fire, and the callback is
        called only when it is a function. The line comes from the last
        quote, whatever the inputs hold now. */
    method AddToCart(callbackIsFunction: bool) returns (emitted: Option<CartComponent.CartItem>)
      requires Valid()
      ensures emitted.Some? <==> addEnabled && callbackIsFunction
      ensures emitted.Some? ==> quote.Some? && emitted.value == CartItemFor(product, quote.value)
                                && CartComponent.Consistent(emitted.value)
    {
      if !addEnabled || !callbackIsFunction {
        return None;
      }
      QuotedItemConsistent(product, quote.value.width, quote.value.height);
      emitted := Some(CartItemFor(product, quote.value));
    }
  }
}
