/**
 * The shopping cart: an ordered list of (product, quantity) entries that
 * refer to the products themselves, so later price changes show in the total.
 */
module Cart {
  import opened Products

  /** One entry of the cart. Quantities are not checked. */
  datatype CartItem = CartItem(product: Product, quantity: int)

  /** The products the entries refer to. */
  function ProductsOf(items: seq<CartItem>): set<Product>
  {
    set i | 0 <= i < |items| :: items[i].product
  }

  /** What one entry costs at its product's current price. */
  function LineCost(item: CartItem): real
    reads item.product
  {
    item.product.price * item.quantity as real
  }

  /** The sum of the entries' costs at the products' current prices. */
  function Cost(items: seq<CartItem>): real
    reads ProductsOf(items)
  {
    if items == [] then 0.0
    else Cost(items[..|items| - 1]) + LineCost(items[|items| - 1])
  }

  /** The cost of two lists one after the other is the sum of their costs. */
  lemma {:induction false} CostAppend(a: seq<CartItem>, b: seq<CartItem>)
    ensures Cost(a + b) == Cost(a) + Cost(b)
  {
    if b == [] {
      assert a + b == a;
    } else {
      var last := |b| - 1;
      assert (a + b)[..|a + b| - 1] == a + b[..last];
      CostAppend(a, b[..last]);
    }
  }

  /**
   * Adding a product twice costs the same as adding it once with the summed
   * quantity, although the cart keeps two entries.
   */
  lemma SplitQuantityCostsTheSame(p: Product, m: int, n: int)
    ensures Cost([CartItem(p, m), CartItem(p, n)]) == Cost([CartItem(p, m + n)])
  {
  }

  class ShoppingCart {
    var items: seq<CartItem>

    /** An empty cart. */
    constructor ()
      ensures items == []
    {
      items := [];
    }

    /** Appends one entry; nothing is merged and no product changes. */
    method Add(product: Product, qty: int := 1)
      modifies this
      ensures items == old(items) + [CartItem(product, qty)]
    {
      items := items + [CartItem(product, qty)];
    }

    /** The cost of the cart at the products' current prices. */
    method Total() returns (totalCost: real)
      ensures totalCost == Cost(items)
    {
      totalCost := 0.0;
      for i := 0 to |items|
        invariant totalCost == Cost(items[..i])
      {
        assert items[..i + 1][..i] == items[..i];
        totalCost := totalCost + items[i].product.price * items[i].quantity as real;
      }
      assert items[..|items|] == items;
    }
  }

  /** A single entry costs its price times its quantity. */
  lemma CostOfOne(p: Product, qty: int)
    ensures Cost([CartItem(p, qty)]) == p.price * qty as real
  {
  }

  /** Adding an entry raises the cost by exactly that entry's cost. */
  lemma AddRaisesCostByLine(items: seq<CartItem>, p: Product, qty: int)
    ensures Cost(items + [CartItem(p, qty)]) == Cost(items) + p.price * qty as real
  {
  }

  /** A new cart totals 0.0; two books at 25.0 total 50.0. */
  method SmallCartExamples() returns (empty: real, books: real)
    ensures empty == 0.0 && books == 50.0
  {
    var cart := new ShoppingCart();
    empty := cart.Total();
    var book := new Product.Book("Book", 25.0, "Author", "123");
    cart.Add(book, 2);
    books := cart.Total();
  }

  /** Two books at 30.0, a phone at 500.0 and three shirts at 20.0 total 620.0. */
  method MixedCartExample() returns (total: real)
    ensures total == 620.0
  {
    var cart := new ShoppingCart();
    var book := new Product.Book("Book", 30.0, "Author", "123");
    var phone := new Product.Electronics("Phone", 500.0);
    var shirt := new Product.Clothing("Shirt", 20.0, "L");
    cart.Add(book, 2);
    cart.Add(phone, 1);
    cart.Add(shirt, 3);
    CostOfOne(book, 2);
    AddRaisesCostByLine([CartItem(book, 2)], phone, 1);
    AddRaisesCostByLine([CartItem(book, 2), CartItem(phone, 1)], shirt, 3);
    assert cart.items == [CartItem(book, 2)] + [CartItem(phone, 1)] + [CartItem(shirt, 3)];
    assert [CartItem(book, 2)] + [CartItem(phone, 1)] == [CartItem(book, 2), CartItem(phone, 1)];
    assert ProductsOf(cart.items) == {book, phone, shirt};
    total := cart.Total();
  }

  /** A book at 100.0 less 20% and a tablet at 400.0 less 10% total 440.0. */
  method DiscountedCartExample() returns (total: real)
    ensures total == 440.0
  {
    var cart := new ShoppingCart();
    var book := new Product.Book("Book", 100.0, "Author", "123");
    book.ApplyDiscount(20.0);
    var tablet := new Product.Electronics("Tablet", 400.0);
    tablet.ApplyDiscount(10.0);
    assert book.price == 80.0 && tablet.price == 360.0;
    cart.Add(book, 1);
    cart.Add(tablet, 1);
    CostOfOne(book, 1);
    AddRaisesCostByLine([CartItem(book, 1)], tablet, 1);
    assert cart.items == [CartItem(book, 1)] + [CartItem(tablet, 1)];
    assert Cost(cart.items) == 440.0;
    assert ProductsOf(cart.items) == {book, tablet};
    total := cart.Total();
  }

  /**
   * The cart holds the product itself: a discount applied after the product
   * was added shows in the next total, with no change to the entries.
   */
  method DiscountAfterAdding() returns (before: real, after: real, sameEntries: bool)
    ensures before == 100.0 && after == 80.0 && sameEntries
  {
    var cart := new ShoppingCart();
    var book := new Product.Book("Book", 100.0, "Author", "123");
    cart.Add(book);
    var entries := cart.items;
    before := cart.Total();
    book.ApplyDiscount(20.0);
    after := cart.Total();
    sameEntries := cart.items == entries;
  }
}
