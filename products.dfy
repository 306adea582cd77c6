/**
 * The products of the shop. Book, Electronics and Clothing share a name,
 * a price that discounts lower in place, and one discount rule; each adds
 * its own details, which never change.
 */
module Products {

  /** What each kind of product adds to the name and price. */
  datatype Details =
    | BookDetails(author: string, isbn: string)
    | ElectronicsDetails(warrantyYears: int)
    | ClothingDetails(size: string)

  /** The warranty an Electronics product gets when none is given. */
  const DefaultWarrantyYears := 1

  /**
   * The price after taking `percent` percent off `price`. No bound on
   * `percent` is enforced: outside 0..100 the price rises or turns negative.
   */
  function Discounted(price: real, percent: real): (r: real)
    ensures r == price * (1.0 - percent / 100.0)
    ensures 0.0 <= price && 0.0 <= percent <= 100.0 ==> 0.0 <= r <= price
  {
    price - price * (percent / 100.0)
  }

  /**
   * A product. There is no constructor without a kind: the abstract
   * product cannot be built, only a Book, an Electronics or a Clothing.
   */
  class Product {
    const name: string
    var price: real
    const details: Details

    constructor Book(name: string, price: real, author: string, isbn: string)
      ensures this.name == name && this.price == price
      ensures details == BookDetails(author, isbn)
    {
      this.name := name;
      this.price := price;
      this.details := BookDetails(author, isbn);
    }

    constructor Electronics(name: string, price: real, warrantyYears: int := DefaultWarrantyYears)
      ensures this.name == name && this.price == price
      ensures details == ElectronicsDetails(warrantyYears)
    {
      this.name := name;
      this.price := price;
      this.details := ElectronicsDetails(warrantyYears);
    }

    constructor Clothing(name: string, price: real, size: string)
      ensures this.name == name && this.price == price
      ensures details == ClothingDetails(size)
    {
      this.name := name;
      this.price := price;
      this.details := ClothingDetails(size);
    }

    /** Takes `percent` percent off the current price; nothing else changes. */
    method ApplyDiscount(percent: real)
      modifies this`price
      ensures price == Discounted(old(price), percent)
    {
      var discountAmount := price * (percent / 100.0);
      price := price - discountAmount;
    }
  }

  /** A 0% discount leaves the price as it was. */
  lemma ZeroDiscount(price: real)
    ensures Discounted(price, 0.0) == price
  {
  }

  /**
   * Successive discounts multiply: `a` percent then `b` percent is the same
   * as `b` then `a`, and is one discount of `a + b - a * b / 100` percent,
   * not of `a + b`.
   */
  lemma DiscountsCompose(price: real, a: real, b: real)
    ensures Discounted(Discounted(price, a), b) == Discounted(Discounted(price, b), a)
    ensures Discounted(Discounted(price, a), b) == Discounted(price, a + b - a * b / 100.0)
  {
  }

  /** A larger discount never gives a higher price (for a non-negative price). */
  lemma DiscountMonotonic(price: real, a: real, b: real)
    requires 0.0 <= price && a <= b
    ensures Discounted(price, b) <= Discounted(price, a)
  {
  }

  /** The discount is linear in the price. */
  lemma DiscountLinear(p: real, q: real, percent: real)
    ensures Discounted(p + q, percent) == Discounted(p, percent) + Discounted(q, percent)
  {
  }

  /** Builds each kind of product and applies the tests' discounts. */
  method DiscountExamples() returns (book: real, twice: real, tablet: real, jacket: real, shoes: real, device: real)
    ensures book == 80.0 && twice == 81.0 && tablet == 425.0
    ensures jacket == 112.5 && shoes == 30.0 && device == 99.5
  {
    var b := new Product.Book("OOP Mastery", 100.0, "Jane Smith", "978-9876543210");
    b.ApplyDiscount(20.0);
    book := b.price;
    var m := new Product.Book("Multi-Discount Book", 100.0, "Author", "123");
    m.ApplyDiscount(10.0);
    assert m.price == 90.0;
    m.ApplyDiscount(10.0);
    twice := m.price;
    var t := new Product.Electronics("Tablet", 500.0, 2);
    t.ApplyDiscount(15.0);
    tablet := t.price;
    assert t.details.warrantyYears == 2;
    var j := new Product.Clothing("Winter Jacket", 150.0, "L");
    j.ApplyDiscount(25.0);
    jacket := j.price;
    var s := new Product.Clothing("Running Shoes", 100.0, "10");
    s.ApplyDiscount(70.0);
    shoes := s.price;
    var d := new Product.Electronics("Device", 100.0);
    assert d.details.warrantyYears == 1;
    d.ApplyDiscount(0.5);
    device := d.price;
  }
}
