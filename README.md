# oop-advanced in Dafny

This is a Dafny model of the object-oriented teaching examples in `oop-advanced`. It covers four groups of classes:

- **Animals.** An animal hierarchy (`Animal`, `Dog`, `Cat`, `Bird`) whose actions are guarded by sleep and energy.
- **Shop.** A small e-commerce model: products (`Book`, `Electronics`, `Clothing`) whose `apply_discount` rewrites the price in place, and a `ShoppingCart` that keeps references to the products and sums their current prices.
- **Payments.** Two payment validators (`CreditCardPayment`, `PayPalPayment`) in the exercise version and in the one-line example version.
- **Shapes.** Three shapes (`Circle`, `Rectangle`, `Triangle`) with area and perimeter.

The modules are:

- `Options` (options.dfy): the `Option` and `Result` types shared by the others.
- `Animals` (animals.dfy): each animal is a class. `Animal` holds the shared state (`isSleeping`, `energy`). `Dog`, `Cat` and `Bird` each hold the `Animal` that their parent constructor builds, plus their own state (`tricks`, `isPurring`, `isFlying`, `altitude`).
  - Every action is a method that modifies only the fields the program changes. It returns an `Outcome` tag in place of the message text.
  - The new energy is specified by the pure functions `Fed` and `Exerted`, and the new trick list by `Learned`.
  - Each class has a `Valid()` invariant, and every action preserves it:
    - energy stays within 0..100;
    - a dog knows no trick twice;
    - a bird on the ground is at altitude 0.
- `Products` (products.dfy): a single `Product` class with three named constructors, one per product kind.
  - Each kind's own fields live in a `Details` value.
  - There is no constructor without a kind, so the abstract `Product` cannot be built.
  - The three `apply_discount` overrides share one body, so they are modelled by one `ApplyDiscount`, specified by the function `Discounted`.
- `Cart` (cart.dfy): `ShoppingCart` holds a sequence of `(product, quantity)` entries that refer to `Product` objects.
  - `Total` is the loop of the program. It is proved equal to `Cost`, the recursive sum at the products' current prices.
  - A discount applied after adding therefore shows in the next total.
  - `Total` has no `modifies` clause, so it changes neither the cart nor any product.
- `Payments` and `PaymentExamples` (payments.dfy): the exercise validators and the example validators, as value types with a `ProcessPayment` predicate.
- `Shapes` (shapes.dfy): one datatype with a variant per shape. `Perimeter` returns a `Result`, and a triangle without both optional sides gives `Err(NotImplemented)`.

Floating-point numbers are modelled as exact reals. Python's `math.pi` is the literal 3.141592653589793.

## Model

| member | source | states |
|---|---|---|
| Animals.Fed | inheritance.py:46 | a meal adds 20 energy but never exceeds 100, and never lowers energy that is at most 100 |
| Animals.Exerted | inheritance.py:147-153 | a guarded action leaves energy untouched when asleep or below its threshold; otherwise it subtracts exactly its cost; with cost ≤ threshold, energy stays within 0..100 |
| Animals.Learned | inheritance.py:166-169 | learning keeps the old list as a prefix, adds the trick at the end only if absent, grows by at most one, and keeps the list free of duplicates |
| Animals.Animal.constructor | inheritance.py:20-34 | stores name, species and age; a new animal is awake with energy 100 |
| Animals.Animal.Eat | inheritance.py:36-47 | energy becomes min(100, energy + 20), asleep or not; nothing else changes; the energy invariant is kept |
| Animals.Animal.Sleep | inheritance.py:49-61 | a sleeping animal is left as it is; otherwise it falls asleep with energy exactly 100 |
| Animals.Animal.WakeUp | inheritance.py:63-74 | an awake animal is left as it is; otherwise only the sleeping flag is cleared, and energy is untouched |
| Animals.Dog.constructor | inheritance.py:110-126 | a dog is a fresh animal of species "Dog", untrained, with no tricks |
| Animals.Dog.Fetch | inheritance.py:137-154 | asleep: refused; energy below 20: refused; otherwise energy drops by exactly 15; energy stays in 0..100 |
| Animals.Dog.LearnTrick | inheritance.py:156-170 | the tricks become `Learned(old tricks, trick)`, whether or not the dog sleeps; the no-duplicates invariant is kept |
| Animals.Dog.PerformTrick | inheritance.py:172-188 | changes nothing; an unknown trick is reported before sleep; it succeeds exactly when the trick is known and the dog is awake |
| Animals.Cat.constructor | inheritance.py:213-228 | a cat is a fresh animal of species "Cat" with 9 lives, not purring |
| Animals.Cat.Purr | inheritance.py:239-251 | an awake cat starts purring; a sleeping cat's purring flag is untouched |
| Animals.Cat.ClimbTree | inheritance.py:253-267 | asleep: refused; energy below 30: refused; otherwise energy drops by exactly 20; energy stays in 0..100 |
| Animals.Cat.KnockOverObject | inheritance.py:269-282 | changes nothing; succeeds exactly when the cat is awake |
| Animals.Bird.constructor | inheritance.py:304-317 | a bird is a fresh animal of species "Bird", on the ground at altitude 0 |
| Animals.Bird.Fly | inheritance.py:328-348 | asleep or energy below 25: nothing changes; otherwise the bird flies at the given height and energy drops by exactly 20; both invariants are kept |
| Animals.Bird.Land | inheritance.py:350-363 | a grounded bird is left as it is; a flying bird lands at altitude 0; "not flying implies altitude 0" is kept |
| Animals.DogExamples | inheritance.py:36-188 | a full-energy fetch leaves 85 and a meal then caps energy at 100 (not 105); a trick is learned once; an unknown trick is reported; a sleeping dog does not fetch |
| Animals.CatExamples | inheritance.py:253-267 | from full energy a cat climbs four times (80, 60, 40, 20), and the fifth climb is refused as too tired |
| Animals.BirdExamples | inheritance.py:338-363 | a bird flies to 50 feet, lands at 0, and a second landing reports it is already grounded |
| Products.Discounted | exercises/ecommerce/book.py:41-43 | the discounted price is price·(1 − percent/100); for price ≥ 0 and percent in 0..100 it lies between 0 and the old price |
| Products.Product.Book | exercises/ecommerce/book.py:11-26 | stores name, price, author and isbn unchanged |
| Products.Product.Electronics | exercises/ecommerce/electronics.py:11-24 | stores name, price and warranty years, which default to 1 |
| Products.Product.Clothing | exercises/ecommerce/clothing.py:11-24 | stores name, price and any size string |
| Products.Product.ApplyDiscount | exercises/ecommerce/electronics.py:26-41 | the price becomes `Discounted(old price, percent)`; only the price changes |
| Products.ZeroDiscount | tests/test_exercises_ecommerce_complete.py:162-166 | a 0% discount leaves the price unchanged |
| Products.DiscountsCompose | tests/test_exercises_ecommerce_complete.py:50-56 | two discounts commute and compose multiplicatively: a then b equals a single discount of a + b − a·b/100, not a + b |
| Products.DiscountMonotonic | exercises/ecommerce/product.py:22-33 | for a non-negative price, a larger percent never gives a higher price |
| Products.DiscountLinear | exercises/ecommerce/book.py:42-43 | discounting a sum of prices equals the sum of the discounted prices |
| Products.DiscountExamples | tests/test_exercises_ecommerce_complete.py:38-172 | 100 at 20% is 80, 10% twice gives 81, 500 at 15% is 425, 150 at 25% is 112.5, 100 at 70% is 30, 100 at 0.5% is 99.5 |
| Cart.CostAppend | exercises/ecommerce/cart.py:51-57 | the cost of two entry lists one after the other is the sum of their costs |
| Cart.SplitQuantityCostsTheSame | exercises/ecommerce/cart.py:31-36 | adding a product twice keeps two entries but costs the same as one entry with the summed quantity |
| Cart.CostOfOne | exercises/ecommerce/cart.py:54-55 | a single entry costs its product's current price times its quantity |
| Cart.AddRaisesCostByLine | exercises/ecommerce/cart.py:36 | appending an entry raises the cost by exactly price × quantity |
| Cart.ShoppingCart.constructor | exercises/ecommerce/cart.py:13-21 | a new cart has no entries |
| Cart.ShoppingCart.Add | exercises/ecommerce/cart.py:23-36 | appends exactly one (product, qty) entry at the end (qty defaults to 1), keeps earlier entries and merges nothing |
| Cart.ShoppingCart.Total | exercises/ecommerce/cart.py:38-57 | returns the sum over the entries of current price × quantity, and changes neither the cart nor any product |
| Cart.SmallCartExamples | tests/test_exercises_cart_payment.py:54-64 | an empty cart totals 0.0; two books at 25.0 total 50.0 |
| Cart.MixedCartExample | tests/test_exercises_cart_payment.py:66-78 | 2 × 30 + 1 × 500 + 3 × 20 totals 620 |
| Cart.DiscountedCartExample | tests/test_exercises_cart_payment.py:80-92 | products discounted before adding total 80 + 360 = 440 |
| Cart.DiscountAfterAdding | exercises/ecommerce/cart.py:54-55 | a discount applied after adding shows in the next total, with the entries unchanged |
| Payments.CreditCardPayment.ProcessPayment | exercises/ecommerce/credit_card.py:41-50 | accepted exactly when the amount is positive |
| Payments.PayPalPayment.ProcessPayment | exercises/ecommerce/paypal.py:45-54 | accepted exactly when the amount is positive and the email contains '@' |
| Payments.PayPalNeedsAt | tests/test_exercises_cart_payment.py:158-162 | an email without '@' is refused for every amount |
| Payments.NonPositiveAmountRefused | tests/test_exercises_cart_payment.py:114-124 | a zero or negative amount is refused by both processors |
| Payments.ProcessorsAgreeOnValidEmail | exercises/ecommerce/paypal.py:45 | with an '@' in the email, PayPal and card accept the same amounts |
| Payments.PaymentExamples | tests/test_exercises_cart_payment.py:108-174 | the worked cases of the payment tests (0.01 and 9999.99 accepted; 0 and negative refused; an email without '@' refused) |
| PaymentExamples.CreditCardPayment.ProcessPayment | examples/payments/credit_card.py:7-8 | the one-line version accepts exactly the amounts the exercise version accepts |
| PaymentExamples.PayPalPayment.ProcessPayment | examples/payments/paypal.py:7-8 | the one-line version agrees with the exercise version on every amount and email |
| PaymentExamples.ExampleProcess | tests/test_examples_payments.py:7-9 | a card accepts 10.0; PayPal with 'test@example.com' accepts 5.0 and refuses -1.0 |
| Shapes.Shape.Perimeter | exercises/shapes/triangle.py:40-56 | fails with NotImplemented exactly for a triangle missing a side; a defined perimeter is positive when the documented lengths and the given sides are positive |
| Shapes.Shape.Area | exercises/shapes/circle.py:19-28 | the area is π·r² (circle.py:28), w·h (rectangle.py:29) or ½·b·h (triangle.py:38); it is defined for every shape whatever the triangle's optional sides, and twice a triangle's area is its base times its height |
| Shapes.AreaPositive | exercises/shapes/triangle.py:14-38 | when the lengths the area uses are positive (radius; width and height; base and height — the documented precondition), the area is positive, whatever the triangle's optional sides |
| Shapes.CircleAreaFromPerimeter | exercises/shapes/circle.py:30-39 | twice the circle's area equals its perimeter times its radius |
| Shapes.SquareFormulas | tests/test_exercises_shapes_complete.py:68-72 | a square of side s has area s ** 2 and perimeter 4s |
| Shapes.TriangleAreaIgnoresSides | exercises/shapes/triangle.py:38 | the optional sides never change a triangle's area |
| Shapes.ShapeExamples | tests/test_exercises_shapes_complete.py:20-110 | the worked cases of the shape tests: circle r = 1, rectangles 6×8, 3×7 and 5×5, triangles 10×12, (3,4,4,5) and (5,12,13,13), and a triangle without sides |

## Left out

- Message text: every action returns a formatted string in the program. The model returns an `Outcome` tag that tells which branch was taken. `make_sound`, `get_info`, `__str__` and `describe` only build strings and are not modelled.
- The `demonstrate_inheritance` demo and the `__main__` block only print to the console.
- IEEE-754 rounding: prices, amounts, percents and lengths are exact reals.
- `math.pi` is the literal 3.141592653589793. It is not the real number π.
- Inheritance and `abc`: Dafny classes here do not inherit.
  - Dog, Cat and Bird hold their `Animal` part as a field.
  - The three product kinds are one class with a `Details` value.
  - The shapes are variants of one datatype.
  - The payment processors are two unrelated types.
  - So `isinstance` checks, and calling an overridden method through the base type, are not modelled.
- The abstract `Product` raises on direct construction at run time. Here it simply has no constructor without a kind.
- `exercises/shapes/shape.py` (the base `Shape`, whose methods only raise `NotImplementedError`) is covered by the datatype and not modelled on its own.
- The `Payment` base modules and the `examples/animals` package are not part of this model.
- Products.Product.ApplyDiscount: models the `Book`, `Electronics` and `Clothing` overrides as one method, because their bodies are identical. It does not validate the percent, and neither does the program.
- Animals.Dog.Fetch, Animals.Cat.ClimbTree, Animals.Bird.Fly, Animals.Animal.Eat: the energy invariant is stated as "kept when it held before". Energy can leave the range only if a caller assigns the field directly, which no operation of the program does.
- Shapes.AreaPositive: needs the radius, the width and height, or the base and height positive, which is the documented precondition. The program itself accepts any number.
- Shapes.Shape.Perimeter: its positivity also assumes that any optional triangle side that is given is positive. The program documents no condition on the sides.
- List aliasing: a dog's `tricks` and a cart's `items` are Python lists that callers can read and change in place. The model holds them as sequence values, so changes made through another reference to the same list are not modelled.
- Animals.Cat.constructor: `lives_remaining` and the dog's `is_trained` are set once and never changed by any operation, so they are constants here.
