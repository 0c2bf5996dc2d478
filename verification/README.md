# Shopping cart model

A Dafny model of the in-memory shopping cart in `shopping.py`: products with a
mutable stock counter, a per-user cart mapping product ids to quantities, the
checkout that snapshots the cart into an order, and the shop registries that
hold products and users under their ids.

- `shopping.dfy`, module `Shopping`: the classes `Product`, `ShoppingCart`,
  `User`, `Order` and `Shop`, and the specification of a cart's contents and
  value.
  - `Product` keeps `id`, `name` and `price` as constants (the program never
    reassigns them) and `stock` as a mutable field.
  - `ShoppingCart.items` is a `map<string, int>` that `AddItem` and
    `Checkout` reassign.
  - The human-readable messages of `add_item` become the `AddResult` values
    `Added(quantity, name)` and `NotEnoughStock(name)`.
  - `CartTotal` is the value of a cart: a recursive sum over the map,
    independent of iteration order. `CartTotalPick` proves that any entry may
    be taken first.
  - `ViewCart` walks the cart one entry at a time in a loop. It is proved to
    return `CartTotal` and exactly one line per entry. Its ghost result
    `order` is the order in which it visited the entries, which the model
    leaves unspecified (see "Left out").
- `demo.dfy`, module `ShoppingDemo`: the start-up seeding (three products,
  one user) and concrete sessions that add to the cart, view it and check out,
  with their exact results proved.

Ids, which the program draws from a random UUID generator, are parameters
supplied by the caller. The shop requires a new id to be absent from its
registry.

## Model

| member | source | states |
|---|---|---|
| `Shopping.Product.constructor` | shopping.py:11-16 | the new product has the given name, price and stock under the given id |
| `Shopping.AddedTo` | shopping.py:32 | the cart's quantity for the product becomes its old value (0 if absent) plus the quantity added; every other entry is unchanged; no other key appears |
| `Shopping.ShoppingCart.AddItem` | shopping.py:29-34 | when stock < quantity: the result is NotEnoughStock, and cart and stock are unchanged. Otherwise: the result is Added; the cart becomes AddedTo(old cart); stock drops by exactly the quantity and is not negative. In both cases stock plus the cart's quantity of the product is conserved |
| `Shopping.CartTotalPick` | shopping.py:36-49 | the cart's total is the same whichever entry is summed first, so it does not depend on the dictionary's iteration order |
| `Shopping.CartTotalEmpty` | shopping.py:37-38 | an empty cart is worth 0 |
| `Shopping.CartTotalAddedTo` | shopping.py:29-49 | putting q more units of a registered product in the cart raises the total by exactly q times its price |
| `Shopping.CartTotalNonNegative` | shopping.py:39-48 | a cart of non-negative quantities of non-negatively priced products has a non-negative total |
| `Shopping.ShoppingCart.ViewCart` | shopping.py:36-49 | if every cart id is in the registry: the total is the sum of quantity × price over the cart; the total equals the sum of the line costs; there is exactly one line per cart entry, each with the product's name, quantity, price and cost; the cart is left unchanged |
| `Shopping.ShoppingCart.Checkout` | shopping.py:51-55 | the order holds a copy of the pre-checkout items, their view total, the cart's user and status "Placed"; an empty cart gives total 0 and no items; the cart is empty afterwards |
| `Shopping.ShoppingCart.constructor` | shopping.py:25-27 | a new cart is empty and belongs to the given user |
| `Shopping.User.constructor` | shopping.py:19-22 | a new user has the given id and name and a fresh empty cart whose user is this user |
| `Shopping.Order.constructor` | shopping.py:58-63 | the order stores the given id, user, items and total, with status "Placed" |
| `Shopping.Shop.constructor` | shopping.py:76-78 | a new shop has empty product and user registries |
| `Shopping.Shop.AddProduct` | shopping.py:80-83 | the product registry gains exactly one entry, under the new product's id, with the given name, price and stock; the user registry is unchanged; every entry stays under its own id |
| `Shopping.Shop.RegisterUser` | shopping.py:85-88 | the user registry gains exactly one entry, under the new user's id, whose cart is empty; the product registry is unchanged; every entry stays under its own id |
| `ShoppingDemo.Seed` | shopping.py:94-98 | the seeded shop holds the three products with their names, prices and stocks, and one user with an empty cart |
| `ShoppingDemo.SeededSession` | shopping.py:108-121 | after the add route both additions succeed and the stocks are 9, 4 and 20; the cart view has exactly the two lines (iPhone 14, 1, 70000, 70000) and (Samsung TV, 1, 45000, 45000) and a total of 115000; the order bills 115000 for one unit of each of the first two products |
| `ShoppingDemo.RouteVisits` | shopping.py:108-121 | on the three seeded products and an empty cart: the add, cart and checkout routes give the same results as SeededSession |
| `ShoppingDemo.AddRoute` | shopping.py:108-112 | one unit of each of two products is offered to the cart; each addition succeeds exactly when that product has stock left, and then moves one unit from its stock into the cart |
| `ShoppingDemo.CartAndCheckout` | shopping.py:114-121 | on a cart holding one unit each of the first two seeded products: the view lists both lines and totals 115000; the order holds those items and that total |
| `ShoppingDemo.TwoLines` | shopping.py:39-48 | a view of a two-entry cart holds exactly the lines of those two entries, in one order or the other |
| `ShoppingDemo.ZeroQuantitySession` | shopping.py:29-34 | adding 0 units of a product with stock 0 succeeds and puts its id in the cart with quantity 0; a product with stock -1 refuses even 0 units |
| `ShoppingDemo.ShortageSession` | shopping.py:29-55 | a product with price 100 and stock 5: adding 2 succeeds and leaves stock 3; adding 10 is refused; checkout bills 200 and empties the cart; a later add does not reach the placed order |
| `ShoppingDemo.ShortageSteps` | shopping.py:29-55 | the steps of ShortageSession on a product and an empty cart, with the same results |

## Left out

- The Flask application and its routes (`shopping.py:1-5, 104-129`): HTTP plumbing and JSON serialisation. `SeededSession` replays what the add, cart and checkout routes do to the shop.
- UUID generation (`shopping.py:13, 20, 59`): ids are parameters. `Shop.AddProduct` and `Shop.RegisterUser` require the new id to be absent from the registry; random UUIDs make a collision practically impossible.
- The clock and `Order.to_dict` (`shopping.py:64-73`): the creation timestamp and the serialised order are not modelled.
- The message texts of `add_item` (`shopping.py:31, 34`): `AddResult` carries the quantity and product name that the messages interpolate, not the formatted strings.
- A cart id missing from the registry makes the program's `view_cart` and `checkout` fail with a lookup error. The model makes "every cart id is in the registry" a precondition of `ViewCart` and `Checkout` instead of modelling the crash.
- Concurrent requests: the program has no locking, and the model is sequential.
- `ShoppingCart.user` is a nullable reference (`User?`). A `User`'s constructor must build its cart before the user object exists, so the cart's back-reference is set right after. `User.constructor` ensures it points back to the user.
- Quantities and stocks are not validated by the program, and the model keeps that behaviour. A quantity passes the stock guard whenever the stock is at least that quantity. In particular a zero or negative quantity passes when the stock is non-negative. Then it leaves the cart's quantity for the product unchanged or lowers it (possibly below zero), and it leaves the stock unchanged or raises it. Adding 0 units puts the product's id in the cart with quantity 0, so the cart view shows a line with quantity 0. A product registered with a negative stock refuses even 0 units. `ZeroQuantitySession` shows both cases. So the cart's quantities are not always positive.
- ShoppingCart.ViewCart: the cart is a `map`, which has no insertion order, so the model lists the lines in an unspecified order (one per entry). The program lists them in the order the products were first added, because Python dictionaries keep insertion order. The total does not depend on the order (`CartTotalPick`).
