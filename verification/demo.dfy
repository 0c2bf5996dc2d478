/**
 Concrete sessions against a freshly seeded shop: what the demo's start-up
 data and its add, cart and checkout routes produce, given the ids the shop
 would draw at random.
 */
module ShoppingDemo {
  import opened Shopping


  /** The shop as the demo seeds it at start-up: three products and one user. */
  method Seed(id1: string, id2: string, id3: string, userId: string)
    returns (shop: Shop, p1: Product, p2: Product, p3: Product, user: User)
    requires id1 != id2 && id1 != id3 && id2 != id3
    ensures fresh(shop) && fresh(p1) && fresh(p2) && fresh(p3) && fresh(user) && fresh(user.cart)
    ensures p1.id == id1 && p2.id == id2 && p3.id == id3
    ensures shop.Valid() && shop.products == map[id1 := p1, id2 := p2, id3 := p3]
    ensures shop.users == map[userId := user] && user.username == "sundar_123"
    ensures p1.name == "iPhone 14" && p1.price == 70000 && p1.stock == 10
    ensures p2.name == "Samsung TV" && p2.price == 45000 && p2.stock == 5
    ensures p3.name == "Sony Headphones" && p3.price == 3000 && p3.stock == 20
    ensures user.cart.items == map[] && user.cart.user == user
  {
    shop := new Shop();
    p1 := shop.AddProduct(id1, "iPhone 14", 70000, 10);
    p2 := shop.AddProduct(id2, "Samsung TV", 45000, 5);
    p3 := shop.AddProduct(id3, "Sony Headphones", 3000, 20);
    user := shop.RegisterUser(userId, "sundar_123");
  }

  /**
   The seeded shop, then one visit to each of the add, cart and checkout
   routes: one unit each of the first two products, the cart view, and the
   order.
   */
  method SeededSession(id1: string, id2: string, id3: string, userId: string, orderId: string)
    returns (added: seq<AddResult>, stocks: seq<int>, lines: seq<LineItem>, total: int, order: Order)
    requires id1 != id2 && id1 != id3 && id2 != id3
    ensures added == [Added(1, "iPhone 14"), Added(1, "Samsung TV")]
    ensures stocks == [9, 4, 20]
    ensures |lines| == 2 && total == 115000
    ensures multiset(lines) == multiset{LineItem("iPhone 14", 1, 70000, 70000), LineItem("Samsung TV", 1, 45000, 45000)}
    ensures order.items == map[id1 := 1, id2 := 1]
    ensures order.totalAmount == 115000 && order.status == Placed
  {
    var shop, p1, p2, p3, user := Seed(id1, id2, id3, userId);
    added, stocks, lines, total, order := RouteVisits(user.cart, p1, p2, p3, shop.products, orderId);
  }

  /** The add, cart and checkout routes, in turn, on the seeded products and an empty cart. */
  method RouteVisits(cart: ShoppingCart, p1: Product, p2: Product, p3: Product, db: map<string, Product>, orderId: string)
    returns (added: seq<AddResult>, stocks: seq<int>, lines: seq<LineItem>, total: int, order: Order)
    requires p1.id != p2.id && p1.id != p3.id && p2.id != p3.id
    requires p1.name == "iPhone 14" && p1.price == 70000 && p1.stock == 10
    requires p2.name == "Samsung TV" && p2.price == 45000 && p2.stock == 5
    requires p3.stock == 20
    requires cart.items == map[] && db == map[p1.id := p1, p2.id := p2, p3.id := p3]
    modifies cart`items, p1`stock, p2`stock
    ensures added == [Added(1, "iPhone 14"), Added(1, "Samsung TV")]
    ensures stocks == [9, 4, 20]
    ensures |lines| == 2 && total == 115000
    ensures multiset(lines) == multiset{LineItem("iPhone 14", 1, 70000, 70000), LineItem("Samsung TV", 1, 45000, 45000)}
    ensures order.items == map[p1.id := 1, p2.id := 1]
    ensures order.totalAmount == 115000 && order.status == Placed
  {
    added := AddRoute(cart, p1, p2);
    stocks := [p1.stock, p2.stock, p3.stock];
    lines, total, order := CartAndCheckout(cart, p1, p2, db, orderId);
  }

  /** The add route: one unit of each of two distinct products into the cart. */
  method AddRoute(cart: ShoppingCart, p1: Product, p2: Product) returns (added: seq<AddResult>)
    requires p1.id != p2.id
    modifies cart`items, p1`stock, p2`stock
    ensures |added| == 2
    ensures added[0] == (if old(p1.stock) < 1 then NotEnoughStock(p1.name) else Added(1, p1.name))
    ensures added[1] == (if old(p2.stock) < 1 then NotEnoughStock(p2.name) else Added(1, p2.name))
    ensures p1.stock == if added[0].Added? then old(p1.stock) - 1 else old(p1.stock)
    ensures p2.stock == if added[1].Added? then old(p2.stock) - 1 else old(p2.stock)
    ensures cart.items ==
              var afterFirst := if added[0].Added? then AddedTo(old(cart.items), p1.id, 1) else old(cart.items);
              if added[1].Added? then AddedTo(afterFirst, p2.id, 1) else afterFirst
  {
    var r1 := cart.AddItem(p1, 1);
    var r2 := cart.AddItem(p2, 1);
    added := [r1, r2];
  }

  /** The cart and checkout routes on a cart holding one unit of each of the first two seeded products. */
  method CartAndCheckout(cart: ShoppingCart, p1: Product, p2: Product, db: map<string, Product>, orderId: string)
    returns (lines: seq<LineItem>, total: int, order: Order)
    requires p1.id != p2.id && p1.id in db && p2.id in db && db[p1.id] == p1 && db[p2.id] == p2
    requires p1.name == "iPhone 14" && p1.price == 70000
    requires p2.name == "Samsung TV" && p2.price == 45000
    requires cart.items == map[p1.id := 1, p2.id := 1]
    modifies cart`items
    ensures |lines| == 2 && total == 115000
    ensures multiset(lines) == multiset{LineItem("iPhone 14", 1, 70000, 70000), LineItem("Samsung TV", 1, 45000, 45000)}
    ensures order.items == map[p1.id := 1, p2.id := 1]
    ensures order.totalAmount == 115000 && order.status == Placed
  {
    ghost var one := AddedTo(map[], p1.id, 1);
    CartTotalEmpty(db);
    CartTotalAddedTo(map[], db, p1.id, 1);
    CartTotalAddedTo(one, db, p2.id, 1);
    assert cart.items == AddedTo(one, p2.id, 1);
    assert CartTotal(cart.items, db) == 115000;
    ghost var visited;
    lines, total, visited := cart.ViewCart(db);
    TwoLines(cart.items, db, visited, lines, p1.id, p2.id);
    order := cart.Checkout(orderId, db);
  }

  /** A view of a two-entry cart holds the two entries' lines, in one order or the other. */
  lemma TwoLines(items: map<string, int>, db: map<string, Product>, order: seq<string>, lines: seq<LineItem>,
                 a: string, b: string)
    requires items.Keys <= db.Keys && items.Keys == {a, b} && a != b
    requires |order| == |lines| == 2 && order[0] != order[1]
    requires forall i :: 0 <= i < |order| ==>
               order[i] in items && lines[i] == LineFor(items[order[i]], db[order[i]])
    ensures multiset(lines) == multiset{LineFor(items[a], db[a]), LineFor(items[b], db[b])}
  {
    assert lines == [lines[0], lines[1]];
    if order[0] == a {
      assert order[1] == b;
    } else {
      assert order[0] == b && order[1] == a;
    }
  }

  /**
   One product (price 100, stock 5): adding 2 succeeds, adding 10 more is
   refused and leaves the stock alone, and the checkout bills the 2 units.
   Adding to the emptied cart afterwards does not reach the placed order.
   */
  method ShortageSession(productId: string, userId: string, orderId: string)
    returns (first: AddResult, second: AddResult, stockLeft: int, order: Order, cartAfter: map<string, int>,
             third: AddResult, cartLater: map<string, int>)
    ensures first == Added(2, "A") && second == NotEnoughStock("A")
    ensures stockLeft == 3
    ensures order.items == map[productId := 2] && order.totalAmount == 200
    ensures cartAfter == map[]
    ensures third == Added(1, "A") && cartLater == map[productId := 1]
  {
    var shop := new Shop();
    var a := shop.AddProduct(productId, "A", 100, 5);
    var user := shop.RegisterUser(userId, "shopper");
    first, second, stockLeft, order, cartAfter, third, cartLater :=
      ShortageSteps(a, user.cart, shop.products, orderId);
  }

  /** The steps of ShortageSession, on a product and an empty cart. */
  method ShortageSteps(a: Product, cart: ShoppingCart, db: map<string, Product>, orderId: string)
    returns (first: AddResult, second: AddResult, stockLeft: int, order: Order, cartAfter: map<string, int>,
             third: AddResult, cartLater: map<string, int>)
    requires a.name == "A" && a.price == 100 && a.stock == 5
    requires cart.items == map[] && db == map[a.id := a]
    modifies cart`items, a`stock
    ensures first == Added(2, "A") && second == NotEnoughStock("A")
    ensures stockLeft == 3
    ensures order.items == map[a.id := 2] && order.totalAmount == 200
    ensures cartAfter == map[]
    ensures third == Added(1, "A") && cartLater == map[a.id := 1]
  {
    first := cart.AddItem(a, 2);
    second := cart.AddItem(a, 10);
    stockLeft := a.stock;
    CartTotalAddedTo(map[], db, a.id, 2);
    order := cart.Checkout(orderId, db);
    cartAfter := cart.items;
    third := cart.AddItem(a, 1);
    cartLater := cart.items;
  }

  /**
   Quantities are not validated: adding 0 units of a product whose stock is 0
   puts its id in the cart with quantity 0, while a product whose stock is
   negative refuses even 0 units.
   */
  method ZeroQuantitySession(pid: string, otherId: string) returns (zero: AddResult, items: map<string, int>, refused: AddResult)
    ensures zero == Added(0, "x") && items == map[pid := 0]
    ensures refused == NotEnoughStock("y")
  {
    var p := new Product(pid, "x", 1, 0);
    var cart := new ShoppingCart(null);
    zero := cart.AddItem(p, 0);
    items := cart.items;
    var q := new Product(otherId, "y", 1, -1);
    refused := cart.AddItem(q, 0);
  }
}
