/**
 The in-memory shopping cart: products with a stock counter, a cart that
 moves units out of stock, a checkout that snapshots the cart into an order,
 and a shop that registers products and users under caller-supplied ids.
 */
module Shopping {

  /** Outcome of adding to the cart: the two messages `add_item` can return. */
  datatype AddResult =
    | Added(quantity: int, productName: string)
    | NotEnoughStock(productName: string)

  /** One line of the cart view: product name, quantity, unit price and cost. */
  datatype LineItem = LineItem(product: string, quantity: int, price: int, cost: int)

  /** The status every order is created with; no other status exists. */
  const Placed: string := "Placed"

  class Product {
    const id: string
    const name: string
    const price: int
    var stock: int

    constructor (id: string, name: string, price: int, stock: int)
      ensures this.id == id && this.name == name && this.price == price
      ensures this.stock == stock
    {
      this.id := id;
      this.name := name;
      this.price := price;
      this.stock := stock;
    }
  }

  // ---------------------------------------------------------------------------
  // Specification of the cart's contents and value
  // ---------------------------------------------------------------------------

  /** The quantity the cart holds of `pid`, 0 when it holds none. */
  function QuantityOf(items: map<string, int>, pid: string): int
  {
    if pid in items then items[pid] else 0
  }

  /** The cart after `quantity` more units of `pid` were put in it. */
  function AddedTo(items: map<string, int>, pid: string, quantity: int): (r: map<string, int>)
    ensures r.Keys == items.Keys + {pid}
    ensures QuantityOf(r, pid) == QuantityOf(items, pid) + quantity
    ensures forall other :: other in items && other != pid ==> r[other] == items[other]
  {
    items[pid := QuantityOf(items, pid) + quantity]
  }

  /** The cost of one cart entry: its quantity times the product's price. */
  function LineCost(qty: int, p: Product): int
  {
    qty * p.price
  }

  /** The line the cart view shows for the entry `pid -> qty`. */
  function LineFor(qty: int, p: Product): LineItem
  {
    LineItem(p.name, qty, p.price, LineCost(qty, p))
  }

  /** Sum of the `cost` fields of a list of line items. */
  function CostSum(lines: seq<LineItem>): int
  {
    if lines == [] then 0 else CostSum(lines[..|lines| - 1]) + lines[|lines| - 1].cost
  }

  /**
   The value of a cart: the sum over its entries of quantity times price,
   taking the entries in no particular order (see CartTotalPick).
   */
  ghost function CartTotal(items: map<string, int>, db: map<string, Product>): int
    requires items.Keys <= db.Keys
    decreases |items|
  {
    if items == map[] then 0
    else
      var pid :| pid in items;
      assert |items - {pid}| < |items| by { RemoveKeyCard(items, pid); }
      LineCost(items[pid], db[pid]) + CartTotal(items - {pid}, db)
  }

  lemma RemoveKeyCard(items: map<string, int>, pid: string)
    requires pid in items
    ensures (items - {pid}).Keys == items.Keys - {pid}
    ensures |items - {pid}| == |items| - 1
  {
  }

  /** The total does not depend on which entry is taken first. */
  lemma {:induction false} CartTotalPick(items: map<string, int>, db: map<string, Product>, pid: string)
    requires items.Keys <= db.Keys
    requires pid in items
    ensures CartTotal(items, db) == LineCost(items[pid], db[pid]) + CartTotal(items - {pid}, db)
    decreases |items|
  {
    var first :| first in items && CartTotal(items, db) == LineCost(items[first], db[first]) + CartTotal(items - {first}, db);
    if first != pid {
      RemoveKeyCard(items, first);
      RemoveKeyCard(items, pid);
      var both := items - {first} - {pid};
      assert items - {pid} - {first} == both;
      CartTotalPick(items - {first}, db, pid);
      CartTotalPick(items - {pid}, db, first);
    }
  }

  /** The empty cart is worth nothing. */
  lemma CartTotalEmpty(db: map<string, Product>)
    ensures CartTotal(map[], db) == 0
  {
  }

  /** Adding `quantity` units of a registered product raises the total by quantity times its price. */
  lemma {:induction false} CartTotalAddedTo(items: map<string, int>, db: map<string, Product>, pid: string, quantity: int)
    requires items.Keys <= db.Keys
    requires pid in db
    ensures AddedTo(items, pid, quantity).Keys <= db.Keys
    ensures CartTotal(AddedTo(items, pid, quantity), db) == CartTotal(items, db) + quantity * db[pid].price
  {
    var after := AddedTo(items, pid, quantity);
    CartTotalPick(after, db, pid);
    if pid in items {
      CartTotalPick(items, db, pid);
      assert after - {pid} == items - {pid};
    } else {
      assert after - {pid} == items;
    }
    assert LineCost(QuantityOf(items, pid) + quantity, db[pid])
        == LineCost(QuantityOf(items, pid), db[pid]) + quantity * db[pid].price;
  }

  /** A cart of non-negative quantities of non-negatively priced products has a non-negative total. */
  lemma {:induction false} CartTotalNonNegative(items: map<string, int>, db: map<string, Product>)
    requires items.Keys <= db.Keys
    requires forall pid :: pid in items ==> items[pid] >= 0 && db[pid].price >= 0
    ensures CartTotal(items, db) >= 0
    decreases |items|
  {
    if items != map[] {
      var pid :| pid in items;
      CartTotalPick(items, db, pid);
      RemoveKeyCard(items, pid);
      CartTotalNonNegative(items - {pid}, db);
      MulNonNegative(items[pid], db[pid].price);
    }
  }

  lemma MulNonNegative(a: int, b: int)
    requires a >= 0 && b >= 0
    ensures a * b >= 0
  {
  }

  lemma CostSumAppend(lines: seq<LineItem>, line: LineItem)
    ensures CostSum(lines + [line]) == CostSum(lines) + line.cost
  {
  }

  /**
   `details` lists, in the order `order`, one line for each of some distinct
   entries of the cart.
   */
  ghost predicate Lists(items: map<string, int>, db: map<string, Product>, order: seq<string>, details: seq<LineItem>)
    requires items.Keys <= db.Keys
  {
    && |order| == |details|
    && (forall i, j :: 0 <= i < j < |order| ==> order[i] != order[j])
    && (forall i :: 0 <= i < |order| ==>
          order[i] in items && details[i] == LineFor(items[order[i]], db[order[i]]))
  }

  lemma ListsAppend(items: map<string, int>, db: map<string, Product>, order: seq<string>, details: seq<LineItem>, pid: string)
    requires items.Keys <= db.Keys
    requires Lists(items, db, order, details)
    requires pid in items && pid !in order
    ensures Lists(items, db, order + [pid], details + [LineFor(items[pid], db[pid])])
  {
  }

  /**
   `order` holds the entries of the cart already visited and `rest` the
   entries still to visit, unchanged: between them, every entry exactly once.
   */
  ghost predicate Visits(items: map<string, int>, order: seq<string>, rest: map<string, int>)
  {
    && rest.Keys <= items.Keys
    && (forall pid :: pid in rest ==> rest[pid] == items[pid])
    && |order| + |rest| == |items|
    && (forall pid :: pid in items ==> (pid in order <==> pid !in rest))
  }

  lemma VisitsStep(items: map<string, int>, order: seq<string>, rest: map<string, int>, pid: string)
    requires Visits(items, order, rest)
    requires pid in rest
    ensures pid in items && pid !in order
    ensures Visits(items, order + [pid], rest - {pid})
  {
    RemoveKeyCard(rest, pid);
  }

  // ---------------------------------------------------------------------------
  // The cart
  // ---------------------------------------------------------------------------

  class ShoppingCart {
    var user: User?
    var items: map<string, int>

    constructor (user: User?)
      ensures this.user == user && items == map[]
    {
      this.user := user;
      items := map[];
    }

    /**
     Moves `quantity` units of `product` from its stock into the cart, or
     refuses, changing nothing, when the stock is smaller than `quantity`.
     */
    method AddItem(product: Product, quantity: int) returns (r: AddResult)
      modifies this`items, product`stock
      ensures old(product.stock) < quantity ==> r == NotEnoughStock(product.name)
      ensures old(product.stock) >= quantity ==> r == Added(quantity, product.name)
      ensures r.NotEnoughStock? ==> items == old(items) && product.stock == old(product.stock)
      ensures r.Added? ==> items == AddedTo(old(items), product.id, quantity)
      ensures r.Added? ==> product.stock == old(product.stock) - quantity && product.stock >= 0
      ensures product.stock + QuantityOf(items, product.id)
           == old(product.stock) + QuantityOf(old(items), product.id)
    {
      if product.stock < quantity {
        return NotEnoughStock(product.name);
      }
      items := AddedTo(items, product.id, quantity);
      product.stock := product.stock - quantity;
      r := Added(quantity, product.name);
    }

    /**
     Lists the cart, one line per entry, and the grand total, looking every
     product up in `db`. The ghost `order` is the order the entries were
     visited in.
     */
    method ViewCart(db: map<string, Product>) returns (details: seq<LineItem>, total: int, ghost order: seq<string>)
      requires items.Keys <= db.Keys
      ensures total == CartTotal(items, db)
      ensures total == CostSum(details)
      ensures |order| == |details| == |items|
      ensures forall i, j :: 0 <= i < j < |order| ==> order[i] != order[j]
      ensures forall pid :: pid in items <==> pid in order
      ensures forall i :: 0 <= i < |order| ==>
                order[i] in items && details[i] == LineFor(items[order[i]], db[order[i]])
    {
      var rest := items;
      details, total, order := [], 0, [];
      while rest != map[]
        invariant Visits(items, order, rest)
        invariant total + CartTotal(rest, db) == CartTotal(items, db)
        invariant total == CostSum(details)
        invariant Lists(items, db, order, details)
        decreases |rest|
      {
        var pid :| pid in rest;
        var line := LineFor(rest[pid], db[pid]);
        CartTotalPick(rest, db, pid);
        VisitsStep(items, order, rest, pid);
        CostSumAppend(details, line);
        ListsAppend(items, db, order, details, pid);
        details := details + [line];
        total := total + line.cost;
        order := order + [pid];
        rest := rest - {pid};
      }
      CartTotalEmpty(db);
    }

    /**
     Turns the cart into an order holding a copy of its entries and their
     total, then empties the cart.
     */
    method Checkout(orderId: string, db: map<string, Product>) returns (order: Order)
      requires items.Keys <= db.Keys
      modifies this`items
      ensures fresh(order)
      ensures order.orderId == orderId && order.user == user
      ensures order.items == old(items)
      ensures order.totalAmount == CartTotal(old(items), db)
      ensures order.status == Placed
      ensures old(items) == map[] ==> order.totalAmount == 0 && order.items == map[]
      ensures items == map[]
    {
      var details, total, visited := ViewCart(db);
      order := new Order(orderId, user, items, total);
      items := map[];
    }
  }

  // ---------------------------------------------------------------------------
  // Users, orders and the shop
  // ---------------------------------------------------------------------------

  class User {
    const id: string
    const username: string
    const cart: ShoppingCart

    constructor (id: string, username: string)
      ensures this.id == id && this.username == username
      ensures fresh(cart) && cart.items == map[] && cart.user == this
    {
      this.id := id;
      this.username := username;
      cart := new ShoppingCart(null);
      new;
      cart.user := this;
    }
  }

  /** A placed order: a snapshot of the cart's entries and their total. */
  class Order {
    const orderId: string
    const user: User?
    const items: map<string, int>
    const totalAmount: int
    const status: string

    constructor (orderId: string, user: User?, items: map<string, int>, totalAmount: int)
      ensures this.orderId == orderId && this.user == user
      ensures this.items == items && this.totalAmount == totalAmount
      ensures status == Placed
    {
      this.orderId := orderId;
      this.user := user;
      this.items := items;
      this.totalAmount := totalAmount;
      status := Placed;
    }
  }

  class Shop {
    var products: map<string, Product>
    var users: map<string, User>

    /** Every registry entry is stored under its own id. */
    ghost predicate Valid()
      reads this
    {
      && (forall pid :: pid in products ==> products[pid].id == pid)
      && (forall uid :: uid in users ==> users[uid].id == uid)
    }

    constructor ()
      ensures Valid() && products == map[] && users == map[]
    {
      products := map[];
      users := map[];
    }

    /** Registers a new product under the fresh id `id`. */
    method AddProduct(id: string, name: string, price: int, stock: int) returns (p: Product)
      requires Valid()
      requires id !in products
      modifies this`products
      ensures Valid()
      ensures fresh(p)
      ensures p.id == id && p.name == name && p.price == price && p.stock == stock
      ensures products == old(products)[id := p]
      ensures |products| == |old(products)| + 1
      ensures users == old(users)
    {
      p := new Product(id, name, price, stock);
      products := products[id := p];
    }

    /** Registers a new user, with an empty cart, under the fresh id `id`. */
    method RegisterUser(id: string, username: string) returns (u: User)
      requires Valid()
      requires id !in users
      modifies this`users
      ensures Valid()
      ensures fresh(u) && fresh(u.cart)
      ensures u.id == id && u.username == username
      ensures u.cart.items == map[] && u.cart.user == u
      ensures users == old(users)[id := u]
      ensures |users| == |old(users)| + 1
      ensures products == old(products)
    {
      u := new User(id, username);
      users := users[id := u];
    }
  }
}
