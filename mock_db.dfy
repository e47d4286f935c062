/** The in-memory store (services/mockDb.ts): a product catalogue, one current user,
    and the newest-first order and transaction ledgers, with the purchase and
    top-up actions that move money between them. The four persisted keys become
    the four fields of `MockDatabase`; a missing key is the constructor's state. */
module MockDb {
  import opened Types
  import Seqs

  /** Why a purchase was refused; the source reports these as the messages
      'Product not found', 'Out of stock' and 'Insufficient funds'. */
  datatype PurchaseError = ProductNotFound | OutOfStock | InsufficientFunds

  /** The result of `purchaseProduct`: the created order, or the first failed check. */
  datatype PurchaseOutcome = Purchased(order: Order) | Failed(error: PurchaseError)

  /** The index of the first product with this id (`products.find`). */
  function FindIndex(ps: seq<Product>, id: string): (r: Option<nat>)
    ensures r.None? <==> forall j :: 0 <= j < |ps| ==> ps[j].id != id
    ensures r.Some? ==> r.value < |ps| && ps[r.value].id == id
    ensures r.Some? ==> forall j :: 0 <= j < r.value ==> ps[j].id != id
  {
    if ps == [] then None
    else if ps[0].id == id then Some(0)
    else match FindIndex(ps[1..], id)
      case None => None
      case Some(i) => Some(i + 1)
  }

  /** `products.map(q => q.id === p.id ? p : q)`: every product sharing `p`'s id becomes `p`. */
  function ReplaceById(ps: seq<Product>, p: Product): (r: seq<Product>)
    ensures |r| == |ps|
    ensures forall j :: 0 <= j < |ps| && ps[j].id == p.id ==> r[j] == p
    ensures forall j :: 0 <= j < |ps| && ps[j].id != p.id ==> r[j] == ps[j]
  {
    if ps == [] then []
    else [if ps[0].id == p.id then p else ps[0]] + ReplaceById(ps[1..], p)
  }

  /** `products.filter(q => q.id !== id)`. */
  function WithoutId(ps: seq<Product>, id: string): (r: seq<Product>)
    ensures |r| <= |ps|
    ensures forall k :: 0 <= k < |r| ==> r[k].id != id && r[k] in ps
    ensures forall k :: 0 <= k < |ps| && ps[k].id != id ==> ps[k] in r
  {
    Seqs.FilterMembership((q: Product) => q.id != id, ps);
    Seqs.Filter((q: Product) => q.id != id, ps)
  }

  /** No two products share an id. */
  predicate UniqueIds(ps: seq<Product>) {
    forall j, k :: 0 <= j < k < |ps| ==> ps[j].id != ps[k].id
  }

  /** With unique ids, replacing by id overwrites exactly the one position holding that id. */
  lemma ReplaceByIdUnique(ps: seq<Product>, i: nat, p: Product)
    requires UniqueIds(ps) && i < |ps| && ps[i].id == p.id
    ensures ReplaceById(ps, p) == ps[i := p]
    ensures UniqueIds(ReplaceById(ps, p))
  {
    var r := ReplaceById(ps, p);
    forall j | 0 <= j < |ps|
      ensures r[j] == ps[i := p][j]
    {
      if j != i {
        assert ps[j].id != ps[i].id;
      }
    }
  }

  /** Replacing a product by id leaves the first position holding that id where it was. */
  lemma {:induction false} FindIndexAfterReplace(ps: seq<Product>, p: Product)
    ensures FindIndex(ReplaceById(ps, p), p.id) == FindIndex(ps, p.id)
  {
    if ps != [] {
      FindIndexAfterReplace(ps[1..], p);
      assert ReplaceById(ps, p)[1..] == ReplaceById(ps[1..], p);
    }
  }

  /** Updating an id that no product has changes nothing. */
  lemma {:induction false} ReplaceByIdAbsent(ps: seq<Product>, p: Product)
    requires forall j :: 0 <= j < |ps| ==> ps[j].id != p.id
    ensures ReplaceById(ps, p) == ps
  {
    if ps != [] {
      ReplaceByIdAbsent(ps[1..], p);
      assert ps == [ps[0]] + ps[1..];
    }
  }

  /** Deleting an id that no product has changes nothing. */
  lemma WithoutIdAbsent(ps: seq<Product>, id: string)
    requires forall j :: 0 <= j < |ps| ==> ps[j].id != id
    ensures WithoutId(ps, id) == ps
  {
    Seqs.FilterKeepsAll((q: Product) => q.id != id, ps);
  }

  /** Deleting twice is deleting once. */
  lemma WithoutIdIdempotent(ps: seq<Product>, id: string)
    ensures WithoutId(WithoutId(ps, id), id) == WithoutId(ps, id)
  {
    Seqs.FilterIdempotent((q: Product) => q.id != id, ps);
  }

  /** Deletion keeps the remaining products in their order, without dropping or duplicating any:
      each survivor sits in the old list at a strictly increasing index, and every product
      with another id keeps its multiplicity. */
  lemma WithoutIdKeepsOrder(ps: seq<Product>, id: string) returns (idx: seq<nat>)
    ensures |idx| == |WithoutId(ps, id)|
    ensures forall k :: 0 <= k < |idx| ==> idx[k] < |ps| && ps[idx[k]] == WithoutId(ps, id)[k]
    ensures forall k, l :: 0 <= k < l < |idx| ==> idx[k] < idx[l]
    ensures forall q: Product :: q.id != id ==> multiset(WithoutId(ps, id))[q] == multiset(ps)[q]
  {
    idx := Seqs.FilterIndices((q: Product) => q.id != id, ps);
    forall q: Product | q.id != id
      ensures multiset(WithoutId(ps, id))[q] == multiset(ps)[q]
    {
      Seqs.FilterCount((q: Product) => q.id != id, ps, q);
    }
  }

  /** A product after one unit of it is sold. */
  function Sold(p: Product): (r: Product)
    ensures r.stock == p.stock - 1
    ensures r.(stock := p.stock) == p
  {
    p.(stock := p.stock - 1)
  }

  /** The order recorded for buying `p`: a snapshot of its title, price and delivery payload. */
  function OrderFor(p: Product, u: User, orderId: string, date: string): (o: Order)
    ensures o.userId == u.id && o.productId == p.id && o.status == Completed
    ensures o.productTitle == p.title && o.price == p.price && o.deliveryData == p.autoDeliveryData
  {
    Order(orderId, u.id, p.id, p.title, p.price, date, Completed, p.autoDeliveryData)
  }

  /** The ledger entry recorded for buying `p`: the price, debited. */
  function PurchaseEntry(p: Product, txId: string, date: string): (t: Transaction)
    ensures t.kind == Purchase && t.amount + p.price == 0
  {
    Transaction(txId, -p.price, Purchase, date, "Bought " + p.title)
  }

  /** The ledger entry recorded for a wallet top-up: the amount, credited. */
  function DepositEntry(amount: int, txId: string, date: string): (t: Transaction)
    ensures t.kind == TransactionType.Deposit && t.amount == amount
  {
    Transaction(txId, amount, TransactionType.Deposit, date, "Wallet Top-up")
  }

  /** What selling one unit of the first product with `id` does to the catalogue: the list keeps
      its length and order, that product's stock drops by exactly one, products with other ids
      are untouched, the same position is still the first with `id`, and when the product was
      in stock no stock becomes negative. */
  lemma SellOneUnit(ps: seq<Product>, id: string)
    requires FindIndex(ps, id).Some?
    ensures var i := FindIndex(ps, id).value;
      var r := ReplaceById(ps, Sold(ps[i]));
      && |r| == |ps|
      && r[i] == Sold(ps[i]) && r[i].stock == ps[i].stock - 1
      && (forall j :: 0 <= j < |ps| && ps[j].id != id ==> r[j] == ps[j])
      && FindIndex(r, id) == FindIndex(ps, id)
      && (ps[i].stock > 0 && (forall j :: 0 <= j < |ps| ==> ps[j].stock >= 0) ==>
            forall j :: 0 <= j < |r| ==> r[j].stock >= 0)
  {
    var i := FindIndex(ps, id).value;
    FindIndexAfterReplace(ps, Sold(ps[i]));
  }

  /** The catalogue seeded when nothing is stored yet (prices in cents). */
  const InitialProducts: seq<Product> := [
    Product("1", "Steam Account (CS2 Prime)",
      "High tier account with Prime status enabled. 100+ hours played.",
      1599, Steam, 5, "https://picsum.photos/400/400?random=1",
      Some("Global"), Some("login: steamuser1\npass: hunter2")),
    Product("2", "1000 Gold (WoW)",
      "Instant delivery of 1000 Gold. Server: Draenor EU.",
      950, Currency, 100, "https://picsum.photos/400/400?random=2",
      Some("EU"), Some("Contact support with Order ID to claim.")),
    Product("3", "Gmail Aged 2018",
      "Verified phone. Farmed manually. Good for trust factor.",
      120, Email, 45, "https://picsum.photos/400/400?random=3",
      None, Some("email: test@gmail.com\npass: 123456")),
    Product("4", "Cyberpunk 2077 Key",
      "Steam Global Key activation.",
      2999, Keys, 2, "https://picsum.photos/400/400?random=4",
      None, Some("AAAA-BBBB-CCCC-DDDD"))
  ]

  /** The user seeded when nothing is stored yet. */
  const InitialUser: User :=
    User("user_01", "TelegramUser", 0, false, "https://picsum.photos/200/200?random=50")

  class MockDatabase {
    var products: seq<Product>
    var user: User
    /** Newest first. */
    var orders: seq<Order>
    /** Newest first. */
    var transactions: seq<Transaction>

    /** No product has negative stock and the balance is not negative. */
    predicate NoNegatives()
      reads this
    {
      (forall j :: 0 <= j < |products| ==> products[j].stock >= 0) && user.balance >= 0
    }

    /** The state read when no key has been stored yet. */
    constructor ()
      ensures products == InitialProducts && user == InitialUser
      ensures orders == [] && transactions == []
      ensures NoNegatives() && UniqueIds(products)
    {
      products := InitialProducts;
      user := InitialUser;
      orders := [];
      transactions := [];
    }

    method GetProducts() returns (ps: seq<Product>)
      ensures ps == products
    {
      ps := products;
    }

    /** Prepends a product: it becomes the head and the old catalogue the tail. */
    method AddProduct(p: Product)
      modifies this
      ensures products == [p] + old(products) && products[1..] == old(products)
      ensures user == old(user) && orders == old(orders) && transactions == old(transactions)
    {
      products := [p] + products;
    }

    /** Replaces every product whose id is `p.id` by `p`; length and order are kept. */
    method UpdateProduct(p: Product)
      modifies this
      ensures products == ReplaceById(old(products), p)
      ensures |products| == |old(products)|
      ensures forall j :: 0 <= j < |products| ==>
                products[j] == if old(products)[j].id == p.id then p else old(products)[j]
      ensures user == old(user) && orders == old(orders) && transactions == old(transactions)
    {
      products := ReplaceById(products, p);
    }

    /** Removes every product with this id, keeping the others in order. */
    method DeleteProduct(id: string)
      modifies this
      ensures products == WithoutId(old(products), id)
      ensures forall k :: 0 <= k < |products| ==> products[k].id != id
      ensures user == old(user) && orders == old(orders) && transactions == old(transactions)
    {
      products := WithoutId(products, id);
    }

    method GetUser() returns (u: User)
      ensures u == user
    {
      u := user;
    }

    /** Overwrites the stored user as a whole. */
    method UpdateUser(u: User)
      modifies this
      ensures user == u
      ensures products == old(products) && orders == old(orders) && transactions == old(transactions)
    {
      user := u;
    }

    method GetOrders() returns (os: seq<Order>)
      ensures os == orders
    {
      os := orders;
    }

    /** Prepends an order: newest first, the old list is the tail. */
    method CreateOrder(o: Order)
      modifies this
      ensures orders == [o] + old(orders) && orders[1..] == old(orders)
      ensures products == old(products) && user == old(user) && transactions == old(transactions)
    {
      orders := [o] + orders;
    }

    method GetTransactions() returns (txs: seq<Transaction>)
      ensures txs == transactions
    {
      txs := transactions;
    }

    /** Prepends a transaction: newest first, the old list is the tail. */
    method AddTransaction(tx: Transaction)
      modifies this
      ensures transactions == [tx] + old(transactions) && transactions[1..] == old(transactions)
      ensures products == old(products) && user == old(user) && orders == old(orders)
    {
      transactions := [tx] + transactions;
    }

    /** Buys one unit of the first product with `productId`. The checks run in the order
        product missing, out of stock, insufficient funds, and the first that fails is
        returned with no state changed. On success the product loses one unit, the user
        pays its price, and one order snapshot and one purchase transaction are prepended;
        the returned order is the new head of `orders`. The random ids and the clock
        readings are parameters. */
    method PurchaseProduct(productId: string, orderId: string, orderDate: string, txId: string, txDate: string)
      returns (r: PurchaseOutcome)
      modifies this
      ensures FindIndex(old(products), productId).None? ==> r == Failed(ProductNotFound)
      ensures FindIndex(old(products), productId).Some? ==>
        var p := old(products)[FindIndex(old(products), productId).value];
        r == if p.stock <= 0 then Failed(OutOfStock)
             else if old(user).balance < p.price then Failed(InsufficientFunds)
             else Purchased(OrderFor(p, old(user), orderId, orderDate))
      ensures r.Failed? ==>
        products == old(products) && user == old(user) && orders == old(orders) && transactions == old(transactions)
      ensures r.Purchased? ==>
        FindIndex(old(products), productId).Some? &&
        var p := old(products)[FindIndex(old(products), productId).value];
        && products == ReplaceById(old(products), Sold(p))
        && user == old(user).(balance := old(user).balance - p.price)
        && orders == [r.order] + old(orders)
        && transactions == [PurchaseEntry(p, txId, txDate)] + old(transactions)
      ensures old(NoNegatives()) ==> NoNegatives()
    {
      var found := FindIndex(products, productId);
      if found.None? {
        return Failed(ProductNotFound);
      }
      var product := products[found.value];
      if product.stock <= 0 {
        return Failed(OutOfStock);
      }
      if user.balance < product.price {
        return Failed(InsufficientFunds);
      }

      SellOneUnit(products, productId);
      var order := OrderFor(product, user, orderId, orderDate);
      var tx := PurchaseEntry(product, txId, txDate);
      var buyer := user.(balance := user.balance - product.price);
      product := Sold(product);

      UpdateProduct(product);
      UpdateUser(buyer);
      CreateOrder(order);
      AddTransaction(tx);
      r := Purchased(order);
    }

    /** Credits `amount` to the balance and prepends a deposit transaction. No sign check
        is made on `amount`. */
    method Deposit(amount: int, txId: string, txDate: string)
      modifies this
      ensures user == old(user).(balance := old(user).balance + amount)
      ensures transactions == [DepositEntry(amount, txId, txDate)] + old(transactions)
      ensures products == old(products) && orders == old(orders)
      ensures old(NoNegatives()) && amount >= 0 ==> NoNegatives()
    {
      var u := user.(balance := user.balance + amount);
      var tx := DepositEntry(amount, txId, txDate);
      UpdateUser(u);
      AddTransaction(tx);
    }

    /** Flips the admin flag, leaves every other user field alone, and returns the new flag. */
    method ToggleAdminMode() returns (isAdmin: bool)
      modifies this
      ensures user == old(user).(isAdmin := !old(user).isAdmin)
      ensures isAdmin == user.isAdmin && isAdmin != old(user).isAdmin
      ensures products == old(products) && orders == old(orders) && transactions == old(transactions)
    {
      var u := user.(isAdmin := !user.isAdmin);
      UpdateUser(u);
      isAdmin := u.isAdmin;
    }
  }

  /** Toggling the admin flag twice restores the stored user. */
  method ToggleTwice(db: MockDatabase)
    modifies db
    ensures db.user == old(db.user)
    ensures db.products == old(db.products) && db.orders == old(db.orders)
    ensures db.transactions == old(db.transactions)
  {
    var _ := db.ToggleAdminMode();
    var _ := db.ToggleAdminMode();
  }

  /** The last unit of a product can be sold only once: with stock 1 and enough money, the
      first purchase succeeds and leaves stock 0, and the second is refused as out of stock. */
  method LastUnitSellsOnce(db: MockDatabase, productId: string, i: nat, ids: seq<string>, dates: seq<string>)
    returns (first: PurchaseOutcome, second: PurchaseOutcome)
    requires |ids| == 4 && |dates| == 4
    requires FindIndex(db.products, productId) == Some(i)
    requires db.products[i].stock == 1 && db.products[i].price <= db.user.balance
    modifies db
    ensures first.Purchased? && second == Failed(OutOfStock)
    ensures |db.products| == |old(db.products)| && db.products[i].stock == 0
    ensures db.orders == [first.order] + old(db.orders)
    ensures db.transactions == [PurchaseEntry(old(db.products)[i], ids[1], dates[1])] + old(db.transactions)
    ensures db.user.balance == old(db.user).balance - old(db.products)[i].price
  {
    SellOneUnit(db.products, productId);
    first := db.PurchaseProduct(productId, ids[0], dates[0], ids[1], dates[1]);
    second := db.PurchaseProduct(productId, ids[2], dates[2], ids[3], dates[3]);
  }

  /** An order keeps the title, price and delivery payload it was sold with, even when the
      product is edited right after the sale. */
  method SnapshotSurvivesEdit(db: MockDatabase, productId: string, i: nat, edited: Product,
                              orderId: string, orderDate: string, txId: string, txDate: string)
    returns (r: PurchaseOutcome)
    requires FindIndex(db.products, productId) == Some(i) && edited.id == productId
    requires db.products[i].stock > 0 && db.products[i].price <= db.user.balance
    modifies db
    ensures r.Purchased?
    ensures |db.orders| > 0 && db.orders[0] == r.order
    ensures r.order == OrderFor(old(db.products)[i], old(db.user), orderId, orderDate)
    ensures |db.products| == |old(db.products)| && db.products[i] == edited
  {
    SellOneUnit(db.products, productId);
    r := db.PurchaseProduct(productId, orderId, orderDate, txId, txDate);
    db.UpdateProduct(edited);
  }
}
