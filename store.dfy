/**
 * The cart and order handlers, run against an in-memory copy of the shop's tables.
 * Each handler is one atomic step on a `Store`; its `ensures` give the whole new state.
 * `Valid()` holds the invariants the handlers keep together: increasing primary keys,
 * at most one active cart per user, at most one line per product in a cart, and every
 * foreign key naming an existing row: a line's cart and product, an order's cart (a
 * purchased one), shop address and delivery status, and a product's category. A write
 * whose key names no row is refused, as the database refuses it.
 */
module Shop {
  import opened Wrappers
  import opened Models
  import opened Tables
  import opened Serializers

  /**
   * How a handler fails: 404, the 404 for a missing active cart, 400, a PROTECT refusal,
   * or the database's refusal of a row whose foreign key names no row (an integrity error).
   */
  datatype Failure = NotFound | NoActiveCart | Invalid(error: ValidationError) | Protected | Refused

  // ---------------------------------------------------------------------------------
  // Primary keys and lookups

  function CategoryId(c: Category): int { c.id }
  function ProductId(p: Product): int { p.id }
  function CartId(c: Cart): int { c.id }
  function LineId(l: CartProduct): int { l.id }
  function OrderId(o: Order): int { o.id }
  function ShopAddressId(a: ShopAddress): int { a.id }
  function StatusId(d: DeliveryStatus): int { d.id }

  /** `Cart.objects.filter(user=user, isPurchase=False).first()`. */
  function ActiveCartIndex(carts: seq<Cart>, user: int): Option<nat> {
    FirstIndex(carts, (c: Cart) => IsActiveFor(c, user))
  }

  /** The line of `cart` for `product`, as `get_or_create(cart=…, product_id=…)` looks it up. */
  function LineIndex(lines: seq<CartProduct>, cart: int, product: int): Option<nat> {
    FirstIndex(lines, (l: CartProduct) => l.cart == cart && l.product == product)
  }

  /** `CartProduct.objects.filter(cart=cart)`. */
  function LinesOfCart(lines: seq<CartProduct>, cart: int): seq<CartProduct> {
    Filter(lines, (l: CartProduct) => l.cart == cart)
  }

  /** The rows created with `Order.objects.create(user_id=…, cart_id=…, **validated_data)`. */
  function NewOrder(id: int, user: int, cart: int, date: Timestamp, data: OrderPayload): Order {
    Order(
      id, data.deliveryAddress, data.deliveryType.GetOr(OrderDeliveryTypeDefault),
      data.deliveryPhoneNumber, date, cart, user, data.shopAddressId, None)
  }

  /** The keys of the products in category `category`. */
  function ProductsIn(products: seq<Product>, category: int): set<int> {
    set p | p in products && p.category == category :: p.id
  }

  /** The cart lines whose product is not among `gone`. */
  function LinesWithout(lines: seq<CartProduct>, gone: set<int>): seq<CartProduct> {
    Filter(lines, (l: CartProduct) => l.product !in gone)
  }

  /** A given field replaces the current value; an absent one keeps it. */
  function GivenOr<T>(given: Option<T>, current: T): T {
    if given.Some? then given.value else current
  }

  /** The order after the edit handler copies the given fields of a validated payload onto it. */
  function Merge(o: Order, data: OrderPayload): Order {
    o.(deliveryAddress := if data.deliveryAddress.Some? then data.deliveryAddress else o.deliveryAddress,
       deliveryType := GivenOr(data.deliveryType, o.deliveryType),
       deliveryPhoneNumber := if data.deliveryPhoneNumber.Some? then data.deliveryPhoneNumber else o.deliveryPhoneNumber,
       shopAddress := if data.shopAddressId.Some? then data.shopAddressId else o.shopAddress)
  }

  /** The delivery fields of a stored order, read back as a payload. */
  function AsPayload(o: Order): OrderPayload {
    OrderPayload(o.deliveryAddress, Some(o.deliveryType), o.deliveryPhoneNumber, o.shopAddress)
  }

  // ---------------------------------------------------------------------------------
  // Invariants on the tables

  /** Carts `i` and `j` are not two different active carts of one user. */
  ghost predicate NotTwoActive(carts: seq<Cart>, i: int, j: int) {
    (0 <= i < |carts| && 0 <= j < |carts| && carts[i].user == carts[j].user &&
     !carts[i].isPurchase && !carts[j].isPurchase) ==> i == j
  }

  /** A user has at most one active cart (what `get_or_create(user=…, isPurchase=False)` needs). */
  ghost predicate AtMostOneActiveCart(carts: seq<Cart>) {
    forall i, j :: NotTwoActive(carts, i, j)
  }

  /** Lines `i` and `j` are not two different lines for one product in one cart. */
  ghost predicate NotTwoLines(lines: seq<CartProduct>, i: int, j: int) {
    (0 <= i < |lines| && 0 <= j < |lines| &&
     lines[i].cart == lines[j].cart && lines[i].product == lines[j].product) ==> i == j
  }

  /** A cart has at most one line per product (what `get_or_create(cart=…, product_id=…)` needs). */
  ghost predicate OneLinePerProduct(lines: seq<CartProduct>) {
    forall i, j :: NotTwoLines(lines, i, j)
  }

  ghost predicate HasCart(carts: seq<Cart>, id: int) {
    exists c :: c in carts && c.id == id
  }

  ghost predicate HasPurchasedCart(carts: seq<Cart>, id: int) {
    exists c :: c in carts && c.id == id && c.isPurchase
  }

  ghost predicate HasCategory(categories: seq<Category>, id: int) {
    exists c :: c in categories && c.id == id
  }

  ghost predicate HasProduct(products: seq<Product>, id: int) {
    exists p :: p in products && p.id == id
  }

  /** A nullable key to a pickup point is null or names one. */
  ghost predicate ShopKeyResolves(shopAddresses: seq<ShopAddress>, key: Option<int>) {
    key.Some? ==> exists a :: a in shopAddresses && a.id == key.value
  }

  /** A nullable key to a delivery status is null or names one. */
  ghost predicate StatusKeyResolves(statuses: seq<DeliveryStatus>, key: Option<int>) {
    key.Some? ==> exists d :: d in statuses && d.id == key.value
  }

  /** Every cart line is for an existing product. */
  ghost predicate LineProductsExist(lines: seq<CartProduct>, products: seq<Product>) {
    forall l :: l in lines ==> HasProduct(products, l.product)
  }

  /** Every order's shop address and delivery status, where given, exist. */
  ghost predicate OrderRefsExist(orders: seq<Order>, shopAddresses: seq<ShopAddress>, statuses: seq<DeliveryStatus>) {
    forall o :: o in orders ==> ShopKeyResolves(shopAddresses, o.shopAddress) && StatusKeyResolves(statuses, o.deliveryStatus)
  }

  /** The catalogue tables: increasing keys, and every product in an existing category. */
  ghost predicate CatalogueValid(
    categories: seq<Category>, products: seq<Product>,
    shopAddresses: seq<ShopAddress>, statuses: seq<DeliveryStatus>)
  {
    && IdsIncreasing(categories, CategoryId)
    && IdsIncreasing(products, ProductId)
    && IdsIncreasing(shopAddresses, ShopAddressId)
    && IdsIncreasing(statuses, StatusId)
    && (forall p :: p in products ==> HasCategory(categories, p.category))
  }

  ghost predicate CartsValid(carts: seq<Cart>, next: int) {
    IdsIncreasing(carts, CartId) && IdsBelow(carts, CartId, next) && AtMostOneActiveCart(carts)
  }

  ghost predicate LinesValid(lines: seq<CartProduct>, carts: seq<Cart>, next: int) {
    && IdsIncreasing(lines, LineId) && IdsBelow(lines, LineId, next)
    && OneLinePerProduct(lines)
    && (forall l :: l in lines ==> HasCart(carts, l.cart))
  }

  ghost predicate OrdersValid(orders: seq<Order>, carts: seq<Cart>, next: int) {
    && IdsIncreasing(orders, OrderId) && IdsBelow(orders, OrderId, next)
    && (forall o :: o in orders ==> HasPurchasedCart(carts, o.cart))
  }

  // ---------------------------------------------------------------------------------
  // The invariants under the steps of the handlers

  /** Creating a cart for a user without an active one makes it that user's only active cart. */
  lemma CreateCartKeepsValid(carts: seq<Cart>, next: int, user: int)
    requires CartsValid(carts, next) && ActiveCartIndex(carts, user).None?
    ensures var carts' := carts + [Cart(next, user, CartIsPurchaseDefault)];
      && CartsValid(carts', next + 1)
      && ActiveCartIndex(carts', user) == Some(|carts|)
      && (forall id :: HasCart(carts, id) ==> HasCart(carts', id))
      && (forall id :: HasPurchasedCart(carts, id) ==> HasPurchasedCart(carts', id))
  {
    var carts' := carts + [Cart(next, user, CartIsPurchaseDefault)];
    assert forall i :: 0 <= i < |carts| ==> carts'[i] == carts[i];
    AppendKeepsIds(carts, CartId, next, carts'[|carts|]);
    forall i, j ensures NotTwoActive(carts', i, j) {
      if 0 <= i < |carts| && 0 <= j < |carts| {
        assert NotTwoActive(carts, i, j);
      } else if 0 <= i < |carts| {
        assert !IsActiveFor(carts[i], user);
      } else if 0 <= j < |carts| {
        assert !IsActiveFor(carts[j], user);
      }
    }
    assert IsActiveFor(carts'[|carts|], user);
    assert ActiveCartIndex(carts', user).Some?;
    forall id | HasCart(carts, id) ensures HasCart(carts', id) {
      var c :| c in carts && c.id == id;
      assert c in carts';
    }
    forall id | HasPurchasedCart(carts, id) ensures HasPurchasedCart(carts', id) {
      var c :| c in carts && c.id == id && c.isPurchase;
      assert c in carts';
    }
  }

  /** Changing the amount of one line keeps the line invariants. */
  lemma UpdateLineKeepsValid(lines: seq<CartProduct>, carts: seq<Cart>, next: int, j: nat, amount: int)
    requires LinesValid(lines, carts, next) && j < |lines|
    ensures LinesValid(lines[j := lines[j].(amount := amount)], carts, next)
  {
    var lines' := lines[j := lines[j].(amount := amount)];
    UpdateKeepsIds(lines, LineId, next, j, lines'[j]);
    forall a, b ensures NotTwoLines(lines', a, b) {
      assert NotTwoLines(lines, a, b);
    }
    forall l | l in lines' ensures HasCart(carts, l.cart) {
      var i :| 0 <= i < |lines'| && lines'[i] == l;
      assert lines[i] in lines;
    }
  }

  /** Adding a line for a product the cart has no line for keeps the line invariants. */
  lemma AddLineKeepsValid(lines: seq<CartProduct>, carts: seq<Cart>, next: int, line: CartProduct)
    requires LinesValid(lines, carts, next) && line.id == next
    requires LineIndex(lines, line.cart, line.product).None? && HasCart(carts, line.cart)
    ensures LinesValid(lines + [line], carts, next + 1)
  {
    var lines' := lines + [line];
    assert forall i :: 0 <= i < |lines| ==> lines'[i] == lines[i];
    AppendKeepsIds(lines, LineId, next, line);
    forall a, b ensures NotTwoLines(lines', a, b) {
      if 0 <= a < |lines| && 0 <= b < |lines| {
        assert NotTwoLines(lines, a, b);
      } else if 0 <= a < |lines| {
        assert !(lines[a].cart == line.cart && lines[a].product == line.product);
      } else if 0 <= b < |lines| {
        assert !(lines[b].cart == line.cart && lines[b].product == line.product);
      }
    }
    forall l | l in lines' ensures HasCart(carts, l.cart) {
      if l != line { assert l in lines; }
    }
  }

  /** Line foreign keys stay valid when no cart disappears. */
  lemma LinesValidForMoreCarts(lines: seq<CartProduct>, carts: seq<Cart>, carts': seq<Cart>, next: int)
    requires LinesValid(lines, carts, next)
    requires forall id :: HasCart(carts, id) ==> HasCart(carts', id)
    ensures LinesValid(lines, carts', next)
  {
    forall l | l in lines ensures HasCart(carts', l.cart) {
      assert HasCart(carts, l.cart);
    }
  }

  /** Order foreign keys stay valid when no purchased cart disappears. */
  lemma OrdersValidForMoreCarts(orders: seq<Order>, carts: seq<Cart>, carts': seq<Cart>, next: int)
    requires OrdersValid(orders, carts, next)
    requires forall id :: HasPurchasedCart(carts, id) ==> HasPurchasedCart(carts', id)
    ensures OrdersValid(orders, carts', next)
  {
    forall o | o in orders ensures HasPurchasedCart(carts', o.cart) {
      assert HasPurchasedCart(carts, o.cart);
    }
  }

  /** Rows taken from a table with one line per product in a cart, with increasing keys, keep that property. */
  lemma SubTableOneLinePerProduct(lines: seq<CartProduct>, lines': seq<CartProduct>)
    requires OneLinePerProduct(lines) && IdsIncreasing(lines', LineId)
    requires forall l :: l in lines' ==> l in lines
    ensures OneLinePerProduct(lines')
  {
    forall i, j ensures NotTwoLines(lines', i, j) {
      if 0 <= i < |lines'| && 0 <= j < |lines'| && lines'[i].cart == lines'[j].cart && lines'[i].product == lines'[j].product {
        assert lines'[i] in lines && lines'[j] in lines;
        var a :| 0 <= a < |lines| && lines[a] == lines'[i];
        var b :| 0 <= b < |lines| && lines[b] == lines'[j];
        assert NotTwoLines(lines, a, b);
        KeysDistinct(lines', LineId, i, j);
      }
    }
  }

  /** Rows taken from a cart table with at most one active cart per user, with increasing keys, keep that property. */
  lemma SubTableAtMostOneActiveCart(carts: seq<Cart>, carts': seq<Cart>)
    requires AtMostOneActiveCart(carts) && IdsIncreasing(carts', CartId)
    requires forall c :: c in carts' ==> c in carts
    ensures AtMostOneActiveCart(carts')
  {
    forall i, j ensures NotTwoActive(carts', i, j) {
      if 0 <= i < |carts'| && 0 <= j < |carts'| && carts'[i].user == carts'[j].user &&
         !carts'[i].isPurchase && !carts'[j].isPurchase {
        assert carts'[i] in carts && carts'[j] in carts;
        var a :| 0 <= a < |carts| && carts[a] == carts'[i];
        var b :| 0 <= b < |carts| && carts[b] == carts'[j];
        assert NotTwoActive(carts, a, b);
        KeysDistinct(carts', CartId, i, j);
      }
    }
  }

  /**
   * Purchasing the active cart at `k` and creating a fresh one for its user leaves the
   * fresh cart as that user's only active cart; no cart disappears and no purchased
   * cart stops being purchased.
   */
  lemma CheckoutKeepsValid(carts: seq<Cart>, next: int, k: nat)
    requires CartsValid(carts, next) && k < |carts| && !carts[k].isPurchase
    ensures var user := carts[k].user;
      var carts' := carts[k := carts[k].(isPurchase := true)] + [Cart(next, user, CartIsPurchaseDefault)];
      && CartsValid(carts', next + 1)
      && ActiveCartIndex(carts', user) == Some(|carts|)
      && (forall i :: 0 <= i < |carts'| && IsActiveFor(carts'[i], user) ==> i == |carts|)
      && HasPurchasedCart(carts', carts[k].id)
      && (forall id :: HasCart(carts, id) ==> HasCart(carts', id))
      && (forall id :: HasPurchasedCart(carts, id) ==> HasPurchasedCart(carts', id))
  {
    var user := carts[k].user;
    var flipped := carts[k := carts[k].(isPurchase := true)];
    var carts' := flipped + [Cart(next, user, CartIsPurchaseDefault)];
    assert forall i :: 0 <= i < |carts| ==> carts'[i] == flipped[i];
    assert forall i :: 0 <= i < |carts| && i != k ==> flipped[i] == carts[i];
    UpdateKeepsIds(carts, CartId, next, k, flipped[k]);
    AppendKeepsIds(flipped, CartId, next, carts'[|carts|]);
    forall i | 0 <= i < |carts| ensures !IsActiveFor(carts'[i], user) {
      if i != k {
        assert NotTwoActive(carts, i, k);
      }
    }
    forall i, j ensures NotTwoActive(carts', i, j) {
      if 0 <= i < |carts| && 0 <= j < |carts| {
        assert NotTwoActive(carts, i, j);
      }
    }
    assert IsActiveFor(carts'[|carts|], user);
    assert ActiveCartIndex(carts', user).Some?;
    assert carts'[k] in carts';
    forall id | HasCart(carts, id) ensures HasCart(carts', id) {
      var i :| 0 <= i < |carts| && carts[i].id == id;
      assert carts'[i] in carts';
    }
    forall id | HasPurchasedCart(carts, id) ensures HasPurchasedCart(carts', id) {
      var i :| 0 <= i < |carts| && carts[i].id == id && carts[i].isPurchase;
      assert carts'[i] in carts';
    }
  }

  /** A cart with a key no cart has yet has no lines. */
  lemma FreshCartHasNoLines(lines: seq<CartProduct>, carts: seq<Cart>, nextLine: int, nextCart: int)
    requires LinesValid(lines, carts, nextLine) && IdsBelow(carts, CartId, nextCart)
    ensures LinesOfCart(lines, nextCart) == []
  {
    forall l | l in lines ensures l.cart != nextCart {
      assert HasCart(carts, l.cart);
      var c :| c in carts && c.id == l.cart;
      var i :| 0 <= i < |carts| && carts[i] == c;
      assert KeyBelow(carts, CartId, nextCart, i);
    }
    FilterNoneKept(lines, (l: CartProduct) => l.cart == nextCart);
  }

  /** Adding an order on a purchased cart, with the next key, keeps the order invariants. */
  lemma AddOrderKeepsValid(orders: seq<Order>, carts: seq<Cart>, next: int, order: Order)
    requires OrdersValid(orders, carts, next) && order.id == next && HasPurchasedCart(carts, order.cart)
    ensures OrdersValid(orders + [order], carts, next + 1)
  {
    var orders' := orders + [order];
    assert forall i :: 0 <= i < |orders| ==> orders'[i] == orders[i];
    AppendKeepsIds(orders, OrderId, next, order);
    forall o | o in orders' ensures HasPurchasedCart(carts, o.cart) {
      if o != order { assert o in orders; }
    }
  }

  /** The carts after checkout: cart `k` marked purchased and a fresh active cart appended. */
  function Purchase(carts: seq<Cart>, k: nat, next: int): (r: seq<Cart>)
    requires k < |carts|
    ensures |r| == |carts| + 1 && r[k] == carts[k].(isPurchase := true)
    ensures r[|carts|] == Cart(next, carts[k].user, false)
    ensures forall i :: 0 <= i < |carts| && i != k ==> r[i] == carts[i]
  {
    carts[k := carts[k].(isPurchase := true)] + [Cart(next, carts[k].user, CartIsPurchaseDefault)]
  }

  /** The table invariants, and the user's single fresh cart, after an order is placed from cart `k`. */
  lemma PlaceOrderKeepsValid(carts: seq<Cart>, lines: seq<CartProduct>, orders: seq<Order>,
                             nextCart: int, nextLine: int, nextOrder: int, k: nat, order: Order)
    requires CartsValid(carts, nextCart) && LinesValid(lines, carts, nextLine) && OrdersValid(orders, carts, nextOrder)
    requires k < |carts| && !carts[k].isPurchase && order.id == nextOrder && order.cart == carts[k].id
    ensures var carts' := Purchase(carts, k, nextCart);
      && CartsValid(carts', nextCart + 1)
      && LinesValid(lines, carts', nextLine)
      && OrdersValid(orders + [order], carts', nextOrder + 1)
      && ActiveCartIndex(carts', carts[k].user) == Some(|carts|)
      && (forall i :: 0 <= i < |carts'| && IsActiveFor(carts'[i], carts[k].user) ==> i == |carts|)
      && LinesOfCart(lines, nextCart) == []
  {
    var carts' := Purchase(carts, k, nextCart);
    CheckoutKeepsValid(carts, nextCart, k);
    LinesValidForMoreCarts(lines, carts, carts', nextLine);
    OrdersValidForMoreCarts(orders, carts, carts', nextOrder);
    AddOrderKeepsValid(orders, carts', nextOrder, order);
    FreshCartHasNoLines(lines, carts, nextLine, nextCart);
  }

  /** Keeping the lines of a sub-table of carts, where every kept line's cart is kept. */
  lemma FilterLinesKeepsValid(lines: seq<CartProduct>, carts: seq<Cart>, carts': seq<Cart>, next: int, keep: CartProduct -> bool)
    requires LinesValid(lines, carts, next)
    requires forall l :: l in lines && keep(l) ==> HasCart(carts', l.cart)
    ensures LinesValid(Filter(lines, keep), carts', next)
  {
    FilterKeepsIdsIncreasing(lines, keep, LineId);
    FilterKeepsIdsBelow(lines, keep, LineId, next);
    SubTableOneLinePerProduct(lines, Filter(lines, keep));
  }

  /** Keeping the orders whose purchased cart is kept. */
  lemma FilterOrdersKeepsValid(orders: seq<Order>, carts: seq<Cart>, carts': seq<Cart>, next: int, keep: Order -> bool)
    requires OrdersValid(orders, carts, next)
    requires forall o :: o in orders && keep(o) ==> HasPurchasedCart(carts', o.cart)
    ensures OrdersValid(Filter(orders, keep), carts', next)
  {
    FilterKeepsIdsIncreasing(orders, keep, OrderId);
    FilterKeepsIdsBelow(orders, keep, OrderId, next);
  }

  /** Dropping a cart together with its lines and its orders keeps the three invariants. */
  lemma DeleteCartKeepsValid(carts: seq<Cart>, lines: seq<CartProduct>, orders: seq<Order>,
                             nextCart: int, nextLine: int, nextOrder: int, id: int)
    requires CartsValid(carts, nextCart)
    requires LinesValid(lines, carts, nextLine) && OrdersValid(orders, carts, nextOrder)
    ensures CartsValid(Filter(carts, (c: Cart) => c.id != id), nextCart)
    ensures LinesValid(Filter(lines, (l: CartProduct) => l.cart != id), Filter(carts, (c: Cart) => c.id != id), nextLine)
    ensures OrdersValid(Filter(orders, (o: Order) => o.cart != id), Filter(carts, (c: Cart) => c.id != id), nextOrder)
  {
    var carts' := Filter(carts, (c: Cart) => c.id != id);
    FilterKeepsIdsIncreasing(carts, (c: Cart) => c.id != id, CartId);
    FilterKeepsIdsBelow(carts, (c: Cart) => c.id != id, CartId, nextCart);
    SubTableAtMostOneActiveCart(carts, carts');
    forall l | l in lines && l.cart != id ensures HasCart(carts', l.cart) {
      var c :| c in carts && c.id == l.cart;
      assert c in carts';
    }
    forall o | o in orders && o.cart != id ensures HasPurchasedCart(carts', o.cart) {
      var c :| c in carts && c.id == o.cart && c.isPurchase;
      assert c in carts';
    }
    FilterLinesKeepsValid(lines, carts, carts', nextLine, (l: CartProduct) => l.cart != id);
    FilterOrdersKeepsValid(orders, carts, carts', nextOrder, (o: Order) => o.cart != id);
  }

  /** Dropping a category together with its products and their lines keeps the invariants. */
  lemma DeleteCategoryKeepsValid(categories: seq<Category>, products: seq<Product>,
                                 shopAddresses: seq<ShopAddress>, statuses: seq<DeliveryStatus>,
                                 lines: seq<CartProduct>, carts: seq<Cart>, nextLine: int, id: int)
    requires CatalogueValid(categories, products, shopAddresses, statuses)
    requires LinesValid(lines, carts, nextLine)
    ensures CatalogueValid(Filter(categories, (c: Category) => c.id != id),
                           Filter(products, (p: Product) => p.category != id), shopAddresses, statuses)
    ensures LinesValid(LinesWithout(lines, ProductsIn(products, id)), carts, nextLine)
  {
    var categories' := Filter(categories, (c: Category) => c.id != id);
    var products' := Filter(products, (p: Product) => p.category != id);
    FilterKeepsIdsIncreasing(categories, (c: Category) => c.id != id, CategoryId);
    FilterKeepsIdsIncreasing(products, (p: Product) => p.category != id, ProductId);
    forall p | p in products' ensures HasCategory(categories', p.category) {
      var c :| c in categories && c.id == p.category;
      assert c in categories';
    }
    var gone := ProductsIn(products, id);
    FilterLinesKeepsValid(lines, carts, carts, nextLine, (l: CartProduct) => l.product !in gone);
  }

  /**
   * Product names are unique only where the serializer checks them: the tables admit two
   * products with one name, and the name validator then rejects that name for a new product.
   */
  lemma DuplicateNamesAllowed()
    ensures var products := [Product(1, "X1", 100, None, "", 1), Product(2, "X1", 100, None, "", 1)];
      && CatalogueValid([Category(1, "Phones")], products, [], [])
      && products[0].name == products[1].name
      && ValidateProductName("X1", products, None).Err?
  {
    var categories := [Category(1, "Phones")];
    var products := [Product(1, "X1", 100, None, "", 1), Product(2, "X1", 100, None, "", 1)];
    forall i, j ensures KeysOrdered(categories, CategoryId, i, j) {
    }
    forall i, j ensures KeysOrdered(products, ProductId, i, j) {
    }
    forall q | q in products ensures HasCategory(categories, q.category) {
      assert categories[0] in categories;
    }
    assert products[0] in products;
  }

  // ---------------------------------------------------------------------------------
  // Editing an order

  /**
   * The edit handler validates only the payload, and the payload need not repeat the field
   * the other delivery mode uses, so the merged order is consistent exactly when the stored
   * order does not carry that field.
   */
  lemma MergeConsistency(o: Order, p: OrderPayload)
    requires IsValid(p).Ok?
    ensures DeliveryModeConsistent(AsPayload(Merge(o, p))) <==>
      if p.deliveryType.value then o.deliveryAddress.None? else o.shopAddress.None?
  {
  }

  /** A home-delivery order switched to pickup keeps its address and breaks the delivery rule. */
  lemma EditNotRevalidated()
    ensures var o := Order(1, Some("Minsk"), false, None, 0, 1, 1, None, None);
      var p := OrderPayload(None, Some(true), None, Some(1));
      && DeliveryModeConsistent(AsPayload(o))
      && IsValid(p).Ok?
      && Merge(o, p).deliveryAddress == Some("Minsk") && Merge(o, p).shopAddress == Some(1)
      && !DeliveryModeConsistent(AsPayload(Merge(o, p)))
  {
    var p := OrderPayload(None, Some(true), None, Some(1));
    assert FieldsValid(p);
  }

  class Store {
    var categories: seq<Category>
    var products: seq<Product>
    var carts: seq<Cart>
    var lines: seq<CartProduct>
    var orders: seq<Order>
    var shopAddresses: seq<ShopAddress>
    var statuses: seq<DeliveryStatus>
    // the next primary key of each table the handlers insert into
    var nextCartId: int
    var nextLineId: int
    var nextOrderId: int

    ghost predicate Valid()
      reads this
    {
      && CatalogueValid(categories, products, shopAddresses, statuses)
      && CartsValid(carts, nextCartId)
      && LinesValid(lines, carts, nextLineId)
      && OrdersValid(orders, carts, nextOrderId)
      && LineProductsExist(lines, products)
      && OrderRefsExist(orders, shopAddresses, statuses)
    }

    /** A store holding a catalogue and no carts, lines or orders yet. */
    constructor (categories: seq<Category>, products: seq<Product>,
                 shopAddresses: seq<ShopAddress>, statuses: seq<DeliveryStatus>)
      requires CatalogueValid(categories, products, shopAddresses, statuses)
      ensures Valid()
      ensures this.categories == categories && this.products == products
      ensures this.shopAddresses == shopAddresses && this.statuses == statuses
      ensures carts == [] && lines == [] && orders == []
      ensures nextCartId == 1 && nextLineId == 1 && nextOrderId == 1
    {
      this.categories, this.products := categories, products;
      this.shopAddresses, this.statuses := shopAddresses, statuses;
      carts, lines, orders := [], [], [];
      nextCartId, nextLineId, nextOrderId := 1, 1, 1;
    }

    /**
     * `Cart.objects.get_or_create(user=…, isPurchase=False)`: the key of the user's active
     * cart, created when there is none.
     */
    method ActiveCart(user: int) returns (cart: int)
      requires Valid()
      modifies this
      ensures Valid()
      ensures match ActiveCartIndex(old(carts), user)
        case Some(k) =>
          carts == old(carts) && nextCartId == old(nextCartId) && cart == old(carts)[k].id
        case None =>
          && carts == old(carts) + [Cart(old(nextCartId), user, CartIsPurchaseDefault)]
          && nextCartId == old(nextCartId) + 1 && cart == old(nextCartId)
      ensures ActiveCartIndex(carts, user).Some? && carts[ActiveCartIndex(carts, user).value].id == cart
      ensures HasCart(carts, cart)
      ensures lines == old(lines) && nextLineId == old(nextLineId)
      ensures categories == old(categories) && products == old(products)
      ensures orders == old(orders) && nextOrderId == old(nextOrderId)
      ensures shopAddresses == old(shopAddresses) && statuses == old(statuses)
    {
      match ActiveCartIndex(carts, user) {
        case Some(k) =>
          cart := carts[k].id;
          assert carts[k] in carts;
        case None =>
          cart := nextCartId;
          var carts' := carts + [Cart(cart, user, CartIsPurchaseDefault)];
          CreateCartKeepsValid(carts, nextCartId, user);
          LinesValidForMoreCarts(lines, carts, carts', nextLineId);
          OrdersValidForMoreCarts(orders, carts, carts', nextOrderId);
          assert carts'[|carts|] in carts';
          carts, nextCartId := carts', nextCartId + 1;
      }
    }

    /**
     * `CartProduct.objects.get_or_create(cart=…, product_id=…, defaults={'amount': added})`,
     * then, for an existing line, `amount += added`. Creating a line for a product key that
     * names no product is refused and writes nothing.
     */
    method AddLine(cart: int, product: int, added: int) returns (r: Result<CartProduct, Failure>)
      requires Valid() && HasCart(carts, cart)
      modifies this
      ensures Valid()
      ensures match LineIndex(old(lines), cart, product)
        case Some(j) =>
          && r == Ok(old(lines)[j].(amount := old(lines)[j].amount + added))
          && lines == old(lines)[j := r.value] && nextLineId == old(nextLineId)
        case None =>
          if HasProduct(products, product) then
            && r == Ok(CartProduct(old(nextLineId), added, product, cart))
            && lines == old(lines) + [r.value] && nextLineId == old(nextLineId) + 1
          else
            r == Err(Refused) && lines == old(lines) && nextLineId == old(nextLineId)
      ensures r.Ok? ==> r.value.cart == cart && r.value.product == product && r.value in lines
      ensures carts == old(carts) && nextCartId == old(nextCartId)
      ensures categories == old(categories) && products == old(products)
      ensures orders == old(orders) && nextOrderId == old(nextOrderId)
      ensures shopAddresses == old(shopAddresses) && statuses == old(statuses)
    {
      match LineIndex(lines, cart, product) {
        case Some(j) =>
          var line := lines[j].(amount := lines[j].amount + added);
          UpdateLineKeepsValid(lines, carts, nextLineId, j, line.amount);
          assert lines[j] in lines;
          lines := lines[j := line];
          assert lines[j] == line;
          forall l | l in lines ensures HasProduct(products, l.product) {
            if l != line { assert l in old(lines); }
          }
          r := Ok(line);
        case None =>
          match FirstIndex(products, (p: Product) => p.id == product) {
            case None =>
              NoFirstIndexNoRow(products, (p: Product) => p.id == product);
              r := Err(Refused);
            case Some(i) =>
              assert products[i] in products;
              var line := CartProduct(nextLineId, added, product, cart);
              AddLineKeepsValid(lines, carts, nextLineId, line);
              lines, nextLineId := lines + [line], nextLineId + 1;
              assert lines[|lines| - 1] == line;
              forall l | l in lines ensures HasProduct(products, l.product) {
                if l != line { assert l in old(lines); }
              }
              r := Ok(line);
          }
      }
    }

    /**
     * Add `amount` (1 when the request gives none; never checked to be positive) of
     * `product` to the user's active cart, creating the cart if there is none: an
     * existing line for the product grows by `amount`, otherwise one new line is added.
     * A new line for a missing product is refused, after the cart was created.
     */
    method AddToCart(user: int, product: int, amount: Option<int>) returns (r: Result<CartProduct, Failure>)
      requires Valid()
      modifies this
      ensures Valid()
      ensures match ActiveCartIndex(old(carts), user)
        case Some(k) =>
          carts == old(carts) && nextCartId == old(nextCartId)
        case None =>
          && carts == old(carts) + [Cart(old(nextCartId), user, CartIsPurchaseDefault)]
          && nextCartId == old(nextCartId) + 1
      ensures ActiveCartIndex(carts, user).Some?
      ensures var cart := carts[ActiveCartIndex(carts, user).value].id;
        match LineIndex(old(lines), cart, product)
        case Some(j) =>
          && r == Ok(old(lines)[j].(amount := old(lines)[j].amount + amount.GetOr(1)))
          && lines == old(lines)[j := r.value] && nextLineId == old(nextLineId)
        case None =>
          if HasProduct(products, product) then
            && r == Ok(CartProduct(old(nextLineId), amount.GetOr(1), product, cart))
            && lines == old(lines) + [r.value] && nextLineId == old(nextLineId) + 1
          else
            r == Err(Refused) && lines == old(lines) && nextLineId == old(nextLineId)
      ensures r.Ok? ==> r.value.product == product && r.value in lines
      ensures categories == old(categories) && products == old(products)
      ensures orders == old(orders) && nextOrderId == old(nextOrderId)
      ensures shopAddresses == old(shopAddresses) && statuses == old(statuses)
    {
      var cart := ActiveCart(user);
      r := AddLine(cart, product, amount.GetOr(1));
    }

    /** The lines of the user's active cart in key order, or none when there is no active cart. */
    method ListCart(user: int) returns (r: seq<CartProduct>)
      ensures ActiveCartIndex(carts, user).None? ==> r == []
      ensures ActiveCartIndex(carts, user).Some? ==>
        forall l :: l in r <==> l in lines && l.cart == carts[ActiveCartIndex(carts, user).value].id
      ensures ActiveCartIndex(carts, user).Some? ==> r == LinesOfCart(lines, carts[ActiveCartIndex(carts, user).value].id)
    {
      match ActiveCartIndex(carts, user) {
        case None => r := [];
        case Some(k) => r := LinesOfCart(lines, carts[k].id);
      }
    }

    /** Delete the cart line with key `id`, whoever's cart it is in. */
    method RemoveLine(id: int) returns (r: Result<(), Failure>)
      requires Valid()
      modifies this
      ensures Valid()
      ensures r.Ok? <==> exists l :: l in old(lines) && l.id == id
      ensures r.Err? ==> r.error == NotFound && lines == old(lines)
      ensures r.Ok? ==> lines == Filter(old(lines), (l: CartProduct) => l.id != id)
      ensures forall l :: l in lines <==> l in old(lines) && l.id != id
      ensures carts == old(carts) && orders == old(orders)
      ensures categories == old(categories) && products == old(products)
      ensures shopAddresses == old(shopAddresses) && statuses == old(statuses)
      ensures nextCartId == old(nextCartId) && nextLineId == old(nextLineId) && nextOrderId == old(nextOrderId)
    {
      match FirstIndex(lines, (l: CartProduct) => l.id == id) {
        case None =>
          r := Err(NotFound);
        case Some(k) =>
          assert lines[k] in lines;
          FilterLinesKeepsValid(lines, carts, carts, nextLineId, (l: CartProduct) => l.id != id);
          lines := Filter(lines, (l: CartProduct) => l.id != id);
          r := Ok(());
      }
    }

    /** The writes of a successful order placement, for the active cart at index `k`. */
    method Checkout(user: int, k: nat, data: OrderPayload, now: Timestamp) returns (order: Order)
      requires Valid() && k < |carts| && !carts[k].isPurchase && carts[k].user == user
      requires ShopKeyResolves(shopAddresses, data.shopAddressId)
      modifies this
      ensures Valid()
      ensures order == NewOrder(old(nextOrderId), user, old(carts)[k].id, now, data)
      ensures orders == old(orders) + [order] && nextOrderId == old(nextOrderId) + 1
      ensures carts == Purchase(old(carts), k, old(nextCartId)) && nextCartId == old(nextCartId) + 1
      ensures lines == old(lines) && nextLineId == old(nextLineId)
      ensures categories == old(categories) && products == old(products)
      ensures shopAddresses == old(shopAddresses) && statuses == old(statuses)
    {
      order := NewOrder(nextOrderId, user, carts[k].id, now, data);
      PlaceOrderKeepsValid(carts, lines, orders, nextCartId, nextLineId, nextOrderId, k, order);
      forall o | o in orders + [order]
        ensures ShopKeyResolves(shopAddresses, o.shopAddress) && StatusKeyResolves(statuses, o.deliveryStatus)
      {
        if o != order { assert o in orders; }
      }
      orders, nextOrderId := orders + [order], nextOrderId + 1;
      carts, nextCartId := Purchase(carts, k, nextCartId), nextCartId + 1;
    }

    /**
     * Place an order from the user's active cart: fail if there is none, then fail if
     * the payload is invalid, both before any write; otherwise create the order (no
     * delivery status yet), mark the cart purchased and create a fresh active cart. An
     * order naming a pickup point that does not exist is refused at the first write, so
     * nothing changes.
     */
    method PlaceOrder(user: int, payload: OrderPayload, now: Timestamp) returns (r: Result<Order, Failure>)
      requires Valid()
      modifies this
      ensures Valid()
      ensures ActiveCartIndex(old(carts), user).None? ==> r == Err(NoActiveCart)
      ensures ActiveCartIndex(old(carts), user).Some? && IsValid(payload).Err? ==>
        r == Err(Invalid(IsValid(payload).error))
      ensures r == Err(Refused) <==>
        ActiveCartIndex(old(carts), user).Some? && IsValid(payload).Ok? && !ShopKeyResolves(shopAddresses, payload.shopAddressId)
      ensures r.Ok? <==>
        ActiveCartIndex(old(carts), user).Some? && IsValid(payload).Ok? && ShopKeyResolves(shopAddresses, payload.shopAddressId)
      ensures r.Err? ==>
        carts == old(carts) && orders == old(orders) && nextCartId == old(nextCartId) && nextOrderId == old(nextOrderId)
      ensures r.Ok? ==>
        && ActiveCartIndex(old(carts), user).Some? && IsValid(payload).Ok?
        && var k := ActiveCartIndex(old(carts), user).value;
        && r.value == NewOrder(old(nextOrderId), user, old(carts)[k].id, now, payload)
        && orders == old(orders) + [r.value] && nextOrderId == old(nextOrderId) + 1
        && carts == Purchase(old(carts), k, old(nextCartId))
        && nextCartId == old(nextCartId) + 1
      ensures r.Ok? ==>
        && r.value.user == user && r.value.deliveryStatus.None?
        && r.value.deliveryAddress == payload.deliveryAddress && r.value.shopAddress == payload.shopAddressId
        && r.value.deliveryPhoneNumber == payload.deliveryPhoneNumber && Some(r.value.deliveryType) == payload.deliveryType
      ensures lines == old(lines) && nextLineId == old(nextLineId)
      ensures categories == old(categories) && products == old(products)
      ensures shopAddresses == old(shopAddresses) && statuses == old(statuses)
    {
      match ActiveCartIndex(carts, user) {
        case None =>
          r := Err(NoActiveCart);
        case Some(k) =>
          match IsValid(payload) {
            case Err(e) =>
              r := Err(Invalid(e));
            case Ok(data) =>
              if data.shopAddressId.Some? && FirstIndex(shopAddresses, (a: ShopAddress) => a.id == data.shopAddressId.value).None? {
                NoFirstIndexNoRow(shopAddresses, (a: ShopAddress) => a.id == data.shopAddressId.value);
                r := Err(Refused);
              } else {
                if data.shopAddressId.Some? {
                  var i := FirstIndex(shopAddresses, (a: ShopAddress) => a.id == data.shopAddressId.value).value;
                  assert shopAddresses[i] in shopAddresses;
                }
                var order := Checkout(user, k, data, now);
                r := Ok(order);
              }
          }
      }
    }

    /**
     * Edit an order: fail if it does not exist or the payload is invalid; otherwise
     * every field the payload gives replaces the stored one and every absent field keeps
     * its value. The merged order is not validated again; saving it is refused, with no
     * change, when its pickup point does not exist.
     */
    method EditOrder(id: int, payload: OrderPayload) returns (r: Result<Order, Failure>)
      requires Valid()
      modifies this
      ensures Valid()
      ensures FirstIndex(old(orders), (o: Order) => o.id == id).None? ==> r == Err(NotFound)
      ensures FirstIndex(old(orders), (o: Order) => o.id == id).Some? && IsValid(payload).Err? ==>
        r == Err(Invalid(IsValid(payload).error))
      ensures r == Err(Refused) <==>
        FirstIndex(old(orders), (o: Order) => o.id == id).Some? && IsValid(payload).Ok? &&
        !ShopKeyResolves(shopAddresses, payload.shopAddressId)
      ensures r.Ok? <==>
        FirstIndex(old(orders), (o: Order) => o.id == id).Some? && IsValid(payload).Ok? &&
        ShopKeyResolves(shopAddresses, payload.shopAddressId)
      ensures r.Err? ==> orders == old(orders)
      ensures r.Ok? ==>
        && IsValid(payload).Ok?
        && FirstIndex(old(orders), (o: Order) => o.id == id).Some?
        && var k := FirstIndex(old(orders), (o: Order) => o.id == id).value;
        && r.value == Merge(old(orders)[k], payload)
        && orders == old(orders)[k := r.value]
        && r.value.id == id && r.value.cart == old(orders)[k].cart && r.value.user == old(orders)[k].user
        && r.value.date == old(orders)[k].date && r.value.deliveryStatus == old(orders)[k].deliveryStatus
        && r.value.deliveryAddress == (if payload.deliveryAddress.Some? then payload.deliveryAddress else old(orders)[k].deliveryAddress)
        && r.value.deliveryType == payload.deliveryType.GetOr(old(orders)[k].deliveryType)
        && r.value.deliveryPhoneNumber == (if payload.deliveryPhoneNumber.Some? then payload.deliveryPhoneNumber else old(orders)[k].deliveryPhoneNumber)
        && r.value.shopAddress == (if payload.shopAddressId.Some? then payload.shopAddressId else old(orders)[k].shopAddress)
      ensures carts == old(carts) && lines == old(lines)
      ensures categories == old(categories) && products == old(products)
      ensures shopAddresses == old(shopAddresses) && statuses == old(statuses)
      ensures nextCartId == old(nextCartId) && nextLineId == old(nextLineId) && nextOrderId == old(nextOrderId)
    {
      match FirstIndex(orders, (o: Order) => o.id == id) {
        case None =>
          r := Err(NotFound);
        case Some(k) =>
          match IsValid(payload) {
            case Err(e) =>
              r := Err(Invalid(e));
            case Ok(data) =>
              var merged := Merge(orders[k], data);
              assert orders[k] in orders;
              if merged.shopAddress.Some? && FirstIndex(shopAddresses, (a: ShopAddress) => a.id == merged.shopAddress.value).None? {
                NoFirstIndexNoRow(shopAddresses, (a: ShopAddress) => a.id == merged.shopAddress.value);
                r := Err(Refused);
              } else {
                if merged.shopAddress.Some? {
                  var i := FirstIndex(shopAddresses, (a: ShopAddress) => a.id == merged.shopAddress.value).value;
                  assert shopAddresses[i] in shopAddresses;
                }
                var orders' := orders[k := merged];
                UpdateKeepsIds(orders, OrderId, nextOrderId, k, merged);
                forall o | o in orders'
                  ensures HasPurchasedCart(carts, o.cart)
                  ensures ShopKeyResolves(shopAddresses, o.shopAddress) && StatusKeyResolves(statuses, o.deliveryStatus)
                {
                  var i :| 0 <= i < |orders'| && orders'[i] == o;
                  assert orders[i] in orders;
                }
                orders := orders';
                r := Ok(merged);
              }
          }
      }
    }

    /** Delete an order; its cart and the cart's lines stay. */
    method DeleteOrder(id: int) returns (r: Result<(), Failure>)
      requires Valid()
      modifies this
      ensures Valid()
      ensures r.Ok? <==> exists o :: o in old(orders) && o.id == id
      ensures r.Err? ==> r.error == NotFound && orders == old(orders)
      ensures r.Ok? ==> orders == Filter(old(orders), (o: Order) => o.id != id)
      ensures carts == old(carts) && lines == old(lines)
      ensures categories == old(categories) && products == old(products)
      ensures shopAddresses == old(shopAddresses) && statuses == old(statuses)
      ensures nextCartId == old(nextCartId) && nextLineId == old(nextLineId) && nextOrderId == old(nextOrderId)
    {
      match FirstIndex(orders, (o: Order) => o.id == id) {
        case None =>
          r := Err(NotFound);
        case Some(k) =>
          assert orders[k] in orders;
          FilterOrdersKeepsValid(orders, carts, carts, nextOrderId, (o: Order) => o.id != id);
          orders := Filter(orders, (o: Order) => o.id != id);
          r := Ok(());
      }
    }

    /** Delete a cart: its lines and every order on it go with it (CASCADE). */
    method DeleteCart(id: int) returns (r: Result<(), Failure>)
      requires Valid()
      modifies this
      ensures Valid()
      ensures r.Ok? <==> exists c :: c in old(carts) && c.id == id
      ensures r.Err? ==> r.error == NotFound && carts == old(carts) && lines == old(lines) && orders == old(orders)
      ensures r.Ok? ==>
        && carts == Filter(old(carts), (c: Cart) => c.id != id)
        && lines == Filter(old(lines), (l: CartProduct) => l.cart != id)
        && orders == Filter(old(orders), (o: Order) => o.cart != id)
      ensures categories == old(categories) && products == old(products)
      ensures shopAddresses == old(shopAddresses) && statuses == old(statuses)
      ensures nextCartId == old(nextCartId) && nextLineId == old(nextLineId) && nextOrderId == old(nextOrderId)
    {
      match FirstIndex(carts, (c: Cart) => c.id == id) {
        case None =>
          r := Err(NotFound);
        case Some(k) =>
          assert carts[k] in carts;
          DeleteCartKeepsValid(carts, lines, orders, nextCartId, nextLineId, nextOrderId, id);
          carts := Filter(carts, (c: Cart) => c.id != id);
          lines := Filter(lines, (l: CartProduct) => l.cart != id);
          orders := Filter(orders, (o: Order) => o.cart != id);
          assert CartsValid(carts, nextCartId);
          assert LinesValid(lines, carts, nextLineId);
          assert OrdersValid(orders, carts, nextOrderId);
          r := Ok(());
      }
    }

    /** Delete a product: the cart lines of the product go with it (CASCADE). */
    method DeleteProduct(id: int) returns (r: Result<(), Failure>)
      requires Valid()
      modifies this
      ensures Valid()
      ensures r.Ok? <==> exists p :: p in old(products) && p.id == id
      ensures r.Err? ==> r.error == NotFound && products == old(products) && lines == old(lines)
      ensures r.Ok? ==>
        && products == Filter(old(products), (p: Product) => p.id != id)
        && lines == Filter(old(lines), (l: CartProduct) => l.product != id)
      ensures carts == old(carts) && orders == old(orders) && categories == old(categories)
      ensures shopAddresses == old(shopAddresses) && statuses == old(statuses)
      ensures nextCartId == old(nextCartId) && nextLineId == old(nextLineId) && nextOrderId == old(nextOrderId)
    {
      match FirstIndex(products, (p: Product) => p.id == id) {
        case None =>
          r := Err(NotFound);
        case Some(k) =>
          assert products[k] in products;
          FilterKeepsIdsIncreasing(products, (p: Product) => p.id != id, ProductId);
          FilterLinesKeepsValid(lines, carts, carts, nextLineId, (l: CartProduct) => l.product != id);
          products := Filter(products, (p: Product) => p.id != id);
          lines := Filter(lines, (l: CartProduct) => l.product != id);
          r := Ok(());
      }
    }

    /**
     * Delete a category: its products go with it, and with them their cart lines
     * (CASCADE, twice).
     */
    method DeleteCategory(id: int) returns (r: Result<(), Failure>)
      requires Valid()
      modifies this
      ensures Valid()
      ensures r.Ok? <==> exists c :: c in old(categories) && c.id == id
      ensures r.Err? ==> r.error == NotFound && categories == old(categories) && products == old(products) && lines == old(lines)
      ensures r.Ok? ==>
        && categories == Filter(old(categories), (c: Category) => c.id != id)
        && products == Filter(old(products), (p: Product) => p.category != id)
        && lines == LinesWithout(old(lines), ProductsIn(old(products), id))
      ensures carts == old(carts) && orders == old(orders)
      ensures shopAddresses == old(shopAddresses) && statuses == old(statuses)
      ensures nextCartId == old(nextCartId) && nextLineId == old(nextLineId) && nextOrderId == old(nextOrderId)
    {
      match FirstIndex(categories, (c: Category) => c.id == id) {
        case None =>
          r := Err(NotFound);
        case Some(k) =>
          assert categories[k] in categories;
          DeleteCategoryKeepsValid(categories, products, shopAddresses, statuses, lines, carts, nextLineId, id);
          categories, products, lines :=
            Filter(categories, (c: Category) => c.id != id),
            Filter(products, (p: Product) => p.category != id),
            LinesWithout(lines, ProductsIn(products, id));
          r := Ok(());
      }
    }

    /** Delete a pickup point, unless an order refers to it (PROTECT). */
    method DeleteShopAddress(id: int) returns (r: Result<(), Failure>)
      requires Valid()
      modifies this
      ensures Valid()
      ensures r == Err(NotFound) <==> !exists a :: a in old(shopAddresses) && a.id == id
      ensures r == Err(Protected) <==>
        (exists a :: a in old(shopAddresses) && a.id == id) && exists o :: o in orders && o.shopAddress == Some(id)
      ensures r.Err? ==> r.error in {NotFound, Protected} && shopAddresses == old(shopAddresses)
      ensures r.Ok? ==> shopAddresses == Filter(old(shopAddresses), (a: ShopAddress) => a.id != id)
      ensures carts == old(carts) && lines == old(lines) && orders == old(orders)
      ensures categories == old(categories) && products == old(products) && statuses == old(statuses)
      ensures nextCartId == old(nextCartId) && nextLineId == old(nextLineId) && nextOrderId == old(nextOrderId)
    {
      match FirstIndex(shopAddresses, (a: ShopAddress) => a.id == id) {
        case None =>
          r := Err(NotFound);
        case Some(k) =>
          assert shopAddresses[k] in shopAddresses;
          match FirstIndex(orders, (o: Order) => o.shopAddress == Some(id)) {
            case Some(j) =>
              assert orders[j] in orders;
              r := Err(Protected);
            case None =>
              FilterKeepsIdsIncreasing(shopAddresses, (a: ShopAddress) => a.id != id, ShopAddressId);
              shopAddresses := Filter(shopAddresses, (a: ShopAddress) => a.id != id);
              r := Ok(());
          }
      }
    }

    /** Delete a delivery status, unless an order refers to it (PROTECT). */
    method DeleteDeliveryStatus(id: int) returns (r: Result<(), Failure>)
      requires Valid()
      modifies this
      ensures Valid()
      ensures r == Err(NotFound) <==> !exists d :: d in old(statuses) && d.id == id
      ensures r == Err(Protected) <==>
        (exists d :: d in old(statuses) && d.id == id) && exists o :: o in orders && o.deliveryStatus == Some(id)
      ensures r.Err? ==> r.error in {NotFound, Protected} && statuses == old(statuses)
      ensures r.Ok? ==> statuses == Filter(old(statuses), (d: DeliveryStatus) => d.id != id)
      ensures carts == old(carts) && lines == old(lines) && orders == old(orders)
      ensures categories == old(categories) && products == old(products) && shopAddresses == old(shopAddresses)
      ensures nextCartId == old(nextCartId) && nextLineId == old(nextLineId) && nextOrderId == old(nextOrderId)
    {
      match FirstIndex(statuses, (d: DeliveryStatus) => d.id == id) {
        case None =>
          r := Err(NotFound);
        case Some(k) =>
          assert statuses[k] in statuses;
          match FirstIndex(orders, (o: Order) => o.deliveryStatus == Some(id)) {
            case Some(j) =>
              assert orders[j] in orders;
              r := Err(Protected);
            case None =>
              FilterKeepsIdsIncreasing(statuses, (d: DeliveryStatus) => d.id != id, StatusId);
              statuses := Filter(statuses, (d: DeliveryStatus) => d.id != id);
              r := Ok(());
          }
      }
    }
  }

  /** A store with one category, one product, one shop address and one delivery status. */
  method Sample() returns (s: Store)
    ensures fresh(s) && s.Valid()
    ensures s.categories == [Category(1, "Phones")] && s.products == [Product(1, "X1", 19900, None, "", 1)]
    ensures s.shopAddresses == [ShopAddress(1, "Nezavisimosti 1")] && s.statuses == [DeliveryStatus(1, "Packed")]
    ensures s.carts == [] && s.lines == [] && s.orders == []
    ensures s.nextCartId == 1 && s.nextLineId == 1 && s.nextOrderId == 1
  {
    s := new Store([Category(1, "Phones")], [Product(1, "X1", 19900, None, "", 1)],
                   [ShopAddress(1, "Nezavisimosti 1")], [DeliveryStatus(1, "Packed")]);
  }

  /** Adding the same product twice to a fresh store lands on one line with the amounts summed. */
  method RepeatedAdd() returns (first: Result<CartProduct, Failure>, second: Result<CartProduct, Failure>)
    ensures first.Ok? && second.Ok?
    ensures first.value.amount == 2 && second.value.amount == 5
    ensures second.value.id == first.value.id && second.value.cart == first.value.cart
    ensures second.value.product == first.value.product
  {
    var s := Sample();
    assert ActiveCartIndex(s.carts, 7) == None;
    first := s.AddToCart(7, 1, Some(2));
    assert s.carts == [Cart(1, 7, false)];
    assert LineIndex([], 1, 1) == None;
    assert s.products[0] in s.products;
    assert first == Ok(CartProduct(1, 2, 1, 1)) && s.lines == [first.value];
    assert ActiveCartIndex(s.carts, 7) == Some(0);
    assert LineIndex(s.lines, 1, 1) == Some(0);
    second := s.AddToCart(7, 1, Some(3));
  }

  /** The sample store after user 7 put one unit of product 1 into a new cart. */
  method SampleWithCart() returns (s: Store)
    ensures fresh(s) && s.Valid()
    ensures s.carts == [Cart(1, 7, false)] && s.lines == [CartProduct(1, 1, 1, 1)] && s.orders == []
    ensures s.nextCartId == 2 && s.shopAddresses == [ShopAddress(1, "Nezavisimosti 1")]
  {
    s := Sample();
    assert ActiveCartIndex(s.carts, 7) == None;
    assert s.products[0] in s.products;
    var line := s.AddToCart(7, 1, None);
    assert s.carts == [Cart(1, 7, false)] && s.nextCartId == 2;
    assert LineIndex([], 1, 1) == None;
  }

  /**
   * Placing a pickup order from a fresh store's only cart: the order refers to that cart,
   * has no delivery status yet, and the cart listed afterwards is the new, empty one.
   */
  method PickupThenList() returns (placed: Result<Order, Failure>, after: seq<CartProduct>)
    ensures placed.Ok? && placed.value.cart == 1 && placed.value.user == 7 && placed.value.deliveryType
    ensures placed.value.shopAddress == Some(1) && placed.value.deliveryStatus.None?
    ensures after == []
  {
    var s := SampleWithCart();
    var payload := OrderPayload(None, Some(true), None, Some(1));
    assert FieldsValid(payload) && DeliveryModeConsistent(payload);
    assert IsValid(payload).Ok? && ActiveCartIndex(s.carts, 7) == Some(0);
    assert s.shopAddresses[0] in s.shopAddresses;
    placed := s.PlaceOrder(7, payload, 0);
    assert placed.Ok?;
    assert Purchase([Cart(1, 7, false)], 0, 2) == [Cart(1, 7, true), Cart(2, 7, false)];
    assert s.carts == [Cart(1, 7, true), Cart(2, 7, false)];
    assert ActiveCartIndex(s.carts, 7) == Some(1);
    assert LinesOfCart([CartProduct(1, 1, 1, 1)], 2) == [];
    after := s.ListCart(7);
  }
}
