/**
 * The rows of the shop's tables. A foreign key is stored as the referenced row's primary
 * key, and `Shop.Store.Valid()` says which of them name an existing row; a nullable
 * column is an `Option`. The `on_delete` rule of each foreign key is noted beside it and
 * carried out by the delete operations of `Shop.Store`.
 */
module Models {
  import opened Wrappers

  /** The moment a row was written (`auto_now_add`); the model never inspects it. */
  type Timestamp = int

  /** A product category. */
  datatype Category = Category(id: int, name: string)

  /**
   * A product. `price` is the decimal price (two places) in hundredths; `photo` is the
   * nullable path of an uploaded image. The name carries no uniqueness constraint here.
   */
  datatype Product = Product(
    id: int,
    name: string,
    price: int,
    photo: Option<string>,
    description: string,
    category: int)  // Category, CASCADE

  /** A user's cart; the user's active (current) cart is the one not yet purchased. */
  datatype Cart = Cart(
    id: int,
    user: int,  // User, CASCADE
    isPurchase: bool)

  /** A pickup point. */
  datatype ShopAddress = ShopAddress(id: int, address: string)

  /** A delivery status of an order. */
  datatype DeliveryStatus = DeliveryStatus(id: int, name: string)

  /**
   * A placed order. `deliveryType` true means pickup at `shopAddress`, false means
   * delivery to `deliveryAddress`.
   */
  datatype Order = Order(
    id: int,
    deliveryAddress: Option<string>,
    deliveryType: bool,
    deliveryPhoneNumber: Option<string>,
    date: Timestamp,
    cart: int,  // Cart, CASCADE
    user: int,  // User, CASCADE
    shopAddress: Option<int>,  // ShopAddress, PROTECT
    deliveryStatus: Option<int>)  // DeliveryStatus, PROTECT

  /** A line of a cart: `amount` units of one product. */
  datatype CartProduct = CartProduct(
    id: int,
    amount: int,
    product: int,  // Product, CASCADE
    cart: int)  // Cart, CASCADE

  /** Column defaults: a new cart is not purchased, a new order is for pickup. */
  const CartIsPurchaseDefault := false
  const OrderDeliveryTypeDefault := true

  /** The cart is `user`'s active cart: it belongs to them and is not purchased. */
  predicate IsActiveFor(c: Cart, user: int) {
    c.user == user && !c.isPurchase
  }
}
