# techstore: the cart and order core, modelled in Dafny

techstore is a Django REST shop. It has a catalogue (categories, products, pickup
addresses, delivery statuses), a per-user cart built up line by line, and orders
placed from that cart. This project models the part of it with real logic:

- **Order validation** (`Serializers`, `Phone`):
  - the field stage of `OrderSerializer`: a required delivery type, maximum lengths and the phone validator;
  - the six ordered checks of `OrderSerializer.validate`;
  - the phone format of `validate_deliveryPhoneNumber`, written as a hand-written scanner and proved equal to a declarative grammar of the same regular language;
  - the uniqueness validator on `ProductSerializer.name`.
- **The cart and order handlers** (`Shop.Store`): a class holding the tables as
  sequences of rows in primary-key order, with one method per handler.
  - Add to cart is the two `get_or_create` calls followed by the amount increase.
  - Listing the cart, removing a line, placing an order and editing an order are each one method.
  - Every method states its whole new state and keeps the class invariant `Valid()`:
    - increasing keys below each table's next key;
    - at most one active cart per user;
    - at most one line per product in a cart;
    - every line on an existing cart and for an existing product;
    - every order on a purchased cart, with its pickup point and delivery status, where given, existing;
    - every product in an existing category.
  - A write whose foreign key names no row is refused (`Refused`) and changes nothing, as the database refuses it with an integrity error: a new line for a missing product, and an order, created or saved, naming a missing pickup point.
- **Record shapes and delete rules** (`Models`, and the delete methods of `Shop.Store`):
  - nullable columns are `Option`s, with the column defaults;
  - each foreign key's `on_delete` rule is carried out by the store's deletes: CASCADE removes the dependent rows, PROTECT refuses the delete and changes nothing.

Files: `wrappers.dfy` (Option, Result), `models.dfy`, `tables.dfy` (first-match and
filter queries on a table), `phone.dfy`, `serializers.dfy`, `store.dfy`.

Four facts about the code that the model keeps as they are:

- Only `ShopAddress` and `DeliveryStatus` are protected from deletion. Deleting a category or a product cascades to the rows that depend on it.
- Product names are not unique in the tables; only the serializer's validator checks them (`Shop.DuplicateNamesAllowed`).
- A cart line's amount is never checked to be positive.
- An order's cart is a plain foreign key, not a one-to-one link.

## Model

| member | source | states |
|---|---|---|
| Serializers.Validate | techstore/shop/serializers.py:57-74 | accepts iff the delivery-mode rule holds (pickup: no address and a shop; home delivery: an address and no shop; no type: nothing to check), returns the payload unchanged, and otherwise reports the message of the first failing check |
| Serializers.PickupRule | techstore/shop/serializers.py:62-65 | with pickup, validation passes iff the address is absent and the shop is present |
| Serializers.HomeDeliveryRule | techstore/shop/serializers.py:66-71 | with home delivery, validation passes iff the address is present and the shop is absent |
| Serializers.PickupWithAddressAndNoShop | techstore/shop/serializers.py:62-65 | pickup with an address and no shop reports "deliveryAddress must be Null if deliveryType is True": the first check wins |
| Serializers.LastCheckUnreachable | techstore/shop/serializers.py:72-73 | the sixth check repeats the second, so its message is never reported |
| Serializers.ValidatePhoneNumber | techstore/shop/serializers.py:76-81 | succeeds iff the number is in the phone grammar, returning it unchanged (and then at most 20 characters); otherwise the format message |
| Serializers.NoFieldErrorsIffValid | techstore/shop/serializers.py:48-50 | the field stage reports no error iff the type is given, the address has at most 150 characters and the phone number is in the grammar |
| Serializers.IsValid | techstore/shop/serializers.py:46-74 | succeeds iff the fields are valid and the delivery-mode rule holds, returning the payload; field errors only when a field is wrong; the cross-field message only after every field passed |
| Serializers.NameTaken | techstore/shop/serializers.py:11 | true iff some product other than the instance being updated has the name |
| Serializers.ValidateProductName | techstore/shop/serializers.py:11 | accepts the name unchanged iff every product with that name is the instance being updated; otherwise the uniqueness message |
| Serializers.UpdateKeepingNameRejected | techstore/shop/views.py:36-39 | the update handler builds the serializer without an instance, so an update that keeps a product's own name is rejected; with the instance it would pass when no other product has the name |
| Phone.MatchesIffGrammar | techstore/shop/serializers.py:77-78 | the scanner accepts exactly the strings of the grammar `80`/`+375`, optional separator, `dd` or `(dd)`, then groups of 3, 2, 2 digits each after an optional separator, nothing else |
| Phone.AcceptedLength | techstore/shop/serializers.py:77 | every accepted number has 11 to 19 characters, so it fits the 20-character column |
| Phone.InternationalExampleAccepted | techstore/shop/serializers.py:81 | the example `+375299999999` from the error message is accepted |
| Phone.NationalExampleAccepted | techstore/shop/serializers.py:81 | the example `80299999999` from the error message is accepted |
| Phone.GroupedExampleAccepted | techstore/shop/serializers.py:77 | `+375 (29) 999-99-99`, with parentheses, a space and hyphens, is accepted |
| Phone.ShortExampleRejected | techstore/shop/serializers.py:77-78 | `123456` is rejected |
| Tables.FirstIndex | techstore/shop/views.py:94 | `.filter(...).first()`: the first matching row in key order, none before it matches; none iff no row matches |
| Tables.Filter | techstore/shop/views.py:96 | `.filter(...)` and the rows a delete keeps: a row is in the result iff it is in the table and matches; never more rows than the table |
| Shop.CreateCartKeepsValid | techstore/shop/views.py:106-109 | creating a cart for a user without an active one keeps the cart invariants and makes the new cart that user's active cart; no cart disappears |
| Shop.UpdateLineKeepsValid | techstore/shop/views.py:115-117 | changing a line's amount keeps the line invariants |
| Shop.AddLineKeepsValid | techstore/shop/views.py:110-114 | adding a line for a product the cart has none for, with the next key, keeps one line per product in a cart |
| Shop.CheckoutKeepsValid | techstore/shop/views.py:218-223 | purchasing the active cart and creating a fresh one leaves exactly one active cart for the user, the fresh one; the old cart is purchased and no cart disappears |
| Shop.Purchase | techstore/shop/views.py:218-223 | the carts after checkout: the old cart, with its key and user, marked purchased; a new unpurchased cart for the same user with the next key appended; every other cart unchanged |
| Shop.FreshCartHasNoLines | techstore/shop/views.py:220-223 | a cart with a key no cart had yet has no lines |
| Shop.PlaceOrderKeepsValid | techstore/shop/views.py:213-223 | after an order is placed from the active cart, every invariant still holds, the user's only active cart is the fresh one and it has no lines |
| Shop.DeleteCartKeepsValid | techstore/shop/models.py:40-49 | removing a cart together with its lines and its orders (CASCADE) keeps the cart, line and order invariants |
| Shop.DeleteCategoryKeepsValid | techstore/shop/models.py:11 | removing a category, its products and their lines (CASCADE twice) keeps the catalogue and line invariants |
| Shop.DuplicateNamesAllowed | techstore/shop/models.py:7 | the tables admit two products with one name, and the serializer's validator rejects that name for a new product |
| Shop.MergeConsistency | techstore/shop/views.py:237-242 | after a validated edit, the order obeys the delivery-mode rule iff it does not keep the field of the other mode (an address under pickup, a shop under home delivery) |
| Shop.EditNotRevalidated | techstore/shop/views.py:235-242 | a valid home-delivery order switched to pickup by a valid payload keeps its address and breaks the delivery-mode rule |
| Shop.Store.ActiveCart | techstore/shop/views.py:106-109 | returns the user's active cart, or creates one (not purchased, next key) when there is none; nothing else changes |
| Shop.Store.AddLine | techstore/shop/views.py:110-117 | an existing line of the cart for the product grows by the amount in place; otherwise exactly one new line with that amount is appended, or, when no product has the key, the insert is refused and nothing changes; no other line changes |
| Shop.Store.AddToCart | techstore/shop/views.py:103-119 | the active cart is reused or created, then the line of that cart is grown or created with the given amount or 1, or refused for a missing product (the created cart stays); a returned line is in the user's active cart |
| Shop.Store.ListCart | techstore/shop/views.py:94-100 | exactly the lines of the user's active cart, or none when there is no active cart; changes nothing |
| Shop.Store.RemoveLine | techstore/shop/views.py:123-126 | removes exactly the line with the key, whoever's cart it is in; NotFound and no change when there is none |
| Shop.Store.Checkout | techstore/shop/views.py:213-223 | for an order whose pickup point exists: appends the new order (user, cart, payload fields, no status) and applies `Purchase` to the carts; lines and catalogue unchanged |
| Shop.Store.PlaceOrder | techstore/shop/views.py:207-224 | NoActiveCart without an active cart, then the validation error for an invalid payload, then Refused for a pickup point that does not exist, each with no change; success iff there is an active cart, the payload is valid and its pickup point exists, and then the checkout |
| Shop.Store.EditOrder | techstore/shop/views.py:233-243 | NotFound, then the validation error, then Refused when the saved order would name a missing pickup point, each with no change; success iff the order exists, the payload is valid and its pickup point exists, and then the given fields replace the stored ones, absent ones keep theirs, and key, cart, user, date and status never change |
| Shop.Store.DeleteOrder | techstore/shop/views.py:245-248 | removes exactly the order with the key, leaving its cart and the cart's lines; NotFound and no change when there is none |
| Shop.Store.DeleteCart | techstore/shop/models.py:40-49 | removes the cart, its lines and every order on it (CASCADE); NotFound and no change when there is none |
| Shop.Store.DeleteProduct | techstore/shop/views.py:49-52 | removes the product and its cart lines (CASCADE); NotFound and no change when there is none |
| Shop.Store.DeleteCategory | techstore/shop/views.py:85-88 | removes the category, its products and the lines of those products (CASCADE); NotFound and no change when there is none |
| Shop.Store.DeleteShopAddress | techstore/shop/views.py:158-161 | NotFound when absent; Protected, with no change, iff the address exists and some order uses it (PROTECT); otherwise removes exactly that address, and every order's pickup point still exists |
| Shop.Store.DeleteDeliveryStatus | techstore/shop/views.py:193-196 | NotFound when absent; Protected, with no change, iff the status exists and some order has it (PROTECT); otherwise removes exactly that status |
| Shop.RepeatedAdd | techstore/shop/views.py:110-117 | adding one product twice (amounts 2 and 3) to a fresh store gives one line whose amount is 5 |
| Shop.PickupThenList | techstore/shop/views.py:207-224 | a pickup order placed from a fresh store's cart refers to that cart and has no delivery status, and the cart listed afterwards is the new, empty one |

## Left out

- Phone.IsDigit: reads `\d` as the ASCII digits; Python's `re` also matches other Unicode decimal digits in a `str` pattern.
- Serializers.FieldErrorsOf: the CharField behaviour of the framework is not modelled. That is whitespace trimming, the rejection of blank strings, the rejection of explicit nulls, and type coercion of the boolean and integer fields. A payload field is either absent or given.
- Shop.Store.AddToCart: the amount is an integer or absent. A non-numeric amount, on which `int()` raises, is not modelled.
- Shop.Store.AddLine: the amount is an unbounded integer. The database column is a bounded integer (32 bits on the usual backends), so an amount that grows past the bound is refused there but not in the model.
- Shop.Store.AddToCart: each write is taken to commit on its own (the framework's default autocommit), so a refused line leaves the cart created before it. Under per-request transactions that cart would be rolled back too.
- Shop.Store.AddToCart: a request without a product key, which the database refuses as a null key, is not modelled; the key is always an integer.
- `Valid()` does not exclude two orders on one cart, since the cart key is a plain foreign key; the handlers create one order per purchased cart.
- Users are inputs (the id of the authenticated user). Authentication, and the CASCADE from a deleted user to its carts and orders, are not modelled.
- Each handler is one atomic step. The races of the two `get_or_create` calls and the non-atomic three writes of order placement are not modelled. "At most one active cart per user" is a class invariant, not a `MultipleObjectsReturned` error.
- The creation time `date` is a parameter (`now`) of order placement, never inspected.
- The list, create, retrieve and update handlers of products, categories, shop addresses and delivery statuses, and the list and retrieve handlers of orders, are left out. They copy fields to and from the ORM without further logic.
- HTTP responses, status codes and the serialized output, including the date format, are left out. A handler returns a `Result` whose failure is NotFound, NoActiveCart, Invalid, Protected or Refused.
- Decimal prices and image uploads are only record fields. Their validation and the maximum lengths of plain name fields are not modelled.
- URL routing and the admin registration are framework plumbing and are not part of this model.
