/**
 * The request validation of the order and product serializers: the field stage of the
 * order serializer (a required delivery type, maximum lengths, the phone format), its
 * cross-field delivery-mode rule, and the uniqueness check on a product's name.
 */
module Serializers {
  import opened Wrappers
  import opened Models
  import Phone

  const AddressMustBeNull := "deliveryAddress must be Null if deliveryType is True"
  const ShopCantBeNull := "shopAddress can't be Null if deliveryType is True"
  const AddressCantBeNull := "deliveryAddress can't be Null if deliveryType is False"
  const ShopMustBeNull := "shopAddress must be Null if deliveryType is False"
  /** The message of the last check, which no payload reaches. */
  const ShopCantBeNullLower := "shopAddress can't be null if deliveryType is True"
  const PhoneFormat := "Phone number must be entered in the format: +375299999999 or 80299999999"
  const FieldRequired := "This field is required."
  const AddressTooLong := "Ensure this field has no more than 150 characters."
  const PhoneTooLong := "Ensure this field has no more than 20 characters."
  const NameNotUnique := "This field must be unique."

  const AddressMaxLength := 150
  const PhoneMaxLength := 20

  /**
   * The writable fields of an order request, each absent (`None`) or given. Read-only
   * fields of the serializer (ids, user, cart, status, date) are ignored on input.
   */
  datatype OrderPayload = OrderPayload(
    deliveryAddress: Option<string>,
    deliveryType: Option<bool>,
    deliveryPhoneNumber: Option<string>,
    shopAddressId: Option<int>)

  /** An error attached to one field of the payload. */
  datatype FieldError = FieldError(field: string, message: string)

  /** Why a payload is rejected: errors of single fields, or the cross-field rule. */
  datatype ValidationError = FieldErrors(errors: seq<FieldError>) | NonFieldError(message: string)

  // ---------------------------------------------------------------------------------
  // Cross-field delivery rule

  /**
   * The delivery-mode rule: pickup (`true`) names a shop and no address, home delivery
   * (`false`) names an address and no shop. Without a delivery type there is nothing
   * to check.
   */
  predicate DeliveryModeConsistent(p: OrderPayload) {
    match p.deliveryType
    case Some(true) => p.deliveryAddress.None? && p.shopAddressId.Some?
    case Some(false) => p.deliveryAddress.Some? && p.shopAddressId.None?
    case None => true
  }

  /**
   * The message for a payload that breaks the rule: with pickup, an address is
   * reported before a missing shop; otherwise a missing address before a shop.
   */
  function DeliveryError(p: OrderPayload): string {
    if p.deliveryType == Some(true) then
      (if p.deliveryAddress.Some? then AddressMustBeNull else ShopCantBeNull)
    else
      (if p.deliveryAddress.None? then AddressCantBeNull else ShopMustBeNull)
  }

  /**
   * `OrderSerializer.validate`: six checks in order, the first that fails decides the
   * message. `deliveryType == 1` and `== 0` compare a bool, so an absent type passes.
   */
  function Validate(p: OrderPayload): (r: Result<OrderPayload, string>)
    ensures r.Ok? <==> DeliveryModeConsistent(p)
    ensures r.Ok? ==> r.value == p
    ensures r.Err? ==> r.error == DeliveryError(p)
  {
    var pickup, home := p.deliveryType == Some(true), p.deliveryType == Some(false);
    if pickup && p.deliveryAddress.Some? then Err(AddressMustBeNull)
    else if pickup && p.shopAddressId.None? then Err(ShopCantBeNull)
    else if p.deliveryAddress.None? && home then Err(AddressCantBeNull)
    else if p.deliveryAddress.Some? && home && p.shopAddressId.Some? then Err(ShopMustBeNull)
    else if p.shopAddressId.Some? && home then Err(ShopMustBeNull)
    else if p.shopAddressId.None? && pickup then Err(ShopCantBeNullLower)
    else Ok(p)
  }

  /** With pickup, the payload passes iff it has no address and names a shop. */
  lemma PickupRule(p: OrderPayload)
    requires p.deliveryType == Some(true)
    ensures Validate(p).Ok? <==> p.deliveryAddress.None? && p.shopAddressId.Some?
  {
  }

  /** With home delivery, the payload passes iff it has an address and names no shop. */
  lemma HomeDeliveryRule(p: OrderPayload)
    requires p.deliveryType == Some(false)
    ensures Validate(p).Ok? <==> p.deliveryAddress.Some? && p.shopAddressId.None?
  {
  }

  /** Pickup with an address and no shop fails the first check, not the second. */
  lemma PickupWithAddressAndNoShop(a: string)
    ensures Validate(OrderPayload(Some(a), Some(true), None, None)) == Err(AddressMustBeNull)
  {
  }

  /** The sixth check repeats the second, so its message is never reported. */
  lemma LastCheckUnreachable(p: OrderPayload)
    ensures Validate(p) != Err(ShopCantBeNullLower)
  {
  }

  // ---------------------------------------------------------------------------------
  // Field stage

  /** `validate_deliveryPhoneNumber`: the number unchanged if it is in the format. */
  function ValidatePhoneNumber(value: string): (r: Result<string, string>)
    ensures r.Ok? <==> Phone.InGrammar(value)
    ensures r.Ok? ==> r.value == value && |value| <= PhoneMaxLength
    ensures r.Err? ==> r.error == PhoneFormat
  {
    Phone.MatchesIffGrammar(value);
    if Phone.Matches(value) then
      Phone.AcceptedLength(value);
      Ok(value)
    else Err(PhoneFormat)
  }

  /**
   * The errors of the single fields, in the order the serializer declares them: the
   * address's maximum length, the required delivery type, and the phone number's
   * maximum length, checked before the phone validator runs.
   */
  function FieldErrorsOf(p: OrderPayload): seq<FieldError> {
    var address :=
      if p.deliveryAddress.Some? && |p.deliveryAddress.value| > AddressMaxLength
      then [FieldError("deliveryAddress", AddressTooLong)] else [];
    var deliveryType :=
      if p.deliveryType.None? then [FieldError("deliveryType", FieldRequired)] else [];
    var phone :=
      match p.deliveryPhoneNumber
      case None => []
      case Some(n) =>
        if |n| > PhoneMaxLength then [FieldError("deliveryPhoneNumber", PhoneTooLong)]
        else match ValidatePhoneNumber(n)
          case Ok(_) => []
          case Err(m) => [FieldError("deliveryPhoneNumber", m)];
    address + deliveryType + phone
  }

  /** The single fields a payload must have right: what the field stage accepts. */
  ghost predicate FieldsValid(p: OrderPayload) {
    && p.deliveryType.Some?
    && (p.deliveryAddress.Some? ==> |p.deliveryAddress.value| <= AddressMaxLength)
    && (p.deliveryPhoneNumber.Some? ==> Phone.InGrammar(p.deliveryPhoneNumber.value))
  }

  /** The field stage reports no error exactly when the single fields are right. */
  lemma NoFieldErrorsIffValid(p: OrderPayload)
    ensures FieldErrorsOf(p) == [] <==> FieldsValid(p)
  {
    match p.deliveryPhoneNumber
    case None =>
    case Some(n) =>
      if Phone.InGrammar(n) {
        Phone.MatchesIffGrammar(n);
        Phone.AcceptedLength(n);
      }
  }

  /**
   * `is_valid()` of the order serializer: the field stage, then `validate` only if
   * every field passed. On success the validated data is the payload itself.
   */
  function IsValid(p: OrderPayload): (r: Result<OrderPayload, ValidationError>)
    ensures r.Ok? <==> FieldsValid(p) && DeliveryModeConsistent(p)
    ensures r.Ok? ==> r.value == p
    ensures r.Err? && r.error.FieldErrors? ==> !FieldsValid(p) && r.error.errors != []
    ensures r.Err? && r.error.NonFieldError? ==> FieldsValid(p) && Validate(p) == Err(r.error.message)
  {
    NoFieldErrorsIffValid(p);
    var errors := FieldErrorsOf(p);
    if errors != [] then Err(FieldErrors(errors))
    else match Validate(p)
      case Ok(v) => Ok(v)
      case Err(m) => Err(NonFieldError(m))
  }

  // ---------------------------------------------------------------------------------
  // Product name

  /** Some product other than `instance` already has the name. */
  function NameTaken(name: string, existing: seq<Product>, instance: Option<int>): (taken: bool)
    ensures taken <==> exists i :: 0 <= i < |existing| && existing[i].name == name && instance != Some(existing[i].id)
  {
    if existing == [] then false
    else if existing[0].name == name && instance != Some(existing[0].id) then true
    else
      var rest := NameTaken(name, existing[1..], instance);
      assert rest ==> exists i :: 0 <= i < |existing| && existing[i].name == name && instance != Some(existing[i].id) by {
        if rest {
          var i :| 0 <= i < |existing[1..]| && existing[1..][i].name == name && instance != Some(existing[1..][i].id);
          assert existing[i + 1] == existing[1..][i];
        }
      }
      rest
  }

  /**
   * The uniqueness validator on the product name: the name, unless a product other
   * than the one being updated (`instance`) already has it.
   */
  function ValidateProductName(name: string, existing: seq<Product>, instance: Option<int>): (r: Result<string, string>)
    ensures r.Ok? <==> forall q :: q in existing && q.name == name ==> instance == Some(q.id)
    ensures r.Ok? ==> r.value == name
    ensures r.Err? ==> r.error == NameNotUnique
  {
    if NameTaken(name, existing, instance) then Err(NameNotUnique) else Ok(name)
  }

  /**
   * The update handler builds the serializer without an instance, so an update that
   * keeps a product's own name is rejected; with the instance it would pass as long as
   * no other product has the name.
   */
  lemma UpdateKeepingNameRejected(p: Product, existing: seq<Product>)
    requires p in existing
    ensures ValidateProductName(p.name, existing, None).Err?
    ensures (forall q :: q in existing && q.name == p.name ==> q.id == p.id) ==>
      ValidateProductName(p.name, existing, Some(p.id)) == Ok(p.name)
  {
  }
}
