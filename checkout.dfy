/** The checkout page: price breakdown, loyalty-point redemption, discount
    code, the shipping form validator and the order built on submission. */
module Checkout {
  import opened Common
  import opened Forms
  import CartSlice

  const ShippingFee: real := 10.0
  /** The percentage a verified discount code grants. */
  const CodeDiscountPercent: int := 15
  /** Points are redeemed in whole hundreds, 100 points per currency unit. */
  const PointsPerUnit: int := 100

  datatype Totals = Totals(subtotal: real, shipping: real, discount: real, points: real, total: real)

  /** `calculateTotals`, before formatting. `totalAmount` is the cart total,
      absent when the store holds none. */
  function CalculateTotals(totalAmount: Option<real>, discount: int, useLoyaltyPoints: bool, loyaltyPointsUsed: int): (t: Totals)
    ensures t.subtotal == totalAmount.GetOr(0.0)
    ensures t.shipping == ShippingFee
    ensures t.discount == t.subtotal * discount as real / 100.0
    ensures t.points == (if useLoyaltyPoints then loyaltyPointsUsed as real / PointsPerUnit as real else 0.0)
    ensures t.total == t.subtotal + t.shipping - t.discount - t.points
  {
    var subtotal := totalAmount.GetOr(0.0);
    var discountAmount := subtotal * discount as real / 100.0;
    var pointsDiscount := if useLoyaltyPoints then loyaltyPointsUsed as real / PointsPerUnit as real else 0.0;
    Totals(subtotal, ShippingFee, discountAmount, pointsDiscount,
           subtotal + ShippingFee - discountAmount - pointsDiscount)
  }

  /** The total for every input: the subtotal plus 10, less the code's
      percentage of the subtotal, less one unit per hundred points in use. */
  lemma TotalFormula(totalAmount: Option<real>, discount: int, use: bool, used: int)
    ensures var s := totalAmount.GetOr(0.0);
      CalculateTotals(totalAmount, discount, use, used).total
        == s + 10.0 - s * discount as real / 100.0 - (if use then used as real / 100.0 else 0.0)
  {
  }

  /** With the 15% code and redeemed points the customer pays 85% of the
      subtotal, plus shipping, minus one unit per hundred points. */
  lemma TotalWithCodeAndPoints(subtotal: real, used: int)
    ensures CalculateTotals(Some(subtotal), CodeDiscountPercent, true, used).total
         == subtotal * 0.85 + 10.0 - used as real / 100.0
  {
  }

  /** A discount and a points redemption can only lower the total below
      subtotal plus shipping. */
  lemma DiscountsNeverRaiseTotal(totalAmount: Option<real>, discount: int, use: bool, used: int)
    requires totalAmount.GetOr(0.0) >= 0.0 && discount >= 0 && used >= 0
    ensures CalculateTotals(totalAmount, discount, use, used).total <= totalAmount.GetOr(0.0) + ShippingFee
    ensures CalculateTotals(totalAmount, discount, use, used).total
         == CalculateTotals(totalAmount, 0, false, 0).total
            - CalculateTotals(totalAmount, discount, use, used).discount
            - CalculateTotals(totalAmount, discount, use, used).points
  {
    var s := totalAmount.GetOr(0.0);
    assert s * discount as real >= 0.0;
  }

  /** `Math.floor(loyaltyPoints / 100) * 100`: the largest whole hundred not
      above the balance. */
  function UsablePoints(balance: int): (r: int)
    ensures r % PointsPerUnit == 0
    ensures r <= balance < r + PointsPerUnit
    ensures balance >= PointsPerUnit ==> r >= PointsPerUnit
  {
    (balance / PointsPerUnit) * PointsPerUnit
  }

  /** The points discount obtained after opting in is a whole number of units,
      never worth more than the balance. */
  lemma RedeemedDiscountIsWholeUnits(balance: int)
    requires balance >= PointsPerUnit
    ensures var d := CalculateTotals(Some(0.0), 0, true, UsablePoints(balance)).points;
      && d == (balance / PointsPerUnit) as real
      && d * 100.0 <= balance as real
      && d >= 1.0
  {
  }

  /** The checkout form fields that can carry an error. */
  datatype CheckoutField = Name | Email | Phone | Address | City | PostalCode

  datatype CheckoutForm = CheckoutForm(
    name: string, email: string, phone: string, address: string, state: string,
    city: string, postalCode: string, country: string, paymentMethod: string)

  const NameRequired := "Name is required"
  const EmailRequired := "Email is required"
  const PhoneRequired := "Phone number is required"
  const AddressRequired := "Address is required"
  const CityRequired := "City is required"
  const PostalCodeRequired := "Postal code is required"
  const PhoneInvalid := "Please enter a valid phone number"
  const EmailInvalid := "Please enter a valid email address"

  /** The text the form holds for a field. */
  function FieldText(form: CheckoutForm, f: CheckoutField): string {
    match f
    case Name => form.name
    case Email => form.email
    case Phone => form.phone
    case Address => form.address
    case City => form.city
    case PostalCode => form.postalCode
  }

  /** The error a field ends up with, stated field by field: a non-empty phone
      that fails the pattern reports the format error in place of the required
      error, and the e-mail is only checked for guests. */
  function ExpectedError(form: CheckoutForm, isLoggedIn: bool, f: CheckoutField): (r: Option<string>)
    ensures f == Email && isLoggedIn ==> r.None?
    ensures !(f == Email && isLoggedIn) && IsBlank(FieldText(form, f)) ==> r.Some?
    ensures r.Some? && r.value != PhoneInvalid && r.value != EmailInvalid ==> IsBlank(FieldText(form, f))
    ensures r == Some(PhoneInvalid) ==> f == Phone && !PhoneValid(form.phone)
    ensures r == Some(EmailInvalid) ==> f == Email && !isLoggedIn && !EmailShape(form.email)
  {
    match f
    case Name => if IsBlank(form.name) then Some(NameRequired) else None
    case Email =>
      if isLoggedIn then None
      else if form.email != "" && !EmailShape(form.email) then Some(EmailInvalid)
      else if IsBlank(form.email) then Some(EmailRequired)
      else None
    case Phone =>
      if form.phone != "" && !PhoneValid(form.phone) then Some(PhoneInvalid)
      else if IsBlank(form.phone) then Some(PhoneRequired)
      else None
    case Address => if IsBlank(form.address) then Some(AddressRequired) else None
    case City => if IsBlank(form.city) then Some(CityRequired) else None
    case PostalCode => if IsBlank(form.postalCode) then Some(PostalCodeRequired) else None
  }

  /** The `errors` object: one optional message per field. */
  datatype CheckoutErrors = CheckoutErrors(
    name: Option<string>, email: Option<string>, phone: Option<string>,
    address: Option<string>, city: Option<string>, postalCode: Option<string>)
  {
    function Get(f: CheckoutField): Option<string> {
      match f
      case Name => name
      case Email => email
      case Phone => phone
      case Address => address
      case City => city
      case PostalCode => postalCode
    }
  }

  const NoErrors := CheckoutErrors(None, None, None, None, None, None)

  /** The error object holding each field's expected error. */
  function ExpectedErrors(form: CheckoutForm, isLoggedIn: bool): (e: CheckoutErrors)
    ensures forall f :: e.Get(f) == ExpectedError(form, isLoggedIn, f)
  {
    CheckoutErrors(
      ExpectedError(form, isLoggedIn, Name), ExpectedError(form, isLoggedIn, Email),
      ExpectedError(form, isLoggedIn, Phone), ExpectedError(form, isLoggedIn, Address),
      ExpectedError(form, isLoggedIn, City), ExpectedError(form, isLoggedIn, PostalCode))
  }

  /** The expected errors written out field by field, in the form the
      validator's two passes produce them. */
  lemma ExpectedErrorsFieldByField(form: CheckoutForm, isLoggedIn: bool)
    ensures var e := ExpectedErrors(form, isLoggedIn);
      && e.name == (if IsBlank(form.name) then Some(NameRequired) else None)
      && e.email == (if !isLoggedIn && form.email != "" && !EmailShape(form.email) then Some(EmailInvalid)
                     else if !isLoggedIn && IsBlank(form.email) then Some(EmailRequired) else None)
      && e.phone == (if form.phone != "" && !PhoneValid(form.phone) then Some(PhoneInvalid)
                     else if IsBlank(form.phone) then Some(PhoneRequired) else None)
      && e.address == (if IsBlank(form.address) then Some(AddressRequired) else None)
      && e.city == (if IsBlank(form.city) then Some(CityRequired) else None)
      && e.postalCode == (if IsBlank(form.postalCode) then Some(PostalCodeRequired) else None)
  {
  }

  /** The first half of `validateForm`: one "required" message per blank
      field, the e-mail only for guests. */
  method RequiredChecks(form: CheckoutForm, isLoggedIn: bool) returns (errors: CheckoutErrors)
    ensures errors.name == (if IsBlank(form.name) then Some(NameRequired) else None)
    ensures errors.email == (if !isLoggedIn && IsBlank(form.email) then Some(EmailRequired) else None)
    ensures errors.phone == (if IsBlank(form.phone) then Some(PhoneRequired) else None)
    ensures errors.address == (if IsBlank(form.address) then Some(AddressRequired) else None)
    ensures errors.city == (if IsBlank(form.city) then Some(CityRequired) else None)
    ensures errors.postalCode == (if IsBlank(form.postalCode) then Some(PostalCodeRequired) else None)
  {
    errors := NoErrors;
    if IsBlank(form.name) { errors := errors.(name := Some(NameRequired)); }
    if !isLoggedIn && IsBlank(form.email) { errors := errors.(email := Some(EmailRequired)); }
    if IsBlank(form.phone) { errors := errors.(phone := Some(PhoneRequired)); }
    if IsBlank(form.address) { errors := errors.(address := Some(AddressRequired)); }
    if IsBlank(form.city) { errors := errors.(city := Some(CityRequired)); }
    if IsBlank(form.postalCode) { errors := errors.(postalCode := Some(PostalCodeRequired)); }
  }

  /** `validateForm`: the required checks, then the phone and guest e-mail
      format checks, whose messages replace the required ones; the form is
      valid when no key was set. */
  method ValidateForm(form: CheckoutForm, isLoggedIn: bool) returns (ok: bool, errors: CheckoutErrors)
    ensures errors == ExpectedErrors(form, isLoggedIn)
    ensures ok <==> errors == NoErrors
  {
    errors := RequiredChecks(form, isLoggedIn);
    if form.phone != "" && !PhoneValid(form.phone) { errors := errors.(phone := Some(PhoneInvalid)); }
    if !isLoggedIn && form.email != "" && !EmailShape(form.email) { errors := errors.(email := Some(EmailInvalid)); }
    ExpectedErrorsFieldByField(form, isLoggedIn);
    ok := errors == NoErrors;
  }

  /** Name, address, city and postal code non-blank, the phone matching the
      pattern, and a guest's e-mail of the x@y.z shape. */
  predicate FormComplete(form: CheckoutForm, isLoggedIn: bool) {
    && !IsBlank(form.name) && !IsBlank(form.address) && !IsBlank(form.city) && !IsBlank(form.postalCode)
    && PhoneValid(form.phone)
    && (isLoggedIn || EmailShape(form.email))
  }

  lemma CompleteFormHasNoError(form: CheckoutForm, isLoggedIn: bool)
    requires FormComplete(form, isLoggedIn)
    ensures forall f :: ExpectedError(form, isLoggedIn, f).None?
  {
    PhoneValidNotBlank(form.phone);
    if !isLoggedIn { EmailShapeNotBlank(form.email); }
    forall f ensures ExpectedError(form, isLoggedIn, f).None? {
      match f
      case Name =>
      case Email =>
      case Phone =>
      case Address =>
      case City =>
      case PostalCode =>
    }
  }

  /** The field an incomplete form reports. */
  lemma IncompleteFormHasError(form: CheckoutForm, isLoggedIn: bool) returns (f: CheckoutField)
    requires !FormComplete(form, isLoggedIn)
    ensures ExpectedError(form, isLoggedIn, f).Some?
  {
    if !PhoneValid(form.phone) {
      f := Phone;
      if form.phone == "" {
        assert IsBlank("");
      }
    } else if !isLoggedIn && !EmailShape(form.email) {
      f := Email;
      if form.email == "" {
        assert IsBlank("");
      }
    } else if IsBlank(form.name) {
      f := Name;
    } else if IsBlank(form.address) {
      f := Address;
    } else if IsBlank(form.city) {
      f := City;
    } else {
      f := PostalCode;
    }
  }

  /** The form is accepted exactly when name, address, city and postal code
      are non-blank, the phone matches the pattern, and a guest's e-mail has
      the x@y.z shape. */
  lemma FormAcceptedIff(form: CheckoutForm, isLoggedIn: bool)
    ensures (forall f :: ExpectedError(form, isLoggedIn, f).None?) <==> FormComplete(form, isLoggedIn)
  {
    if FormComplete(form, isLoggedIn) {
      CompleteFormHasNoError(form, isLoggedIn);
    } else {
      var f := IncompleteFormHasError(form, isLoggedIn);
    }
  }

  /** The state behind the discount-code box and the loyalty checkbox. */
  class CheckoutState {
    var discountCode: string
    var discount: int
    var loyaltyPoints: int
    var useLoyaltyPoints: bool
    var loyaltyPointsUsed: int

    /** Points are only in use with a balance of at least 100, and then in
        whole hundreds; when not in use none are counted. */
    predicate Valid()
      reads this
    {
      && (useLoyaltyPoints ==>
            loyaltyPoints >= PointsPerUnit && loyaltyPointsUsed >= PointsPerUnit && loyaltyPointsUsed % PointsPerUnit == 0)
      && (!useLoyaltyPoints ==> loyaltyPointsUsed == 0)
    }

    constructor ()
      ensures discountCode == "" && discount == 0 && loyaltyPoints == 0
      ensures !useLoyaltyPoints && loyaltyPointsUsed == 0
      ensures Valid()
    {
      discountCode, discount, loyaltyPoints := "", 0, 0;
      useLoyaltyPoints, loyaltyPointsUsed := false, 0;
    }

    /** The loyalty checkbox handler. Opting in below 100 points is refused
        and changes nothing; opting in takes the usable whole hundreds;
        opting out clears the points used. */
    method ToggleLoyalty(wantToUse: bool) returns (refused: bool)
      modifies this
      ensures refused <==> wantToUse && old(loyaltyPoints) < PointsPerUnit
      ensures refused ==> useLoyaltyPoints == old(useLoyaltyPoints) && loyaltyPointsUsed == old(loyaltyPointsUsed)
      ensures !refused ==> useLoyaltyPoints == wantToUse
      ensures !refused && wantToUse ==> loyaltyPointsUsed == UsablePoints(old(loyaltyPoints))
      ensures !wantToUse ==> loyaltyPointsUsed == 0
      ensures loyaltyPoints == old(loyaltyPoints) && discount == old(discount) && discountCode == old(discountCode)
      ensures old(Valid()) ==> Valid()
    {
      if wantToUse {
        if loyaltyPoints < PointsPerUnit {
          return true;
        }
        loyaltyPointsUsed := UsablePoints(loyaltyPoints);
      } else {
        loyaltyPointsUsed := 0;
      }
      useLoyaltyPoints := wantToUse;
      refused := false;
    }

    /** The effect run when the balance changes: below 100 points the
        redemption is switched off. */
    method BalanceChanged(balance: int)
      modifies this
      ensures loyaltyPoints == balance
      ensures balance < PointsPerUnit ==> !useLoyaltyPoints && loyaltyPointsUsed == 0
      ensures balance >= PointsPerUnit ==>
        useLoyaltyPoints == old(useLoyaltyPoints) && loyaltyPointsUsed == old(loyaltyPointsUsed)
      ensures discount == old(discount) && discountCode == old(discountCode)
      ensures old(Valid()) ==> Valid()
    {
      loyaltyPoints := balance;
      if balance < PointsPerUnit {
        useLoyaltyPoints := false;
        loyaltyPointsUsed := 0;
      }
    }

    /** The outcome of `verifyDiscountCode`: nothing for an empty code,
        otherwise a 15% discount. */
    method VerifyDiscountCode()
      modifies this
      ensures discountCode == "" ==> discount == old(discount)
      ensures discountCode != "" ==> discount == CodeDiscountPercent
      ensures discountCode == old(discountCode) && loyaltyPoints == old(loyaltyPoints)
      ensures useLoyaltyPoints == old(useLoyaltyPoints) && loyaltyPointsUsed == old(loyaltyPointsUsed)
    {
      if discountCode != "" {
        discount := CodeDiscountPercent;
      }
    }
  }

  /** One line of the order request. */
  datatype OrderLine = OrderLine(productId: int, variantId: Option<int>, quantity: int, price: real)

  /** `item.productId || item.id` and `item.variantId || (item.variant ? item.variant.id : null)`. */
  function ToOrderLine(item: CartSlice.CartItem): (l: OrderLine)
    ensures l.quantity == item.quantity && l.price == item.price
    ensures l.productId == if item.productId.Some? && item.productId.value != 0 then item.productId.value else item.id
    ensures item.variantId.Some? && item.variantId.value != 0 ==> l.variantId == item.variantId
    ensures !(item.variantId.Some? && item.variantId.value != 0) ==>
      l.variantId == (if item.variant.Some? then Some(item.variant.value.id) else None)
  {
    OrderLine(
      if item.productId.Some? && item.productId.value != 0 then item.productId.value else item.id,
      if item.variantId.Some? && item.variantId.value != 0 then item.variantId
      else if item.variant.Some? then Some(item.variant.value.id) else None,
      item.quantity,
      item.price)
  }

  function OrderLines(items: seq<CartSlice.CartItem>): (r: seq<OrderLine>)
    ensures |r| == |items|
    ensures forall i :: 0 <= i < |items| ==> r[i] == ToOrderLine(items[i])
  {
    seq(|items|, i requires 0 <= i < |items| => ToOrderLine(items[i]))
  }

  function LinesAmount(lines: seq<OrderLine>): real
    decreases |lines|
  {
    if |lines| == 0 then 0.0 else LinesAmount(lines[..|lines| - 1]) + lines[|lines| - 1].price * lines[|lines| - 1].quantity as real
  }

  /** The order lines carry exactly the cart's total amount. */
  lemma {:induction false} OrderLinesKeepAmount(items: seq<CartSlice.CartItem>)
    ensures LinesAmount(OrderLines(items)) == CartSlice.TotalAmount(items)
    decreases |items|
  {
    if |items| > 0 {
      var init := items[..|items| - 1];
      OrderLinesKeepAmount(init);
      assert OrderLines(items)[..|items| - 1] == OrderLines(init);
    }
  }

  /** `discount > 0 ? discountCode : null` */
  function OrderDiscountCode(discount: int, code: string): (r: Option<string>)
    ensures r.Some? <==> discount > 0
    ensures r.Some? ==> r.value == code
  {
    if discount > 0 then Some(code) else None
  }

  datatype OrderRequest = OrderRequest(
    items: seq<OrderLine>, shipping: CheckoutForm, discountCode: Option<string>, useLoyaltyPoints: bool)

  /** What the order service did: it answered, successfully or with a
      message, or it threw an error carrying a message, if any. */
  datatype OrderResponse =
    | Answered(success: bool, message: Option<string>)
    | Threw(reason: Option<string>)

  datatype SubmitOutcome =
    | FormRejected(errors: CheckoutErrors)
    | Placed(request: OrderRequest)
    | PlaceFailed(request: OrderRequest, error: string)

  /** `handleSubmit`: an invalid form sends nothing; a valid one sends the
      order built from the cart, and only a successful answer clears the cart.
      A refusal is rethrown with the server's message (or a default one), so
      every failure ends in the same `catch`, which shows the error's message
      or "An unknown error occurred". */
  method HandleSubmit(form: CheckoutForm, isLoggedIn: bool, cart: seq<CartSlice.CartItem>, state: CheckoutState,
                      response: OrderResponse) returns (outcome: SubmitOutcome, clearCart: bool)
    ensures outcome.FormRejected? <==> exists f :: ExpectedError(form, isLoggedIn, f).Some?
    ensures outcome.FormRejected? ==> forall f :: outcome.errors.Get(f) == ExpectedError(form, isLoggedIn, f)
    ensures !outcome.FormRejected? ==>
      && outcome.request.items == OrderLines(cart)
      && outcome.request.shipping == form
      && outcome.request.discountCode == OrderDiscountCode(state.discount, state.discountCode)
      && outcome.request.useLoyaltyPoints == state.useLoyaltyPoints
    ensures outcome.Placed? <==> !outcome.FormRejected? && response.Answered? && response.success
    ensures outcome.PlaceFailed? && response.Answered? ==>
      outcome.error == "Error: " + (if Truthy(response.message) then response.message.value else "Failed to place order")
    ensures outcome.PlaceFailed? && response.Threw? ==>
      outcome.error == "Error: " + (if Truthy(response.reason) then response.reason.value else "An unknown error occurred")
    ensures clearCart <==> outcome.Placed?
  {
    var ok, errors := ValidateForm(form, isLoggedIn);
    if !ok {
      return FormRejected(errors), false;
    }
    var request := OrderRequest(OrderLines(cart), form, OrderDiscountCode(state.discount, state.discountCode),
                                state.useLoyaltyPoints);
    var thrown: Option<string>;
    match response {
      case Answered(success, message) =>
        if success {
          return Placed(request), true;
        }
        thrown := Some(if Truthy(message) then message.value else "Failed to place order");
      case Threw(reason) =>
        thrown := reason;
    }
    var shown := if Truthy(thrown) then thrown.value else "An unknown error occurred";
    outcome, clearCart := PlaceFailed(request, "Error: " + shown), false;
  }
}
