/**
 * The checkout page (CheckoutPage): the checkout form's rules, the order
 * payload built from the form and the cart, and the submission sequence that
 * clears the cart only once the backend has accepted the order.
 */
module Checkout {
  import opened Wrappers
  import opened FormRules
  import opened OrderView
  import PriceFormat

  /** The five options of the country select. */
  datatype Country = Senegal | CoteDIvoire | Mali | BurkinaFaso | Togo

  function CountryValue(c: Country): string {
    match c
    case Senegal => "senegal"
    case CoteDIvoire => "cote-divoire"
    case Mali => "mali"
    case BurkinaFaso => "burkina-faso"
    case Togo => "togo"
  }

  /** The four options of the payment select. */
  datatype PaymentMethod = Wave | OrangeMoney | MtnMomo | Cash

  function PaymentValue(m: PaymentMethod): string {
    match m
    case Wave => "wave"
    case OrangeMoney => "orange-money"
    case MtnMomo => "mtn-momo"
    case Cash => "cash"
  }

  /** The values the checkout form collects; a field left empty is None. */
  datatype CheckoutValues = CheckoutValues(
    firstName: Option<string>,
    lastName: Option<string>,
    email: Option<string>,
    phone: Option<string>,
    address: Option<string>,
    city: Option<string>,
    postalCode: Option<string>,
    country: Option<Country>,
    paymentMethod: Option<PaymentMethod>,
    notes: Option<string>)

  /** A JSON value of the order payload. */
  datatype Json = Undefined | JStr(s: string) | JNum(n: int) | JItems(items: seq<LineItem>)

  function Text(s: Option<string>): Json {
    if s.Some? then JStr(s.value) else Undefined
  }

  /** No character of `\s` (the same white space the price parser skips). */
  predicate NoSpace(s: string) {
    forall i :: 0 <= i < |s| ==> !PriceFormat.IsSpace(s[i])
  }

  /** Index of the first `@`, or the length when there is none. */
  function IndexOfAt(s: string): (i: nat)
    ensures i <= |s|
    ensures forall k :: 0 <= k < i ==> s[k] != '@'
    ensures i < |s| ==> s[i] == '@'
  {
    if s == [] || s[0] == '@' then 0 else 1 + IndexOfAt(s[1..])
  }

  /**
   * The shape the `type: 'email'` rule is taken to accept: exactly one `@`,
   * with a non-empty local part before it and, after it, a domain holding a
   * dot that has characters on both sides; no white space anywhere.
   */
  predicate IsEmail(s: string) {
    var i := IndexOfAt(s);
    0 < i < |s| && EmailAround(s, i)
  }

  /** The email rule holds iff some `@` past the first character has a well-formed surrounding. */
  lemma IsEmailIff(s: string)
    ensures IsEmail(s) <==> exists i :: 0 < i < |s| && s[i] == '@' && EmailAround(s, i)
  {
    if exists i :: 0 < i < |s| && s[i] == '@' && EmailAround(s, i) {
      var i :| 0 < i < |s| && s[i] == '@' && EmailAround(s, i);
      assert IndexOfAt(s) == i;
    }
  }

  /** With the `@` at index i: no white space, no other `@`, and a dot inside the domain. */
  predicate EmailAround(s: string, i: nat)
    requires i < |s|
  {
    && NoSpace(s)
    && (forall k :: 0 <= k < |s| && k != i ==> s[k] != '@')
    && (exists k :: i + 1 < k < |s| - 1 && s[k] == '.')
  }

  /** The fields of the checkout form, in the order of the form. */
  datatype CheckoutField =
    | FirstName | LastName | Email | Phone | Address | City | PostalCode | Country | Payment | Notes

  /** The name under which the field's value is sent. */
  function FieldName(f: CheckoutField): string {
    match f
    case FirstName => "firstName"
    case LastName => "lastName"
    case Email => "email"
    case Phone => "phone"
    case Address => "address"
    case City => "city"
    case PostalCode => "postalCode"
    case Country => "country"
    case Payment => "paymentMethod"
    case Notes => "notes"
  }

  /** The value the form holds for a field: undefined when empty, the option's value for a select. */
  function FieldValue(v: CheckoutValues, f: CheckoutField): Json {
    match f
    case FirstName => Text(v.firstName)
    case LastName => Text(v.lastName)
    case Email => Text(v.email)
    case Phone => Text(v.phone)
    case Address => Text(v.address)
    case City => Text(v.city)
    case PostalCode => Text(v.postalCode)
    case Country => if v.country.Some? then JStr(CountryValue(v.country.value)) else Undefined
    case Payment => if v.paymentMethod.Some? then JStr(PaymentValue(v.paymentMethod.value)) else Undefined
    case Notes => Text(v.notes)
  }

  const AllFields: seq<CheckoutField> :=
    [FirstName, LastName, Email, Phone, Address, City, PostalCode, Country, Payment, Notes]

  /** How a field fails its rules: left empty, or (for the email) present but not well formed. */
  datatype Problem = Missing | Malformed

  lemma AllFieldsListed()
    ensures forall f :: f in AllFields
  {
    forall f ensures f in AllFields {
      match f
      case FirstName =>
      case LastName =>
      case Email =>
      case Phone =>
      case Address =>
      case City =>
      case PostalCode =>
      case Country =>
      case Payment =>
      case Notes =>
    }
  }

  datatype FieldError = FieldError(field: CheckoutField, problem: Problem)

  /** The rule of `f` that refuses the values, if any; `notes` has no rule. */
  function FieldCheck(v: CheckoutValues, f: CheckoutField): Option<Problem> {
    match f
    case FirstName => if Filled(v.firstName) then None else Some(Missing)
    case LastName => if Filled(v.lastName) then None else Some(Missing)
    case Email =>
      if !Filled(v.email) then Some(Missing)
      else if IsEmail(v.email.value) then None
      else Some(Malformed)
    case Phone => if Filled(v.phone) then None else Some(Missing)
    case Address => if Filled(v.address) then None else Some(Missing)
    case City => if Filled(v.city) then None else Some(Missing)
    case PostalCode => if Filled(v.postalCode) then None else Some(Missing)
    case Country => if v.country.Some? then None else Some(Missing)
    case Payment => if v.paymentMethod.Some? then None else Some(Missing)
    case Notes => None
  }

  function FailingChecks(v: CheckoutValues, fields: seq<CheckoutField>): (errors: seq<FieldError>)
    ensures forall e :: e in errors <==> e.field in fields && FieldCheck(v, e.field) == Some(e.problem)
  {
    if fields == [] then []
    else
      var check := FieldCheck(v, fields[0]);
      (if check.Some? then [FieldError(fields[0], check.value)] else []) + FailingChecks(v, fields[1..])
  }

  /** The rules that fail, in the order of the form: one error per field whose rule refuses its value. */
  function CheckoutErrors(v: CheckoutValues): (errors: seq<FieldError>)
    ensures forall f, p :: FieldError(f, p) in errors <==> FieldCheck(v, f) == Some(p)
  {
    AllFieldsListed();
    FailingChecks(v, AllFields)
  }

  /** A value the `required` rule refuses: undefined or the empty string. */
  predicate Empty(j: Json) {
    j == Undefined || j == JStr("")
  }

  /**
   * Every field but the notes is reported as missing exactly when its value
   * is empty; the email is reported as malformed exactly when it is present
   * but not well formed; the notes are never reported.
   */
  lemma CheckoutErrorsByField(v: CheckoutValues)
    ensures forall f :: f != Notes ==> (FieldError(f, Missing) in CheckoutErrors(v) <==> Empty(FieldValue(v, f)))
    ensures FieldError(Email, Malformed) in CheckoutErrors(v) <==> Filled(v.email) && !IsEmail(v.email.value)
    ensures forall p :: FieldError(Notes, p) !in CheckoutErrors(v)
  {
    forall f | f != Notes
      ensures FieldError(f, Missing) in CheckoutErrors(v) <==> Empty(FieldValue(v, f))
    {
      match f
      case FirstName =>
      case LastName =>
      case Email =>
      case Phone =>
      case Address =>
      case City =>
      case PostalCode =>
      case Country =>
      case Payment =>
    }
  }

  /** No rule fails iff the nine contact, address and payment fields are present and the email is well formed. */
  lemma NoErrorsIff(v: CheckoutValues)
    ensures CheckoutErrors(v) == [] <==>
              && Filled(v.firstName) && Filled(v.lastName) && Filled(v.email) && IsEmail(v.email.value)
              && Filled(v.phone) && Filled(v.address) && Filled(v.city) && Filled(v.postalCode)
              && v.country.Some? && v.paymentMethod.Some?
  {
    var errors := CheckoutErrors(v);
    if errors != [] {
      assert errors[0] in errors && FieldCheck(v, errors[0].field) == Some(errors[0].problem);
    } else {
      assert FieldCheck(v, FirstName) == None && FieldCheck(v, LastName) == None;
      assert FieldCheck(v, Email) == None && FieldCheck(v, Phone) == None;
      assert FieldCheck(v, Address) == None && FieldCheck(v, City) == None;
      assert FieldCheck(v, PostalCode) == None && FieldCheck(v, Country) == None;
      assert FieldCheck(v, Payment) == None;
    }
  }

  /**
   * The form calls onFinish only when no rule fails: exactly when the nine
   * contact, address and payment fields are present and the email is well
   * formed.
   */
  function CheckoutAccepted(v: CheckoutValues): (accepted: bool)
    ensures accepted <==>
              && Filled(v.firstName) && Filled(v.lastName) && Filled(v.email) && IsEmail(v.email.value)
              && Filled(v.phone) && Filled(v.address) && Filled(v.city) && Filled(v.postalCode)
              && v.country.Some? && v.paymentMethod.Some?
  {
    NoErrorsIff(v);
    CheckoutErrors(v) == []
  }

  /** The notes never decide whether the form is accepted. */
  lemma NotesAreOptional(v: CheckoutValues, notes: Option<string>)
    ensures CheckoutAccepted(v) <==> CheckoutAccepted(v.(notes := notes))
  {
  }

  /** The `values` object antd passes to onFinish: every field of the form under its name. */
  function FormFields(v: CheckoutValues): map<string, Json> {
    map[
      FieldName(FirstName) := FieldValue(v, FirstName),
      FieldName(LastName) := FieldValue(v, LastName),
      FieldName(Email) := FieldValue(v, Email),
      FieldName(Phone) := FieldValue(v, Phone),
      FieldName(Address) := FieldValue(v, Address),
      FieldName(City) := FieldValue(v, City),
      FieldName(PostalCode) := FieldValue(v, PostalCode),
      FieldName(Country) := FieldValue(v, Country),
      FieldName(Payment) := FieldValue(v, Payment),
      FieldName(Notes) := FieldValue(v, Notes)]
  }

  /**
   * Each field's name holds that field's value: undefined when it is empty,
   * the text when it is filled, the option's value for a select.
   */
  lemma FormFieldsHoldValues(v: CheckoutValues, f: CheckoutField)
    ensures FieldName(f) in FormFields(v) && FormFields(v)[FieldName(f)] == FieldValue(v, f)
  {
    match f
    case FirstName =>
    case LastName =>
    case Email =>
    case Phone =>
    case Address =>
    case City =>
    case PostalCode =>
    case Country =>
    case Payment =>
    case Notes =>
  }

  /** The form sends its ten fields and nothing else. */
  lemma FormFieldsKeys(v: CheckoutValues)
    ensures FormFields(v).Keys == {"firstName", "lastName", "email", "phone", "address", "city",
                                   "postalCode", "country", "paymentMethod", "notes"}
  {
  }

  /** The keys the payload sets after spreading the form values. */
  const OverriddenKeys: set<string> := {"items", "total", "status"}

  /**
   * `{ ...values, items: cart, total, status: 'pending' }`: every form field
   * is copied, and `items`, `total` and `status` are the cart, the total and
   * 'pending' whatever the form held under those names.
   */
  function OrderPayload(values: map<string, Json>, cart: seq<LineItem>, total: nat): (order: map<string, Json>)
    ensures order.Keys == values.Keys + OverriddenKeys
    ensures order["items"] == JItems(cart) && order["total"] == JNum(total) && order["status"] == JStr("pending")
    ensures forall k :: k in values && k !in OverriddenKeys ==> order[k] == values[k]
  {
    values["items" := JItems(cart)]["total" := JNum(total)]["status" := JStr("pending")]
  }

  /** A form field named like an overridden key has no effect on the payload. */
  lemma OverriddenFieldsIgnored(values: map<string, Json>, k: string, x: Json, cart: seq<LineItem>, total: nat)
    requires k in OverriddenKeys
    ensures OrderPayload(values[k := x], cart, total) == OrderPayload(values, cart, total)
  {
  }

  /** Every field of the form reaches the order unchanged: no field is named like an overridden key. */
  lemma OrderCarriesField(v: CheckoutValues, cart: seq<LineItem>, total: nat, f: CheckoutField)
    ensures FieldName(f) in OrderPayload(FormFields(v), cart, total)
    ensures OrderPayload(FormFields(v), cart, total)[FieldName(f)] == FieldValue(v, f)
  {
    FormFieldsHoldValues(v, f);
    assert FieldName(f) !in OverriddenKeys;
  }

  /** The order of an accepted form carries the name, email and phone as typed, the email well formed. */
  lemma AcceptedOrderContact(v: CheckoutValues, cart: seq<LineItem>, total: nat)
    requires CheckoutAccepted(v)
    ensures var order := OrderPayload(FormFields(v), cart, total);
            && order[FieldName(FirstName)] == JStr(v.firstName.value)
            && order[FieldName(LastName)] == JStr(v.lastName.value)
            && order[FieldName(Email)] == JStr(v.email.value) && IsEmail(v.email.value)
            && order[FieldName(Phone)] == JStr(v.phone.value)
  {
    OrderCarriesField(v, cart, total, FirstName);
    OrderCarriesField(v, cart, total, LastName);
    OrderCarriesField(v, cart, total, Email);
    OrderCarriesField(v, cart, total, Phone);
  }

  /** The order of an accepted form carries the address as typed, and the notes when there are any. */
  lemma AcceptedOrderAddress(v: CheckoutValues, cart: seq<LineItem>, total: nat)
    requires CheckoutAccepted(v)
    ensures var order := OrderPayload(FormFields(v), cart, total);
            && order[FieldName(Address)] == JStr(v.address.value)
            && order[FieldName(City)] == JStr(v.city.value)
            && order[FieldName(PostalCode)] == JStr(v.postalCode.value)
            && order[FieldName(Notes)] == Text(v.notes)
  {
    OrderCarriesField(v, cart, total, Address);
    OrderCarriesField(v, cart, total, City);
    OrderCarriesField(v, cart, total, PostalCode);
    OrderCarriesField(v, cart, total, Notes);
  }

  /**
   * The order of an accepted form holds one of the five country values and
   * one of the four payment values, the cart, the total, and status 'pending'.
   */
  lemma AcceptedOrderChoices(v: CheckoutValues, cart: seq<LineItem>, total: nat)
    requires CheckoutAccepted(v)
    ensures var order := OrderPayload(FormFields(v), cart, total);
            && order[FieldName(Country)] == JStr(CountryValue(v.country.value))
            && order[FieldName(Country)].s in {"senegal", "cote-divoire", "mali", "burkina-faso", "togo"}
            && order[FieldName(Payment)] == JStr(PaymentValue(v.paymentMethod.value))
            && order[FieldName(Payment)].s in {"wave", "orange-money", "mtn-momo", "cash"}
            && order["items"] == JItems(cart) && order["total"] == JNum(total)
            && order["status"] == JStr("pending")
  {
    OrderCarriesField(v, cart, total, Country);
    OrderCarriesField(v, cart, total, Payment);
  }

  /** What happened to one press of the submit button. */
  datatype Submission =
    | NotRendered                         // the cart is empty: the form is not shown
    | Invalid(errors: seq<FieldError>)    // a rule failed: onFinish is not called
    | Failed(order: map<string, Json>)    // createOrder threw
    | Placed(order: map<string, Json>)    // createOrder resolved

  const ConfirmationPath: string := "/order-confirmation"

  /**
   * The checkout page with the shared cart it reads: `cart` and `total` come
   * from the cart store, `requests` records every order posted to the
   * backend, and `location` is where the router points (the page's own
   * route when it is created; the route itself is not part of this model).
   */
  class CheckoutPage {
    var cart: seq<LineItem>
    var total: nat
    var requests: seq<map<string, Json>>
    var location: string

    constructor (cart: seq<LineItem>, total: nat, location: string)
      ensures this.cart == cart && this.total == total
      ensures requests == [] && this.location == location
    {
      this.cart := cart;
      this.total := total;
      requests := [];
      this.location := location;
    }

    /** The form is rendered only when the cart has a line; an empty cart shows the empty state. */
    function ShowsForm(): (shows: bool)
      reads this
      ensures shows <==> cart != []
    {
      |cart| != 0
    }

    /** The cart store's clearCart: the cart becomes empty and so does its total. */
    method ClearCart()
      modifies this`cart, this`total
      ensures cart == [] && total == 0
    {
      cart := [];
      total := 0;
    }

    /**
     * onFinish: the order is posted; when `createOrderSucceeds` the cart is
     * cleared and the page moves to the confirmation, otherwise the error is
     * reported and cart, total and location stay as they were.
     */
    method OnFinish(values: CheckoutValues, createOrderSucceeds: bool) returns (order: map<string, Json>)
      modifies this
      ensures order == OrderPayload(FormFields(values), old(cart), old(total))
      ensures requests == old(requests) + [order]
      ensures createOrderSucceeds ==> cart == [] && total == 0 && location == ConfirmationPath
      ensures !createOrderSucceeds ==>
                cart == old(cart) && total == old(total) && location == old(location)
    {
      order := OrderPayload(FormFields(values), cart, total);
      requests := requests + [order];
      if createOrderSucceeds {
        ClearCart();
        location := ConfirmationPath;
      }
    }

    /**
     * One press of the submit button: nothing when the cart is empty (there
     * is no form), the failing rules when validation fails (no request is
     * made), otherwise onFinish.
     */
    method Submit(values: CheckoutValues, createOrderSucceeds: bool) returns (result: Submission)
      modifies this
      ensures old(cart) == [] ==> result == NotRendered
      ensures old(cart) != [] && !CheckoutAccepted(values) ==> result == Invalid(CheckoutErrors(values))
      ensures (result.NotRendered? || result.Invalid?) ==>
                cart == old(cart) && total == old(total) && requests == old(requests) && location == old(location)
      ensures old(cart) != [] && CheckoutAccepted(values) ==>
                var order := OrderPayload(FormFields(values), old(cart), old(total));
                && requests == old(requests) + [order]
                && (createOrderSucceeds ==> result == Placed(order) && cart == [] && total == 0 && location == ConfirmationPath)
                && (!createOrderSucceeds ==> result == Failed(order) && cart == old(cart) && total == old(total) && location == old(location))
    {
      if !ShowsForm() {
        return NotRendered;
      }
      var errors := CheckoutErrors(values);
      if errors != [] {
        return Invalid(errors);
      }
      var order := OnFinish(values, createOrderSucceeds);
      if createOrderSucceeds {
        result := Placed(order);
      } else {
        result := Failed(order);
      }
    }
  }
}
