/** The checkout page of `pages/checkout.tsx`: the shipping fee, the order
    total, the address line, the form's field rules and what submitting
    does. The request helper that posts the order is not part of this model:
    its answer is a parameter. Whether an email address is well formed is a
    predicate passed in. */
module Checkout {
  import opened Base
  import Cart

  /** Orders of 5000 rupees or more ship free; others pay 99. */
  function ShippingFee(cartTotal: int): (fee: int)
    ensures fee == 0 <==> cartTotal >= 5000
    ensures fee == 0 || fee == 99
  {
    if cartTotal >= 5000 then 0 else 99
  }

  /** `totalWithShipping` */
  function TotalWithShipping(cartTotal: int): (t: int)
    ensures cartTotal >= 5000 ==> t == cartTotal
    ensures cartTotal < 5000 ==> t == cartTotal + 99
  {
    cartTotal + ShippingFee(cartTotal)
  }

  /** Crossing the threshold can lower the amount due: a cart below it costs
      more than one right at it exactly when it is short by less than the
      fee, and no cart at or above it costs less than its own total. */
  lemma ThresholdLowersTotal()
    ensures forall t :: t < 5000 ==> (TotalWithShipping(t) > TotalWithShipping(5000) <==> t > 4901)
    ensures forall t :: t >= 5000 ==> TotalWithShipping(t) == t
  {
    forall t | t < 5000
      ensures TotalWithShipping(t) > TotalWithShipping(5000) <==> t > 4901
    {
      assert TotalWithShipping(t) == t + 99;
    }
  }

  /** The values the form holds. */
  datatype CheckoutForm = CheckoutForm(
    fullName: string,
    email: string,
    phone: string,
    address: string,
    city: string,
    state: string,
    pincode: string,
    paymentMethod: string)

  /** `${address}, ${city}, ${state} - ${pincode}` */
  function ShippingAddress(d: CheckoutForm): (r: string)
    ensures |r| == |d.address| + |d.city| + |d.state| + |d.pincode| + 7
    ensures r[..|d.address|] == d.address
    ensures r[|r| - |d.pincode|..] == d.pincode
    ensures r[|r| - |d.pincode| - 3..|r| - |d.pincode|] == " - "
    ensures var a, c, s := |d.address|, |d.city|, |d.state|;
      && r[a..a + 2] == ", " && r[a + 2..a + 2 + c] == d.city
      && r[a + 2 + c..a + 4 + c] == ", " && r[a + 4 + c..a + 4 + c + s] == d.state
  {
    d.address + ", " + d.city + ", " + d.state + " - " + d.pincode
  }

  /** A field of the form. */
  datatype Field = FullName | Email | Phone | Address | City | State | Pincode | PaymentMethod

  /** One failed rule of the form. */
  type Issue = FieldIssue<Field>

  /** The fields of `checkoutSchema`, in the order the schema lists them. */
  const SchemaFields: seq<Field> := [FullName, Email, Phone, Address, City, State, Pincode, PaymentMethod]

  /** The rule of one field of `checkoutSchema` fails on the form. */
  predicate Fails(d: CheckoutForm, isEmail: string -> bool, f: Field)
  {
    match f
    case FullName => |d.fullName| < 2
    case Email => !isEmail(d.email)
    case Phone => |d.phone| < 10
    case Address => |d.address| < 5
    case City => |d.city| < 2
    case State => |d.state| < 2
    case Pincode => |d.pincode| < 6
    case PaymentMethod => d.paymentMethod !in {"cod", "card", "upi"}
  }

  /** The message the rule of one field reports. */
  function Message(f: Field): string
  {
    match f
    case FullName => "Full name is required"
    case Email => "Valid email is required"
    case Phone => "Valid phone number is required"
    case Address => "Address is required"
    case City => "City is required"
    case State => "State is required"
    case Pincode => "Valid pincode is required"
    case PaymentMethod => "Payment method is required"
  }

  /** The issues the rules of the fields `fs` report, field by field in
      their order: `fails` says whether a field's rule fails and `message`
      what it reports. */
  function Report(fs: seq<Field>, fails: Field -> bool, message: Field -> string): (r: seq<Issue>)
    ensures |r| <= |fs|
  {
    if fs == [] then []
    else IssueIf(fails(fs[0]), fs[0], message(fs[0])) + Report(fs[1..], fails, message)
  }

  /** Every issue of `r` is that of a failing rule among `fs`, under its
      field and with its message. */
  predicate ReportsOnly(r: seq<Issue>, fs: seq<Field>, fails: Field -> bool, message: Field -> string)
  {
    forall i :: 0 <= i < |r| ==> r[i].field in fs && fails(r[i].field) && r[i].message == message(r[i].field)
  }

  /** Every reported issue is that of a failing rule among `fs`, under its
      field and with its message. */
  lemma {:induction false} ReportSound(fs: seq<Field>, fails: Field -> bool, message: Field -> string)
    ensures ReportsOnly(Report(fs, fails, message), fs, fails, message)
  {
    if fs != [] {
      ReportSound(fs[1..], fails, message);
      var head := IssueIf(fails(fs[0]), fs[0], message(fs[0]));
      var rest := Report(fs[1..], fails, message);
      var r := head + rest;
      assert r == Report(fs, fails, message);
      forall i | 0 <= i < |r|
        ensures r[i].field in fs && fails(r[i].field) && r[i].message == message(r[i].field)
      {
        if i < |head| {
          assert r[i] == head[i];
          assert head[i] in head;
        } else {
          assert r[i] == rest[i - |head|];
          var k :| 0 <= k < |fs[1..]| && fs[1..][k] == r[i].field;
          assert fs[k + 1] == r[i].field;
        }
      }
    }
  }

  /** Every failing rule among `fs` is reported, under its field and with
      its message. */
  lemma {:induction false} ReportComplete(fs: seq<Field>, fails: Field -> bool, message: Field -> string)
    ensures forall i :: 0 <= i < |fs| && fails(fs[i]) ==> FieldIssue(fs[i], message(fs[i])) in Report(fs, fails, message)
  {
    if fs != [] {
      ReportComplete(fs[1..], fails, message);
      var head := IssueIf(fails(fs[0]), fs[0], message(fs[0]));
      var rest := Report(fs[1..], fails, message);
      forall i | 0 <= i < |fs| && fails(fs[i])
        ensures FieldIssue(fs[i], message(fs[i])) in head + rest
      {
        if i == 0 {
          assert (head + rest)[0] == FieldIssue(fs[0], message(fs[0]));
        } else {
          assert fs[i] == fs[1..][i - 1];
          var k :| 0 <= k < |rest| && rest[k] == FieldIssue(fs[i], message(fs[i]));
          assert (head + rest)[|head| + k] == rest[k];
        }
      }
    }
  }

  /** Nothing is reported exactly when no rule among `fs` fails. */
  lemma {:induction false} ReportEmpty(fs: seq<Field>, fails: Field -> bool, message: Field -> string)
    ensures Report(fs, fails, message) == [] <==> forall i :: 0 <= i < |fs| ==> !fails(fs[i])
  {
    if fs != [] {
      ReportEmpty(fs[1..], fails, message);
      assert forall i :: 1 <= i < |fs| ==> fs[i] == fs[1..][i - 1];
    }
  }

  /** No field has two issues in `r`. */
  predicate OnePerField(r: seq<Issue>)
  {
    forall i, j :: 0 <= i < j < |r| ==> r[i].field != r[j].field
  }

  /** When `fs` names each field once, no field gets two issues. */
  lemma {:induction false} ReportDistinct(fs: seq<Field>, fails: Field -> bool, message: Field -> string)
    requires forall i, j :: 0 <= i < j < |fs| ==> fs[i] != fs[j]
    ensures OnePerField(Report(fs, fails, message))
  {
    if fs != [] {
      ReportDistinct(fs[1..], fails, message);
      ReportSound(fs[1..], fails, message);
      var head := IssueIf(fails(fs[0]), fs[0], message(fs[0]));
      var rest := Report(fs[1..], fails, message);
      var r := head + rest;
      assert r == Report(fs, fails, message);
      assert ReportsOnly(rest, fs[1..], fails, message) && OnePerField(rest);
      assert fs[0] !in fs[1..] by {
        forall k | 0 <= k < |fs[1..]|
          ensures fs[1..][k] != fs[0]
        {
          assert fs[1..][k] == fs[k + 1];
        }
      }
      forall i, j | 0 <= i < j < |r|
        ensures r[i].field != r[j].field
      {
        if i < |head| {
          assert r[i] == head[i];
          assert head[i] in head;
          assert r[j] == rest[j - |head|];
          assert r[j].field in fs[1..];
        } else {
          assert r[i] == rest[i - |head|] && r[j] == rest[j - |head|];
        }
      }
    }
  }

  /** The position of a field in the schema: every field has a rule. */
  function FieldOrder(f: Field): (n: nat)
    ensures n < |SchemaFields| && SchemaFields[n] == f
  {
    match f
    case FullName => 0
    case Email => 1
    case Phone => 2
    case Address => 3
    case City => 4
    case State => 5
    case Pincode => 6
    case PaymentMethod => 7
  }

  /** Whether the rule of each field fails on the form. */
  function FailsOn(d: CheckoutForm, isEmail: string -> bool): (fails: Field -> bool)
    ensures forall f :: fails(f) == Fails(d, isEmail, f)
  {
    f => Fails(d, isEmail, f)
  }

  /** The schema names each field once, and the form is valid exactly when
      none of its rules fails. */
  lemma SchemaRules(d: CheckoutForm, isEmail: string -> bool)
    ensures forall i, j :: 0 <= i < j < |SchemaFields| ==> SchemaFields[i] != SchemaFields[j]
    ensures FieldsValid(d, isEmail) <==> forall i :: 0 <= i < |SchemaFields| ==> !Fails(d, isEmail, SchemaFields[i])
  {
    assert SchemaFields[0] == FullName && SchemaFields[1] == Email && SchemaFields[2] == Phone;
    assert SchemaFields[3] == Address && SchemaFields[4] == City && SchemaFields[5] == State;
    assert SchemaFields[6] == Pincode && SchemaFields[7] == PaymentMethod;
  }

  /** The schema reports nothing exactly when the form is valid. */
  lemma SchemaReportEmpty(d: CheckoutForm, isEmail: string -> bool)
    ensures Report(SchemaFields, FailsOn(d, isEmail), Message) == [] <==> FieldsValid(d, isEmail)
  {
    SchemaRules(d, isEmail);
    ReportEmpty(SchemaFields, FailsOn(d, isEmail), Message);
  }

  /** The schema reports every failing rule, under its field and with its
      message. */
  lemma SchemaReportComplete(d: CheckoutForm, isEmail: string -> bool)
    ensures forall f :: Fails(d, isEmail, f) ==> FieldIssue(f, Message(f)) in Report(SchemaFields, FailsOn(d, isEmail), Message)
  {
    var fails := FailsOn(d, isEmail);
    ReportComplete(SchemaFields, fails, Message);
    forall f | Fails(d, isEmail, f)
      ensures FieldIssue(f, Message(f)) in Report(SchemaFields, fails, Message)
    {
      var i := FieldOrder(f);
      assert fails(SchemaFields[i]);
    }
  }

  /** The schema reports each field at most once, and only for a failing
      rule, with its message. */
  lemma SchemaReportSound(d: CheckoutForm, isEmail: string -> bool)
    ensures OnePerField(Report(SchemaFields, FailsOn(d, isEmail), Message))
    ensures ReportsOnly(Report(SchemaFields, FailsOn(d, isEmail), Message), SchemaFields, FailsOn(d, isEmail), Message)
  {
    SchemaRules(d, isEmail);
    ReportSound(SchemaFields, FailsOn(d, isEmail), Message);
    ReportDistinct(SchemaFields, FailsOn(d, isEmail), Message);
  }

  /** The report of the schema's rules on the form. */
  function SchemaReport(d: CheckoutForm, isEmail: string -> bool): seq<Issue>
  {
    Report(SchemaFields, FailsOn(d, isEmail), Message)
  }

  /** What the schema's report says: nothing exactly when the form is
      valid, at most one issue per field, each of a failing rule with its
      message, and every failing rule reported. */
  lemma SchemaReportFacts(d: CheckoutForm, isEmail: string -> bool)
    ensures SchemaReport(d, isEmail) == [] <==> FieldsValid(d, isEmail)
    ensures |SchemaReport(d, isEmail)| <= 8
    ensures OnePerField(SchemaReport(d, isEmail))
    ensures forall i :: 0 <= i < |SchemaReport(d, isEmail)| ==>
      Fails(d, isEmail, SchemaReport(d, isEmail)[i].field)
      && SchemaReport(d, isEmail)[i].message == Message(SchemaReport(d, isEmail)[i].field)
    ensures forall f :: Fails(d, isEmail, f) ==> FieldIssue(f, Message(f)) in SchemaReport(d, isEmail)
  {
    SchemaReportEmpty(d, isEmail);
    SchemaReportComplete(d, isEmail);
    SchemaReportSound(d, isEmail);
  }

  /** The issues `checkoutSchema` reports: those of its rules, field by field
      in the schema's order. */
  function Issues(d: CheckoutForm, isEmail: string -> bool): (r: seq<Issue>)
    ensures r == [] <==> FieldsValid(d, isEmail)
    ensures |r| <= 8
    ensures forall i, j :: 0 <= i < j < |r| ==> r[i].field != r[j].field
    ensures forall i :: 0 <= i < |r| ==> Fails(d, isEmail, r[i].field) && r[i].message == Message(r[i].field)
    ensures forall f :: Fails(d, isEmail, f) ==> FieldIssue(f, Message(f)) in r
  {
    SchemaReportFacts(d, isEmail);
    SchemaReport(d, isEmail)
  }

  /** The field rules of `checkoutSchema`, together. */
  predicate FieldsValid(d: CheckoutForm, isEmail: string -> bool)
  {
    && |d.fullName| >= 2
    && isEmail(d.email)
    && |d.phone| >= 10
    && |d.address| >= 5
    && |d.city| >= 2
    && |d.state| >= 2
    && |d.pincode| >= 6
    && d.paymentMethod in {"cod", "card", "upi"}
  }

  /** A short pincode is reported under the pincode field. */
  lemma ShortPincodeReported(d: CheckoutForm, isEmail: string -> bool)
    requires |d.pincode| < 6
    ensures FieldIssue(Pincode, "Valid pincode is required") in Issues(d, isEmail)
  {
    assert Fails(d, isEmail, Pincode);
  }

  /** The body posted to `/api/orders`. */
  datatype OrderRequest = OrderRequest(total: int, shippingAddress: string, paymentMethod: string)

  /** How the request went: an ok answer, an error answer with or without a
      `message`, or an exception. */
  datatype Reply = Ok | NotOk(message: Option<string>) | Failed

  const DefaultError := "Failed to place order. Please try again."
  const UnexpectedError := "An unexpected error occurred. Please try again later."

  /** The page's own state. */
  class CheckoutPage {
    var isSubmitting: bool
    var orderSuccess: bool
    var orderError: string

    constructor ()
      ensures !isSubmitting && !orderSuccess && orderError == ""
    {
      isSubmitting := false;
      orderSuccess := false;
      orderError := "";
    }

    /** `onSubmit` for a form that passed its rules. With an empty cart it
        only reports so. Otherwise it posts the total with shipping and the
        address line; an ok answer empties the cart and marks success, any
        other outcome leaves the cart alone and sets the error; on every
        path `isSubmitting` is back to false, and it was true while the
        request ran. */
    method OnSubmit(cart: Cart.CartStore, d: CheckoutForm, reply: Reply)
        returns (request: Option<OrderRequest>, ghost submittingWhileSent: bool)
      modifies this, cart
      ensures old(cart.items) == [] ==>
        && request == None
        && orderError == "Your cart is empty"
        && isSubmitting == old(isSubmitting) && orderSuccess == old(orderSuccess)
        && cart.items == old(cart.items)
      ensures old(cart.items) != [] ==>
        && request == Some(OrderRequest(TotalWithShipping(old(cart.Total())), ShippingAddress(d), d.paymentMethod))
        && submittingWhileSent
        && !isSubmitting
      ensures old(cart.items) != [] && reply == Ok ==>
        orderSuccess && orderError == "" && cart.items == [] && cart.Total() == 0
      ensures old(cart.items) != [] && reply.NotOk? ==>
        && orderError == (if reply.message.Some? && reply.message.value != "" then reply.message.value else DefaultError)
        && orderSuccess == old(orderSuccess) && cart.items == old(cart.items)
      ensures old(cart.items) != [] && reply == Failed ==>
        orderError == UnexpectedError && orderSuccess == old(orderSuccess) && cart.items == old(cart.items)
      ensures cart.nextId == old(cart.nextId) && cart.isOpen == old(cart.isOpen)
    {
      submittingWhileSent := false;
      if |cart.items| == 0 {
        orderError := "Your cart is empty";
        return None, submittingWhileSent;
      }
      isSubmitting := true;
      orderError := "";
      var shippingAddress := ShippingAddress(d);
      request := Some(OrderRequest(TotalWithShipping(cart.Total()), shippingAddress, d.paymentMethod));
      submittingWhileSent := isSubmitting;
      match reply {
        case Ok =>
          orderSuccess := true;
          cart.ClearCart();
        case NotOk(message) =>
          orderError := if message.Some? && message.value != "" then message.value else DefaultError;
        case Failed =>
          orderError := UnexpectedError;
      }
      isSubmitting := false;
    }
  }
}
