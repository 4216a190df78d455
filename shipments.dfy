/**
 * The admin page that creates a shipment for an order: the order id read
 * from the query string, the mock order it loads, the AWB number made from
 * the clock, the form's validation, and the redirect once the shipment is
 * "created".
 */
module CreateShipmentPage {
  import opened Wrappers
  import opened Text

  datatype ShipmentForm = ShipmentForm(
    awbNumber: string,
    courierPartner: string,
    trackingUrl: string,
    estimatedDelivery: string,
    shipmentNotes: string)

  /** A key of `ShipmentForm`. */
  datatype ShipmentField = AwbNumberField | CourierPartnerField | TrackingUrlField | EstimatedDeliveryField | ShipmentNotesField

  const InitialForm := ShipmentForm("", "Delhivery", "", "", "")

  const AwbRequired := "AWB number is required"
  const CourierRequired := "Courier partner is required"
  const DeliveryRequired := "Estimated delivery date is required"

  /** The order the page shows; the id is `None` when `parseInt` gave `NaN`. */
  datatype ShipmentOrder = ShipmentOrder(
    id: Option<int>,
    customerName: string,
    totalAmount: int,
    orderStatus: string,
    paymentStatus: string)

  /** The order `loadOrder` builds for any id. */
  function MockOrder(id: Option<int>): (o: ShipmentOrder)
    ensures o.id == id && o.totalAmount == 1250 && o.paymentStatus == "verified"
  {
    ShipmentOrder(id, "Rajesh Kumar", 1250, "payment_verified", "verified")
  }

  predicate IsDigit(c: char) {
    '0' <= c <= '9'
  }

  /** The number a string of decimal digits denotes. */
  function DigitsValue(s: string): nat
    requires forall i :: 0 <= i < |s| ==> IsDigit(s[i])
  {
    if s == [] then 0
    else
      var last := s[|s| - 1];
      assert IsDigit(last);
      DigitsValue(s[..|s| - 1]) * 10 + (last as int - '0' as int)
  }

  /** The longest prefix of `s` made of decimal digits. */
  function DigitPrefix(s: string): (r: string)
    ensures |r| <= |s| && r == s[..|r|]
    ensures forall i :: 0 <= i < |r| ==> IsDigit(r[i])
    ensures |r| < |s| ==> !IsDigit(s[|r|])
  {
    if s == [] || !IsDigit(s[0]) then "" else [s[0]] + DigitPrefix(s[1..])
  }

  /** The run of digits at the front of `u`, read as a number; `None` when `u` does not start with a digit. */
  function ParseDigits(u: string): (r: Option<nat>)
    ensures r.Some? <==> u != [] && IsDigit(u[0])
  {
    var digits := DigitPrefix(u);
    if digits == [] then None else Some(DigitsValue(digits))
  }

  /**
   * `parseInt(s)` with no radix, for decimal text: leading white space is
   * skipped, one sign is read, then the longest run of digits; `None` (`NaN`)
   * when there is no digit.
   */
  function ParseInt(s: string): (r: Option<int>)
    ensures r.Some? ==> exists i :: 0 <= i < |s| && IsDigit(s[i])
  {
    var t := TrimStart(s);
    var u := if t != [] && (t[0] == '-' || t[0] == '+') then t[1..] else t;
    match ParseDigits(u)
    case None => None
    case Some(value) =>
      assert s[|s| - |u|] == u[0];
      var v: int := value;
      Some(if t[0] == '-' then -v else v)
  }

  /** `DigitPrefix` of a string of digits is the whole string. */
  lemma {:induction false} DigitPrefixOfDigits(s: string)
    requires forall i :: 0 <= i < |s| ==> IsDigit(s[i])
    ensures DigitPrefix(s) == s
  {
    if s != [] {
      DigitPrefixOfDigits(s[1..]);
    }
  }

  /** Reading back the decimal text of a natural number gives the number. */
  lemma {:induction false} DigitsValueOfNatToString(n: nat)
    ensures forall i :: 0 <= i < |NatToString(n)| ==> IsDigit(NatToString(n)[i])
    ensures DigitsValue(NatToString(n)) == n
  {
    var s := NatToString(n);
    if n >= 10 {
      DigitsValueOfNatToString(n / 10);
      assert s[..|s| - 1] == NatToString(n / 10);
    }
  }

  /** The digit run of a natural number's decimal text reads back as that number. */
  lemma {:induction false} ParseDigitsOfNatToString(n: nat)
    ensures ParseDigits(NatToString(n)) == Some(n)
  {
    DigitsValueOfNatToString(n);
    DigitPrefixOfDigits(NatToString(n));
  }

  /** `parseInt` reads back what an id prints as: the query string round-trips every integer id. */
  lemma {:induction false} ParseIntRoundTrip(n: int)
    ensures ParseInt(IntToString(n)) == Some(n)
  {
    var s := IntToString(n);
    var m: nat := if n < 0 then -n else n;
    ParseDigitsOfNatToString(m);
    assert '0' <= NatToString(m)[0] <= '9';
    assert TrimStart(s) == s by {
      assert !IsWhitespace(s[0]);
    }
    if n < 0 {
      assert s[1..] == NatToString(m);
    } else {
      assert s == NatToString(m);
    }
  }

  /** The text `${id}` gives for an order id. */
  function IdText(id: Option<int>): string {
    if id.Some? then IntToString(id.value) else "NaN"
  }

  function Pow10(k: nat): nat {
    if k == 0 then 1 else 10 * Pow10(k - 1)
  }

  /** A number of at least `10^k` prints with more than `k` digits. */
  lemma {:induction false} NatToStringLength(n: nat, k: nat)
    requires n >= Pow10(k)
    ensures |NatToString(n)| > k
  {
    if k > 0 {
      NatToStringLength(n / 10, k - 1);
    }
  }

  /** `DEL` followed by the last eight digits of the clock reading (ms since the epoch). */
  function AwbNumber(now: nat): (awb: string)
    ensures |awb| == 3 + (if |NatToString(now)| < 8 then |NatToString(now)| else 8)
    ensures awb[..3] == "DEL"
    ensures awb[3..] == NatToString(now)[|NatToString(now)| - (|awb| - 3)..]
  {
    var tail := Last(NatToString(now), 8);
    assert ("DEL" + tail)[3..] == tail;
    "DEL" + tail
  }

  /** From 10^7 ms after the epoch on, every AWB number has eleven characters. */
  lemma AwbNumberLength(now: nat)
    requires now >= 10000000
    ensures |AwbNumber(now)| == 11
  {
    assert Pow10(7) == 10000000;
    NatToStringLength(now, 7);
  }

  const TrackingPrefix := "https://www.delhivery.com/track/package/"

  function TrackingUrl(awb: string): (url: string)
    ensures |url| == |TrackingPrefix| + |awb|
    ensures url[..|TrackingPrefix|] == TrackingPrefix && url[|TrackingPrefix|..] == awb
  {
    TrackingPrefix + awb
  }

  /** Where the page sends the admin once the shipment is created. */
  function OrderPath(id: Option<int>): string {
    "/admin/orders/" + IdText(id) + "?shipment_created=true"
  }

  function FieldValue(form: ShipmentForm, field: ShipmentField): string {
    match field
    case AwbNumberField => form.awbNumber
    case CourierPartnerField => form.courierPartner
    case TrackingUrlField => form.trackingUrl
    case EstimatedDeliveryField => form.estimatedDelivery
    case ShipmentNotesField => form.shipmentNotes
  }

  function WithField(form: ShipmentForm, field: ShipmentField, value: string): ShipmentForm {
    match field
    case AwbNumberField => form.(awbNumber := value)
    case CourierPartnerField => form.(courierPartner := value)
    case TrackingUrlField => form.(trackingUrl := value)
    case EstimatedDeliveryField => form.(estimatedDelivery := value)
    case ShipmentNotesField => form.(shipmentNotes := value)
  }

  /** An input change sets its own field and leaves the other four as they were. */
  lemma WithFieldChangesOnlyThatField(form: ShipmentForm, field: ShipmentField, value: string)
    ensures FieldValue(WithField(form, field, value), field) == value
    ensures forall g :: g != field ==> FieldValue(WithField(form, field, value), g) == FieldValue(form, g)
  {
  }

  /** `Partial<ShipmentForm>` holding error messages: `None` for an absent or `undefined` key. */
  datatype ShipmentErrors = ShipmentErrors(
    awbNumber: Option<string>,
    courierPartner: Option<string>,
    trackingUrl: Option<string>,
    estimatedDelivery: Option<string>,
    shipmentNotes: Option<string>)

  const NoErrors := ShipmentErrors(None, None, None, None, None)

  function ErrorOf(errors: ShipmentErrors, field: ShipmentField): Option<string> {
    match field
    case AwbNumberField => errors.awbNumber
    case CourierPartnerField => errors.courierPartner
    case TrackingUrlField => errors.trackingUrl
    case EstimatedDeliveryField => errors.estimatedDelivery
    case ShipmentNotesField => errors.shipmentNotes
  }

  /** `{...prev, [field]: undefined}` */
  function ClearError(errors: ShipmentErrors, field: ShipmentField): ShipmentErrors {
    match field
    case AwbNumberField => errors.(awbNumber := None)
    case CourierPartnerField => errors.(courierPartner := None)
    case TrackingUrlField => errors.(trackingUrl := None)
    case EstimatedDeliveryField => errors.(estimatedDelivery := None)
    case ShipmentNotesField => errors.(shipmentNotes := None)
  }

  /** Clearing one field's error leaves every other field's error as it was. */
  lemma ClearErrorOnlyThatField(errors: ShipmentErrors, field: ShipmentField)
    ensures ErrorOf(ClearError(errors, field), field) == None
    ensures forall g :: g != field ==> ErrorOf(ClearError(errors, field), g) == ErrorOf(errors, g)
  {
  }

  /** `Object.keys(errors).length === 0` for errors built by `validateForm`. */
  predicate NoneSet(errors: ShipmentErrors) {
    errors == NoErrors
  }

  /** The errors `validateForm` records for `form`, built one check at a time. */
  function ValidationErrors(form: ShipmentForm): ShipmentErrors {
    var e1 := if Trim(form.awbNumber) == "" then NoErrors.(awbNumber := Some(AwbRequired)) else NoErrors;
    var e2 := if Trim(form.courierPartner) == "" then e1.(courierPartner := Some(CourierRequired)) else e1;
    if form.estimatedDelivery == "" then e2.(estimatedDelivery := Some(DeliveryRequired)) else e2
  }

  /**
   * `validateForm` flags the AWB number and the courier when blank after
   * trimming, the delivery date when empty (not trimmed), each with its own
   * message, and never the tracking URL or the notes.
   */
  lemma ValidationErrorsFlags(form: ShipmentForm)
    ensures ValidationErrors(form).awbNumber == if Blank(form.awbNumber) then Some(AwbRequired) else None
    ensures ValidationErrors(form).courierPartner == if Blank(form.courierPartner) then Some(CourierRequired) else None
    ensures ValidationErrors(form).estimatedDelivery == if form.estimatedDelivery == "" then Some(DeliveryRequired) else None
    ensures ValidationErrors(form).trackingUrl == None && ValidationErrors(form).shipmentNotes == None
  {
    TrimEmptyIffBlank(form.awbNumber);
    TrimEmptyIffBlank(form.courierPartner);
  }

  /**
   * The form passes when the AWB number and the courier each hold a
   * character that is not white space and a delivery date is chosen.
   */
  lemma ValidFormIff(form: ShipmentForm)
    ensures NoneSet(ValidationErrors(form)) <==>
              !Blank(form.awbNumber) && !Blank(form.courierPartner) && form.estimatedDelivery != ""
  {
    ValidationErrorsFlags(form);
  }

  /**
   * After `loadOrder` the generated AWB number passes its check: a form whose
   * courier is filled in and whose date is not chosen yet is missing the date only.
   */
  lemma LoadedFormNeedsOnlyDate(form: ShipmentForm, now: nat)
    requires !Blank(form.courierPartner) && form.estimatedDelivery == ""
    ensures ValidationErrors(form.(awbNumber := AwbNumber(now), trackingUrl := TrackingUrl(AwbNumber(now))))
              == NoErrors.(estimatedDelivery := Some(DeliveryRequired))
  {
    var awb := AwbNumber(now);
    assert !Blank(awb) by {
      assert awb[..3] == "DEL";
      assert awb[0] == 'D';
    }
    var loaded := form.(awbNumber := awb, trackingUrl := TrackingUrl(awb));
    ValidationErrorsFlags(loaded);
  }

  /** The initial courier, Delhivery, is filled in. */
  lemma InitialCourierFilled()
    ensures !Blank(InitialForm.courierPartner)
  {
    assert !IsWhitespace(InitialForm.courierPartner[0]);
  }

  class CreateShipmentPage {
    var order: Option<ShipmentOrder>
    var loading: bool
    var creating: bool
    var form: ShipmentForm
    var errors: ShipmentErrors
    /** The `router.push` targets, in order. */
    var navigation: seq<string>

    constructor ()
      ensures order == None && loading && !creating && form == InitialForm && errors == NoErrors && navigation == []
    {
      order := None;
      loading := true;
      creating := false;
      form := InitialForm;
      errors := NoErrors;
      navigation := [];
    }

    /**
     * The mount effect, `orderParam` being the `order` query parameter: a
     * non-empty one loads that order at time `now`, otherwise the admin is
     * sent back to the order list.
     */
    method Mount(orderParam: Option<string>, now: nat)
      modifies this
      ensures orderParam.Some? && orderParam.value != "" ==>
                && order == Some(MockOrder(ParseInt(orderParam.value)))
                && navigation == old(navigation)
      ensures !(orderParam.Some? && orderParam.value != "") ==>
                && navigation == old(navigation) + ["/admin/orders"]
                && order == old(order) && form == old(form) && loading == old(loading)
      ensures errors == old(errors) && creating == old(creating)
    {
      if orderParam.Some? && orderParam.value != "" {
        LoadOrder(ParseInt(orderParam.value), now);
      } else {
        navigation := navigation + ["/admin/orders"];
      }
    }

    /** `loadOrder(id)` at time `now`: the mock order, and an AWB number with its tracking link. */
    method LoadOrder(id: Option<int>, now: nat)
      modifies this
      ensures order == Some(MockOrder(id)) && !loading
      ensures form == old(form).(awbNumber := AwbNumber(now), trackingUrl := TrackingUrl(AwbNumber(now)))
      ensures errors == old(errors) && creating == old(creating) && navigation == old(navigation)
    {
      loading := true;
      order := Some(MockOrder(id));
      var awb := AwbNumber(now);
      form := form.(awbNumber := awb, trackingUrl := TrackingUrl(awb));
      loading := false;
    }

    /** `validateForm()`: records the errors one check at a time, and passes when there are none. */
    method ValidateForm() returns (valid: bool)
      modifies this`errors
      ensures errors == ValidationErrors(form)
      ensures valid <==> NoneSet(errors)
    {
      var newErrors := NoErrors;
      if Trim(form.awbNumber) == "" {
        newErrors := newErrors.(awbNumber := Some(AwbRequired));
      }
      if Trim(form.courierPartner) == "" {
        newErrors := newErrors.(courierPartner := Some(CourierRequired));
      }
      if form.estimatedDelivery == "" {
        newErrors := newErrors.(estimatedDelivery := Some(DeliveryRequired));
      }
      errors := newErrors;
      valid := newErrors == NoErrors;
    }

    /** `handleInputChange(field, value)`: sets the field and clears that field's error only. */
    method HandleInputChange(field: ShipmentField, value: string)
      modifies this
      ensures form == WithField(old(form), field, value)
      ensures !(ErrorOf(errors, field).Some? && ErrorOf(errors, field).value != "")
      ensures errors == if ErrorOf(old(errors), field).Some? && ErrorOf(old(errors), field).value != ""
                        then ClearError(old(errors), field) else old(errors)
      ensures order == old(order) && loading == old(loading) && creating == old(creating) && navigation == old(navigation)
    {
      form := WithField(form, field, value);
      var current := ErrorOf(errors, field);
      if current.Some? && current.value != "" {
        errors := ClearError(errors, field);
      }
    }

    /**
     * `handleCreateShipment()`: validates (recording the errors), and only
     * when the form passes and an order is loaded, goes to that order's page.
     */
    method HandleCreateShipment()
      modifies this`errors, this`creating, this`navigation
      ensures errors == ValidationErrors(form)
      ensures NoneSet(errors) && order.Some? ==> !creating
      ensures !(NoneSet(errors) && order.Some?) ==> creating == old(creating)
      ensures NoneSet(errors) && order.Some? ==> navigation == old(navigation) + [OrderPath(order.value.id)]
      ensures !(NoneSet(errors) && order.Some?) ==> navigation == old(navigation)
    {
      var valid := ValidateForm();
      if !valid || order.None? {
        return;
      }
      creating := true;
      navigation := navigation + [OrderPath(order.value.id)];
      creating := false;
    }
  }
}
