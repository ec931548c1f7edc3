/**
 * OTP issuance and verification (CapstoneBackend/controllers/otp.js), and
 * the JavaScript coercions its single gate rests on.
 */
module OtpController {
  import opened Wrappers
  import opened Text
  import opened Catalog
  import opened BookingModel
  import opened Store

  /** The error messages the routes send, word for word. */
  const BookingNotFound := "Booking not found"
  const OtpNotSent := "Error sending OTP"
  const MissingOtp := "Missing OTP"
  const InvalidOtp := "Invalid OTP"

  /**
   * A JSON request-body field: missing, null, a boolean, an integral
   * number, a string, an array, or an object (whose members nothing reads).
   */
  datatype JsonValue =
    | JAbsent | JNull | JBool(b: bool) | JNumber(n: int) | JString(s: string)
    | JArray(items: seq<JsonValue>) | JObject

  /** JavaScript truthiness, as tested by `if (!otp)`: every array and object is truthy. */
  predicate Truthy(v: JsonValue) {
    match v
    case JAbsent => false
    case JNull => false
    case JBool(b) => b
    case JNumber(n) => n != 0
    case JString(s) => s != ""
    case JArray(_) => true
    case JObject => true
  }

  /** `String(v)`: an array is `join(',')` of its elements, an object `[object Object]`. */
  function JsString(v: JsonValue): string
    decreases v, 1
  {
    match v
    case JAbsent => "undefined"
    case JNull => "null"
    case JBool(b) => if b then "true" else "false"
    case JNumber(n) => IntToString(n)
    case JString(s) => s
    case JArray(items) => JoinElements(items, v)
    case JObject => "[object Object]"
  }

  /** `Array.prototype.join(',')`, where a `null` or `undefined` element renders as nothing. */
  function JoinElements(items: seq<JsonValue>, ghost parent: JsonValue): string
    requires forall k :: 0 <= k < |items| ==> items[k] < parent
    decreases parent, 0, |items|
  {
    if items == [] then ""
    else
      var head := if items[0].JAbsent? || items[0].JNull? then "" else JsString(items[0]);
      if |items| == 1 then head else head + "," + JoinElements(items[1..], parent)
  }

  /** `String(booking.otp)`: an unassigned path reads `undefined`, a cleared one `null`. */
  function StoredString(o: StoredOtp): string {
    match o
    case Unset => "undefined"
    case Cleared => "null"
    case Code(t) => t
  }

  /** The `otp` path after `booking.otp = code`: the String schema type stores `String(code)`. */
  function IssuedOtp(code: int): (o: StoredOtp)
    ensures o.Code? && StoredString(o) == JsString(JNumber(code))
  {
    Code(IntToString(code))
  }

  /** The gate of `verifyOtp`: `String(booking.otp) === String(otp)`, and nothing else. */
  predicate OtpMatches(stored: StoredOtp, supplied: JsonValue): (m: bool)
    ensures stored.Code? ==> (m <==> JsString(supplied) == stored.text)
    ensures stored.Unset? ==> (m <==> JsString(supplied) == "undefined")
    ensures stored.Cleared? ==> (m <==> JsString(supplied) == "null")
  {
    StoredString(stored) == JsString(supplied)
  }

  /** An issued code matches exactly the number, or the text, it was issued as. */
  lemma IssuedCodeMatchesOnlyItself(code: int, n: int)
    ensures OtpMatches(IssuedOtp(code), JNumber(n)) <==> n == code
    ensures OtpMatches(IssuedOtp(code), JString(IntToString(n))) <==> n == code
  {
    IntToStringInjective(code, n);
  }

  /** No integer rendering reads as `null` or `undefined`. */
  lemma IntToStringIsNotAWord(n: int)
    ensures IntToString(n) != "null" && IntToString(n) != "undefined"
  {
    var s := IntToString(n);
    assert s[0] == '-' || IsDigit(s[0]);
  }

  /**
   * Once cleared, the stored value no longer matches any number, nor any
   * number written as text: re-supplying a used code fails with "Invalid OTP".
   */
  lemma ClearedRejectsEveryCode(n: int)
    ensures !OtpMatches(Cleared, JNumber(n)) && !OtpMatches(Cleared, JString(IntToString(n)))
    ensures !OtpMatches(Unset, JNumber(n)) && !OtpMatches(Unset, JString(IntToString(n)))
  {
    IntToStringIsNotAWord(n);
  }

  /**
   * As written, the string comparison lets the literal text "undefined" close
   * a booking that was never given a code, and "null" one whose code was used.
   */
  lemma UncodedBookingAcceptsWordsAsWritten()
    ensures Truthy(JString("undefined")) && OtpMatches(Unset, JString("undefined"))
    ensures Truthy(JString("null")) && OtpMatches(Cleared, JString("null"))
  {
  }

  /**
   * Arrays meet the written gate through their rendering: `[]` is truthy yet
   * renders as nothing, so it matches no issued code; a one-element array
   * renders as its element, so `["undefined"]` closes a booking without a
   * code and `[code]` matches the issued code.
   */
  lemma ArraysMeetGateByRendering(code: int)
    ensures Truthy(JArray([])) && !OtpMatches(IssuedOtp(code), JArray([]))
    ensures OtpMatches(Unset, JArray([JString("undefined")]))
    ensures OtpMatches(IssuedOtp(code), JArray([JNumber(code)]))
    ensures OtpMatches(IssuedOtp(code), JArray([JString(IntToString(code))]))
  {
    var numeral := IntToString(code);
    assert numeral[0] == '-' || IsDigit(numeral[0]);
    assert JsString(JArray([])) == "";
    assert JsString(JArray([JString("undefined")])) == "undefined";
    var byNumber := JArray([JNumber(code)]);
    assert JsString(byNumber) == JoinElements([JNumber(code)], byNumber) == JsString(JNumber(code));
    var byText := JArray([JString(numeral)]);
    assert JsString(byText) == JoinElements([JString(numeral)], byText) == numeral;
  }

  /** The gate as evidently intended: a code must have been issued, and must match. */
  predicate OtpMatchesIntended(stored: StoredOtp, supplied: JsonValue) {
    stored.Code? && StoredString(stored) == JsString(supplied)
  }

  /**
   * The intended gate accepts nothing for a booking without an issued code,
   * and agrees with the written gate wherever a code is stored.
   */
  lemma IntendedGateNeedsIssuedCode(stored: StoredOtp, supplied: JsonValue)
    ensures !stored.Code? ==> !OtpMatchesIntended(stored, supplied)
    ensures stored.Code? ==> (OtpMatchesIntended(stored, supplied) <==> OtpMatches(stored, supplied))
  {
  }

  /** Twilio refuses a message whose `to` is missing or empty. */
  predicate Addressable(phone: Option<string>) {
    phone.Some? && phone.value != ""
  }

  /**
   * The unrouted `sendOtp(req, res)`: the number comes from the request body;
   * the code is stored only once the message has been sent.
   */
  method SendOtp(db: Database, phoneNumber: Option<string>, bookingId: Id, code: int, delivered: bool)
    returns (reply: Reply)
    requires db.Valid() && 100000 <= code <= 999999
    modifies db
    ensures db.Valid()
    ensures bookingId !in old(db.bookings) ==> reply == Fail(404, BookingNotFound) && unchanged(db)
    ensures bookingId in old(db.bookings) && !(Addressable(phoneNumber) && delivered) ==>
              reply == Fail(500, OtpNotSent) && unchanged(db)
    ensures bookingId in old(db.bookings) && Addressable(phoneNumber) && delivered ==>
              && reply == Ok
              && db.bookings == old(db.bookings)[bookingId := old(db.bookings[bookingId]).(otp := IssuedOtp(code))]
              && db.outbox == old(db.outbox) + [Sms(phoneNumber.value, OtpOnly(code))]
    ensures db.users == old(db.users) && db.services == old(db.services)
    ensures db.listings == old(db.listings) && db.nextId == old(db.nextId)
  {
    if bookingId !in db.bookings {
      return Fail(404, BookingNotFound);
    }
    var sent := false;
    if Addressable(phoneNumber) {
      sent := db.SendSms(phoneNumber.value, OtpOnly(code), delivered);
    }
    if !sent {
      return Fail(500, OtpNotSent);
    }
    var booking := db.bookings[bookingId];
    booking := booking.(otp := IssuedOtp(code));
    db.SaveBooking(bookingId, booking);
    reply := Ok;
  }

  /**
   * `verifyOtp`: a falsy `otp` is refused before any lookup; a matching one
   * closes the booking and clears the code whatever its status was. The
   * comparison is the intended gate, so a booking without an issued code
   * is refused with "Invalid OTP" (the written gate is `OtpMatches`).
   */
  method VerifyOtp(db: Database, bookingId: Id, otp: JsonValue) returns (reply: Reply)
    requires db.Valid()
    modifies db
    ensures db.Valid()
    ensures !Truthy(otp) ==> reply == Fail(400, MissingOtp) && unchanged(db)
    ensures Truthy(otp) && bookingId !in old(db.bookings) ==>
              reply == Fail(404, BookingNotFound) && unchanged(db)
    ensures Truthy(otp) && bookingId in old(db.bookings) && !OtpMatchesIntended(old(db.bookings[bookingId].otp), otp) ==>
              reply == Fail(400, InvalidOtp) && unchanged(db)
    ensures Truthy(otp) && bookingId in old(db.bookings) && OtpMatchesIntended(old(db.bookings[bookingId].otp), otp) ==>
              && reply == Ok
              && db.bookings == old(db.bookings)[bookingId := old(db.bookings[bookingId]).(status := Closed, otp := Cleared)]
    ensures db.users == old(db.users) && db.services == old(db.services) && db.listings == old(db.listings)
    ensures db.outbox == old(db.outbox) && db.nextId == old(db.nextId)
  {
    if !Truthy(otp) {
      return Fail(400, MissingOtp);
    }
    if bookingId !in db.bookings {
      return Fail(404, BookingNotFound);
    }
    var booking := db.bookings[bookingId];
    if !booking.otp.Code? || StoredString(booking.otp) != JsString(otp) {
      return Fail(400, InvalidOtp);
    }
    booking := booking.(status := Closed);
    booking := booking.(otp := Cleared);
    db.SaveBooking(bookingId, booking);
    reply := Ok;
  }
}
