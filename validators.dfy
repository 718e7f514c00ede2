/**
 * The reservation validator: it collects, in a fixed order, the messages for
 * a missing seat list, a missing customer and the customer fields the
 * options require, and checks the shape of an email address.
 */
module Validators {
  import opened Common
  import R = Reservations

  const SEAT_REQUIRED := "Reservation must include at least one seat"
  const CUSTOMER_REQUIRED := "Customer information is required"
  const NAME_REQUIRED := "Customer name is required"
  const EMAIL_REQUIRED := "Customer email is required"
  const EMAIL_INVALID := "Customer email is invalid"
  const PHONE_REQUIRED := "Customer phone is required"

  /** The customer fields the validator reads; `""` stands for an absent or falsy value. */
  datatype CustomerInfo = CustomerInfo(name: string, email: string, phone: string)

  /** The properties of the object under validation; `None` is one that is absent or falsy. */
  datatype Candidate = Candidate(seatIds: Option<seq<string>>, customer: Option<CustomerInfo>)

  /** The options object; `None` is a property left `undefined`, which takes its default. */
  datatype ValidationOptions = ValidationOptions(
    requireCustomerName: Option<bool>, requireCustomerEmail: Option<bool>, requireCustomerPhone: Option<bool>)

  datatype ValidationResult = ValidationResult(isValid: bool, errors: seq<string>)

  /** Name and email are required and the phone is not, unless the options say otherwise. */
  function RequireName(o: ValidationOptions): bool { OrElse(o.requireCustomerName, true) }
  function RequireEmail(o: ValidationOptions): bool { OrElse(o.requireCustomerEmail, true) }
  function RequirePhone(o: ValidationOptions): bool { OrElse(o.requireCustomerPhone, false) }

  /** The characters the class `\s` of a JavaScript regular expression matches. */
  predicate IsSpace(c: char) {
    c == ' ' || c == '\t' || c == '\n' || c == '\r' || c == '\U{000B}' || c == '\U{000C}' ||
    c == '\U{00A0}' || c == '\U{1680}' || ('\U{2000}' <= c <= '\U{200A}') ||
    c == '\U{2028}' || c == '\U{2029}' || c == '\U{202F}' || c == '\U{205F}' ||
    c == '\U{3000}' || c == '\U{FEFF}'
  }

  /** Every character matches `[^\s@]`. */
  predicate Plain(s: string) {
    forall k :: 0 <= k < |s| ==> !IsSpace(s[k]) && s[k] != '@'
  }

  /** The position of the first `c` in `s`, or -1. */
  function IndexOfChar(s: string, c: char): (k: int)
    ensures -1 <= k < |s|
    ensures k == -1 <==> forall i :: 0 <= i < |s| ==> s[i] != c
    ensures 0 <= k ==> s[k] == c && forall i :: 0 <= i < k ==> s[i] != c
  {
    if s == [] then -1
    else if s[0] == c then 0
    else
      var k := IndexOfChar(s[1..], c);
      if k == -1 then -1 else k + 1
  }

  /**
   * `isValidEmail`: the part before the first `@` is nonempty and plain, the
   * rest is plain and has a `.` that is neither its first nor its last
   * character.
   */
  predicate IsValidEmail(email: string)
    ensures IsValidEmail(email) ==> 5 <= |email| && '@' in email
    ensures IsValidEmail(email) ==> forall k :: 0 <= k < |email| ==> !IsSpace(email[k])
  {
    var at := IndexOfChar(email, '@');
    var domain := email[at + 1..];
    0 < at && Plain(email[..at]) && Plain(domain) &&
    |domain| >= 3 && IndexOfChar(domain[1..|domain| - 1], '.') >= 0
  }

  /** The regular expression `^[^\s@]+@[^\s@]+\.[^\s@]+$`, read as a split of the string. */
  ghost predicate MatchesEmailPattern(email: string) {
    exists at, dot :: 0 < at && at + 1 < dot && dot + 1 < |email| && email[at] == '@' && email[dot] == '.' &&
                      Plain(email[..at]) && Plain(email[at + 1..dot]) && Plain(email[dot + 1..])
  }

  /** Every stretch of a plain string is plain. */
  lemma PlainSlice(s: string, i: nat, j: nat)
    requires i <= j <= |s| && Plain(s)
    ensures Plain(s[i..j])
  {
    assert forall k :: 0 <= k < j - i ==> s[i..j][k] == s[i + k];
  }

  /** An address `isValidEmail` accepts splits as the regular expression requires. */
  lemma ValidEmailMatches(email: string)
    requires IsValidEmail(email)
    ensures MatchesEmailPattern(email)
  {
    var at := IndexOfChar(email, '@');
    var domain := email[at + 1..];
    var inner := domain[1..|domain| - 1];
    var k := IndexOfChar(inner, '.');
    var dot := at + 2 + k;
    assert email[dot] == inner[k] == '.';
    assert email[at + 1..dot] == domain[..k + 1];
    assert email[dot + 1..] == domain[k + 2..];
    PlainSlice(domain, 0, k + 1);
    PlainSlice(domain, k + 2, |domain|);
  }

  /** An `@` preceded by a plain stretch is the first `@`. */
  lemma FirstAtSign(email: string, at: nat)
    requires at < |email| && email[at] == '@' && Plain(email[..at])
    ensures IndexOfChar(email, '@') == at
  {
    assert forall i :: 0 <= i < at ==> email[..at][i] == email[i];
  }

  /** A plain left part, a `.` and a plain right part make a plain string with an inner dot. */
  lemma DottedDomain(domain: string, left: string, right: string)
    requires domain == left + ['.'] + right && left != [] && right != []
    requires Plain(left) && Plain(right)
    ensures Plain(domain) && |domain| >= 3 && IndexOfChar(domain[1..|domain| - 1], '.') >= 0
  {
    forall i | 0 <= i < |domain|
      ensures !IsSpace(domain[i]) && domain[i] != '@'
    {
      if i < |left| {
        assert domain[i] == left[i];
      } else if i > |left| {
        assert domain[i] == right[i - |left| - 1];
      }
    }
    assert domain[1..|domain| - 1][|left| - 1] == '.';
  }

  /** An address the regular expression matches is accepted by `isValidEmail`. */
  lemma MatchingEmailValid(email: string, at: nat, dot: nat)
    requires 0 < at && at + 1 < dot && dot + 1 < |email| && email[at] == '@' && email[dot] == '.'
    requires Plain(email[..at]) && Plain(email[at + 1..dot]) && Plain(email[dot + 1..])
    ensures IsValidEmail(email)
  {
    FirstAtSign(email, at);
    DottedDomain(email[at + 1..], email[at + 1..dot], email[dot + 1..]);
  }

  /** `isValidEmail` accepts exactly the strings the regular expression matches. */
  lemma IsValidEmailMatchesPattern(email: string)
    ensures IsValidEmail(email) <==> MatchesEmailPattern(email)
  {
    if IsValidEmail(email) {
      ValidEmailMatches(email);
    }
    if MatchesEmailPattern(email) {
      var at, dot :| 0 < at && at + 1 < dot && dot + 1 < |email| && email[at] == '@' && email[dot] == '.' &&
                     Plain(email[..at]) && Plain(email[at + 1..dot]) && Plain(email[dot + 1..]);
      MatchingEmailValid(email, at, dot);
    }
  }

  /** The seat message, when the seat list is absent or empty. */
  function SeatErrors(seatIds: Option<seq<string>>): seq<string> {
    if seatIds.None? || seatIds.value == [] then [SEAT_REQUIRED] else []
  }

  /** The email message: "required" when a required email is absent, else "invalid" for a malformed one. */
  function EmailErrors(email: string, required: bool): seq<string> {
    if required && email == "" then [EMAIL_REQUIRED]
    else if email != "" && !IsValidEmail(email) then [EMAIL_INVALID]
    else []
  }

  /** The name message, when a required name is absent. */
  function NameErrors(c: CustomerInfo, o: ValidationOptions): seq<string> {
    if RequireName(o) && c.name == "" then [NAME_REQUIRED] else []
  }

  /** The phone message, when a required phone is absent. */
  function PhoneErrors(c: CustomerInfo, o: ValidationOptions): seq<string> {
    if RequirePhone(o) && c.phone == "" then [PHONE_REQUIRED] else []
  }

  /**
   * Every message `validateReservation` reports for `r`, in order: the seat
   * message, then one message for a missing customer or else those about its
   * name, email and phone.
   */
  function ValidationErrors(r: Candidate, o: ValidationOptions): (errors: seq<string>)
    ensures errors == [] ==> r.customer.Some? && r.seatIds.Some? && r.seatIds.value != []
    ensures r.customer.None? ==> CUSTOMER_REQUIRED in errors
    ensures r.seatIds.None? || r.seatIds.value == [] ==> errors[0] == SEAT_REQUIRED
  {
    match r.customer
    case None => SeatErrors(r.seatIds) + [CUSTOMER_REQUIRED]
    case Some(c) => SeatErrors(r.seatIds) + (NameErrors(c, o) + EmailErrors(c.email, RequireEmail(o)) + PhoneErrors(c, o))
  }

  /** The email check: "required" for a missing required email, else "invalid" for a malformed one. */
  method CheckEmail(email: string, required: bool) returns (errors: seq<string>)
    ensures errors == EmailErrors(email, required)
    ensures |errors| <= 1
  {
    errors := [];
    if required && email == "" {
      errors := [EMAIL_REQUIRED];
    } else if email != "" && !IsValidEmail(email) {
      errors := [EMAIL_INVALID];
    }
  }

  /** The checks on a present customer, pushed in order: name, email, phone. */
  method CheckCustomer(customer: CustomerInfo, options: ValidationOptions) returns (errors: seq<string>)
    ensures errors == NameErrors(customer, options) + EmailErrors(customer.email, RequireEmail(options)) +
                      PhoneErrors(customer, options)
  {
    errors := [];
    if RequireName(options) && customer.name == "" {
      errors := errors + [NAME_REQUIRED];
    }
    var emailErrors := CheckEmail(customer.email, RequireEmail(options));
    errors := errors + emailErrors;
    if RequirePhone(options) && customer.phone == "" {
      errors := errors + [PHONE_REQUIRED];
    }
  }

  /**
   * `validateReservation`: the messages are pushed in the order the checks
   * run, and the reservation is valid exactly when there is none.
   */
  method ValidateReservation(reservation: Candidate, options: ValidationOptions) returns (result: ValidationResult)
    ensures result.errors == ValidationErrors(reservation, options)
    ensures result.isValid <==> result.errors == []
  {
    var errors: seq<string> := [];
    if reservation.seatIds.None? || |reservation.seatIds.value| == 0 {
      errors := errors + [SEAT_REQUIRED];
    }
    if reservation.customer.None? {
      errors := errors + [CUSTOMER_REQUIRED];
    } else {
      var customerErrors := CheckCustomer(reservation.customer.value, options);
      errors := errors + customerErrors;
    }
    result := ValidationResult(|errors| == 0, errors);
  }

  /** The seat message is reported exactly for a missing or empty seat list, and then comes first. */
  lemma SeatErrorFirst(r: Candidate, o: ValidationOptions)
    ensures var errs := ValidationErrors(r, o);
      && (SEAT_REQUIRED in errs <==> r.seatIds.None? || r.seatIds.value == [])
      && (SEAT_REQUIRED in errs ==> errs[0] == SEAT_REQUIRED)
  {
  }

  /** A missing customer yields its one message and no message about customer fields. */
  lemma MissingCustomerOnly(r: Candidate, o: ValidationOptions)
    requires r.customer.None?
    ensures ValidationErrors(r, o) == SeatErrors(r.seatIds) + [CUSTOMER_REQUIRED]
  {
  }

  /** The email is reported either as missing or as malformed, never both. */
  lemma EmailErrorsExclusive(r: Candidate, o: ValidationOptions)
    ensures !(EMAIL_REQUIRED in ValidationErrors(r, o) && EMAIL_INVALID in ValidationErrors(r, o))
  {
  }

  /** Each customer-field message appears exactly under its own condition. */
  lemma CustomerFieldErrors(r: Candidate, o: ValidationOptions)
    ensures var errs := ValidationErrors(r, o);
      && (NAME_REQUIRED in errs <==> r.customer.Some? && RequireName(o) && r.customer.value.name == "")
      && (EMAIL_REQUIRED in errs <==> r.customer.Some? && RequireEmail(o) && r.customer.value.email == "")
      && (EMAIL_INVALID in errs <==>
            r.customer.Some? && r.customer.value.email != "" && !IsValidEmail(r.customer.value.email))
      && (PHONE_REQUIRED in errs <==> r.customer.Some? && RequirePhone(o) && r.customer.value.phone == "")
      && (CUSTOMER_REQUIRED in errs <==> r.customer.None?)
  {
  }

  /** At most four messages: the seat, then three about the customer's fields. */
  lemma AtMostFourErrors(r: Candidate, o: ValidationOptions)
    ensures |ValidationErrors(r, o)| <= 4
  {
  }

  /** A reservation of the engine, which names its items `itemIds`, seen by the validator. */
  function AsCandidate(j: R.ReservationJson): Candidate {
    Candidate(None, Some(CustomerInfo(j.customer.name, j.customer.email, j.customer.phone)))
  }

  /**
   * The validator reads `seatIds`, which the engine's reservations do not
   * have: every one of them is invalid, with the seat message first.
   */
  lemma EngineReservationsAlwaysInvalid(j: R.ReservationJson, o: ValidationOptions)
    ensures var errs := ValidationErrors(AsCandidate(j), o);
      errs != [] && errs[0] == SEAT_REQUIRED
  {
  }
}
