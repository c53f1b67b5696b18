/** The rules the contact form registers for its fields. A rule set is checked in the order
    required, minimum length, pattern; the first rule that fails gives the field's message. */
module ContactForm {
  import opened Base
  import opened Text
  import opened Validation

  predicate Letter(c: char)
  {
    'a' <= LowerChar(c) <= 'z'
  }

  predicate Digit(c: char)
  {
    '0' <= c <= '9'
  }

  /** `[A-Z0-9._%+-]` under the `i` flag. */
  predicate LocalChar(c: char)
  {
    Letter(c) || Digit(c) || c in "._%+-"
  }

  /** `[A-Z0-9.-]` under the `i` flag. */
  predicate DomainChar(c: char)
  {
    Letter(c) || Digit(c) || c in ".-"
  }

  /** `/^[A-Z0-9._%+-]+@[A-Z0-9.-]+\.[A-Z]{2,}$/i`: the '@' at `a`, the last dot before the
      letters at `d`. */
  predicate StrictShape(s: string, a: int, d: int)
    requires 1 <= a && a + 1 < d && d + 2 < |s|
  {
    s[a] == '@' && s[d] == '.'
    && (forall k :: 0 <= k < a ==> LocalChar(s[k]))
    && (forall k :: a < k < d ==> DomainChar(s[k]))
    && (forall k :: d < k < |s| ==> Letter(s[k]))
  }

  predicate StrictEmail(s: string)
  {
    exists a, d :: 1 <= a && a + 1 < d && d + 2 < |s| && StrictShape(s, a, d)
  }

  /** Every address the contact form accepts also passes the sign-up form's looser test. */
  lemma StrictIsLoose(s: string)
    requires StrictEmail(s)
    ensures LooseEmail(s)
  {
    var a, d :| 1 <= a && a + 1 < d && d + 2 < |s| && StrictShape(s, a, d);
    assert LocalChar(s[a - 1]) && Letter(s[d + 1]);
    forall k | a < k < d ensures !IsSpace(s[k]) {
      assert DomainChar(s[k]);
    }
    assert Shape(s, a, d);
  }

  /** The looser test lets through addresses the contact form refuses: a one-letter ending. */
  lemma LooseIsNotStrict()
    ensures LooseEmail("ann@mail.c") && !StrictEmail("ann@mail.c")
  {
    var s := "ann@mail.c";
    assert Shape(s, 3, 8);
  }

  /** An address with a two-letter ending passes, whatever the case of its letters. */
  lemma MixedCasePasses()
    ensures StrictEmail("Ann.Lee@Mail.co")
  {
    var s := "Ann.Lee@Mail.co";
    assert StrictShape(s, 7, 12);
  }

  /** `/^[0-9]{10,12}$/`. */
  predicate PhoneNumber(s: string)
  {
    10 <= |s| <= 12 && forall k :: 0 <= k < |s| ==> Digit(s[k])
  }

  /** The values the form collects. */
  datatype Contact = Contact(firstname: string, lastname: string, email: string,
                             countrycode: string, phoneNo: string, message: string)

  /** `required` refuses the empty value, then `minLength` the short one. */
  function FirstNameError(v: string): (r: Option<string>)
    ensures r.None? <==> |v| >= 2
    ensures r == Some("First name is required") <==> v == ""
  {
    if v == "" then Some("First name is required")
    else if |v| < 2 then Some("First name must be at least 2 characters")
    else None
  }

  function EmailError(v: string): (r: Option<string>)
    ensures r.None? <==> StrictEmail(v)
    ensures r == Some("Email is required") <==> v == ""
  {
    if v == "" then Some("Email is required")
    else if !StrictEmail(v) then Some("Invalid email address")
    else None
  }

  /** `required: true` carries no text, so a missing code is reported with an empty message. */
  function CountryCodeError(v: string): (r: Option<string>)
    ensures r.None? <==> v != ""
    ensures r.Some? ==> r.value == ""
  {
    if v == "" then Some("") else None
  }

  function PhoneError(v: string): (r: Option<string>)
    ensures r.None? <==> PhoneNumber(v)
    ensures r == Some("Phone number is required") <==> v == ""
  {
    if v == "" then Some("Phone number is required")
    else if !PhoneNumber(v) then Some("Please enter a valid phone number")
    else None
  }

  function MessageError(v: string): (r: Option<string>)
    ensures r.None? <==> |v| >= 10
    ensures r == Some("Message is required") <==> v == ""
  {
    if v == "" then Some("Message is required")
    else if |v| < 10 then Some("Message must be at least 10 characters")
    else None
  }

  /** The errors shown after a submit attempt; the last name is never checked. */
  function ContactErrors(c: Contact): (r: map<string, string>)
    ensures "lastname" !in r
    ensures "firstname" in r <==> FirstNameError(c.firstname).Some?
    ensures "email" in r <==> EmailError(c.email).Some?
    ensures "countrycode" in r <==> CountryCodeError(c.countrycode).Some?
    ensures "phoneNo" in r <==> PhoneError(c.phoneNo).Some?
    ensures "message" in r <==> MessageError(c.message).Some?
    ensures "firstname" in r ==> r["firstname"] == FirstNameError(c.firstname).value
    ensures "email" in r ==> r["email"] == EmailError(c.email).value
    ensures "countrycode" in r ==> r["countrycode"] == CountryCodeError(c.countrycode).value
    ensures "phoneNo" in r ==> r["phoneNo"] == PhoneError(c.phoneNo).value
    ensures "message" in r ==> r["message"] == MessageError(c.message).value
    ensures r.Keys <= {"firstname", "email", "countrycode", "phoneNo", "message"}
  {
    var e0 := Put(map[], "firstname", FirstNameError(c.firstname));
    var e1 := Put(e0, "email", EmailError(c.email));
    var e2 := Put(e1, "countrycode", CountryCodeError(c.countrycode));
    var e3 := Put(e2, "phoneNo", PhoneError(c.phoneNo));
    Put(e3, "message", MessageError(c.message))
  }

  /** The submit handler runs exactly when every registered rule holds. */
  predicate ContactValid(c: Contact)
  {
    |c.firstname| >= 2 && StrictEmail(c.email) && c.countrycode != ""
    && PhoneNumber(c.phoneNo) && |c.message| >= 10
  }

  lemma ContactErrorsEmpty(c: Contact)
    ensures ContactErrors(c) == map[] <==> ContactValid(c)
  {
    var r := ContactErrors(c);
    if ContactValid(c) {
      assert forall k :: k in r ==> k in {"firstname", "email", "countrycode", "phoneNo", "message"};
    } else {
      assert exists k :: k in r;
    }
  }

  /** The last name is free: changing it never changes the errors. */
  lemma LastNameIgnored(c: Contact, lastname: string)
    ensures ContactErrors(c.(lastname := lastname)) == ContactErrors(c)
  {
  }
}
