/** `validateContactForm`: every required field must be non-blank, a non-empty email
    must match `^[^\s@]+@[^\s@]+\.[^\s@]+$` and a non-empty phone must match
    `^[\d\s\-\(\)]+$`. All checks run; the failures are collected in order. */
module ContactValidation {
  import opened Text
  import opened PhoneFormat

  datatype Field = FullName | Address | City | State | Zip | Phone | Email

  /** The seven required inputs, in the order the form checks them. */
  const RequiredFields: seq<Field> := [FullName, Address, City, State, Zip, Phone, Email]

  datatype ContactForm = ContactForm(
    fullName: string,
    address: string,
    city: string,
    state: string,
    zip: string,
    phone: string,
    email: string)

  function Value(form: ContactForm, field: Field): string {
    match field
    case FullName => form.fullName
    case Address => form.address
    case City => form.city
    case State => form.state
    case Zip => form.zip
    case Phone => form.phone
    case Email => form.email
  }

  /** A failed check. The message text shown for a missing field is the input's
      placeholder, which lives in the page markup; the model keeps the field. */
  datatype ValidationError = MissingField(field: Field) | InvalidEmail | InvalidPhone

  /** `!field.value.trim()`. */
  predicate IsBlank(s: string) {
    Trim(s) == []
  }

  // ---------------------------------------------------------------------------
  // The two patterns
  // ---------------------------------------------------------------------------

  /** The class `[^\s@]`. */
  predicate EmailChar(c: char) {
    !IsWhitespace(c) && c != '@'
  }

  predicate AllEmailChars(s: string) {
    forall k | 0 <= k < |s| :: EmailChar(s[k])
  }

  /** `^[^\s@]+@[^\s@]+\.[^\s@]+$`, read as the regular expression reads: a split of `s`
      into a non-empty run, `@`, a non-empty run, `.`, and a non-empty run, where no
      run holds white space or `@` (a run may hold further dots). */
  predicate EmailMatches(s: string) {
    exists at, dot | 0 < at < |s| && at + 1 < dot < |s| - 1 ::
      && s[at] == '@' && s[dot] == '.'
      && AllEmailChars(s[..at]) && AllEmailChars(s[at + 1..dot]) && AllEmailChars(s[dot + 1..])
  }

  /** A dot somewhere strictly inside `d`. */
  predicate InteriorDot(d: string) {
    |d| >= 3 && '.' in d[1..|d| - 1]
  }

  /** The same pattern in plain words: no white space, exactly one `@`, something
      before it, and after it a domain with a dot that is neither first nor last. */
  predicate EmailWellFormed(s: string) {
    var at := IndexOf(s, '@');
    && NoWhitespace(s)
    && 0 < at < |s|
    && '@' !in s[at + 1..]
    && InteriorDot(s[at + 1..])
  }

  /** A match fixes the `@`: it is the first one, and no other character of the
      address is white space or `@`. */
  lemma MatchIsWellFormed(s: string, at: int, dot: int)
    requires 0 < at < |s| && at + 1 < dot < |s| - 1
    requires s[at] == '@' && s[dot] == '.'
    requires AllEmailChars(s[..at]) && AllEmailChars(s[at + 1..dot]) && AllEmailChars(s[dot + 1..])
    ensures EmailWellFormed(s)
  {
    assert forall k | 0 <= k < at :: s[k] == s[..at][k];
    assert forall k | at < k < dot :: s[k] == s[at + 1..dot][k - at - 1];
    assert forall k | dot < k < |s| :: s[k] == s[dot + 1..][k - dot - 1];
    assert NoWhitespace(s);
    assert '@' !in s[..at];
    assert IndexOf(s, '@') == at;
    var d := s[at + 1..];
    assert forall k | 0 <= k < |d| :: d[k] == s[at + 1 + k];
    assert '@' !in d;
    assert d[1..|d| - 1][dot - at - 2] == '.';
  }

  /** A well-formed address splits at its `@` and at an interior dot of the domain. */
  lemma WellFormedMatches(s: string)
    requires EmailWellFormed(s)
    ensures EmailMatches(s)
  {
    var at := IndexOf(s, '@');
    var d := s[at + 1..];
    var i :| 0 <= i < |d[1..|d| - 1]| && d[1..|d| - 1][i] == '.';
    var dot := at + 2 + i;
    assert d[1..|d| - 1][i] == d[1 + i] == s[dot];
    assert '@' !in s[..at];
    assert forall k | 0 <= k < |d| :: d[k] == s[at + 1 + k];
    assert AllEmailChars(s[..at]);
    assert AllEmailChars(s[at + 1..dot]);
    assert AllEmailChars(s[dot + 1..]);
  }

  /** The regular expression accepts exactly the well-formed addresses. */
  lemma EmailMatchesIff(s: string)
    ensures EmailMatches(s) <==> EmailWellFormed(s)
  {
    if EmailMatches(s) {
      var at, dot :| 0 < at < |s| && at + 1 < dot < |s| - 1
        && s[at] == '@' && s[dot] == '.'
        && AllEmailChars(s[..at]) && AllEmailChars(s[at + 1..dot]) && AllEmailChars(s[dot + 1..]);
      MatchIsWellFormed(s, at, dot);
    }
    if EmailWellFormed(s) {
      WellFormedMatches(s);
    }
  }

  /** The examples of the quote form: no dot after `@` fails, a dotted domain passes. */
  lemma EmailExamples()
    ensures !EmailMatches("a@b")
    ensures EmailMatches("a@b.com")
  {
    var s := "a@b.com";
    assert s[1] == '@' && s[3] == '.';
    assert s[..1] == "a" && s[2..3] == "b" && s[4..] == "com";
    assert AllEmailChars(s[..1]) && AllEmailChars(s[2..3]) && AllEmailChars(s[4..]);
  }

  /** The class `[\d\s\-\(\)]`. */
  predicate PhoneChar(c: char) {
    IsDigit(c) || IsWhitespace(c) || c == '-' || c == '(' || c == ')'
  }

  /** `^[\d\s\-\(\)]+$`. */
  predicate PhoneMatches(s: string) {
    |s| > 0 && forall k | 0 <= k < |s| :: PhoneChar(s[k])
  }

  /** Whatever the phone formatter produces from at least one digit passes the phone
      pattern. */
  lemma FormattedPhoneMatches(s: string)
    requires Digits(s) != []
    ensures PhoneMatches(Format(s))
  {
    forall k | 0 <= k < |Format(s)| ensures PhoneChar(Format(s)[k]) {
      LayoutCharacters(Digits(s), k);
    }
  }

  // ---------------------------------------------------------------------------
  // The checks and their outcome
  // ---------------------------------------------------------------------------

  /** Position of a field in `RequiredFields`. */
  function FieldIndex(field: Field): (i: nat)
    ensures i < |RequiredFields| && RequiredFields[i] == field
  {
    match field
    case FullName => 0
    case Address => 1
    case City => 2
    case State => 3
    case Zip => 4
    case Phone => 5
    case Email => 6
  }

  /** Where an error stands in the report: missing fields by field order, then the
      email error, then the phone error. */
  function Rank(e: ValidationError): nat {
    match e
    case MissingField(f) => FieldIndex(f)
    case InvalidEmail => 7
    case InvalidPhone => 8
  }

  predicate StrictlyRanked(errors: seq<ValidationError>) {
    forall i, j | 0 <= i < j < |errors| :: Rank(errors[i]) < Rank(errors[j])
  }

  /** The missing-field errors for the first `n` required fields, in field order. */
  function MissingFields(form: ContactForm, n: nat): seq<ValidationError>
    requires n <= |RequiredFields|
  {
    if n == 0 then []
    else
      var field := RequiredFields[n - 1];
      MissingFields(form, n - 1) + (if IsBlank(Value(form, field)) then [MissingField(field)] else [])
  }

  lemma FieldIndexOfRequired(k: int)
    requires 0 <= k < |RequiredFields|
    ensures FieldIndex(RequiredFields[k]) == k
  {
  }

  /** The missing-field errors name exactly the blank fields among the first `n`,
      each once and in field order. */
  lemma {:induction false} MissingFieldsExact(form: ContactForm, n: nat)
    requires n <= |RequiredFields|
    ensures StrictlyRanked(MissingFields(form, n))
    ensures forall e | e in MissingFields(form, n) :: e.MissingField? && FieldIndex(e.field) < n
    ensures forall k | 0 <= k < n ::
      MissingField(RequiredFields[k]) in MissingFields(form, n) <==> IsBlank(Value(form, RequiredFields[k]))
    ensures MissingFields(form, n) == [] <==> forall k | 0 <= k < n :: !IsBlank(Value(form, RequiredFields[k]))
  {
    if n > 0 {
      MissingFieldsExact(form, n - 1);
      var prev := MissingFields(form, n - 1);
      var field := RequiredFields[n - 1];
      FieldIndexOfRequired(n - 1);
      var last := if IsBlank(Value(form, field)) then [MissingField(field)] else [];
      assert MissingFields(form, n) == prev + last;
      forall i, j | 0 <= i < j < |prev + last|
        ensures Rank((prev + last)[i]) < Rank((prev + last)[j])
      {
        if j >= |prev| && i < |prev| {
          assert prev[i] in prev;
        }
      }
      forall k | 0 <= k < n
        ensures MissingField(RequiredFields[k]) in prev + last <==> IsBlank(Value(form, RequiredFields[k]))
      {
        FieldIndexOfRequired(k);
        if k < n - 1 {
          assert MissingField(RequiredFields[k]) !in last;
        } else {
          assert MissingField(RequiredFields[k]) !in prev;
        }
      }
    }
  }

  function EmailErrors(form: ContactForm): seq<ValidationError> {
    if form.email != [] && !EmailMatches(form.email) then [InvalidEmail] else []
  }

  function PhoneErrors(form: ContactForm): seq<ValidationError> {
    if form.phone != [] && !PhoneMatches(form.phone) then [InvalidPhone] else []
  }

  /** The full report: missing fields, then the email check, then the phone check. */
  function Errors(form: ContactForm): seq<ValidationError> {
    MissingFields(form, |RequiredFields|) + EmailErrors(form) + PhoneErrors(form)
  }

  /** The form is acceptable: nothing blank, and any email and phone given have the
      right shape. */
  predicate AcceptableForm(form: ContactForm) {
    && (forall f: Field :: !IsBlank(Value(form, f)))
    && (form.email != [] ==> EmailMatches(form.email))
    && (form.phone != [] ==> PhoneMatches(form.phone))
  }

  /** The report lists each failure once, in the order fields, email, phone. */
  lemma ErrorsOrdered(form: ContactForm)
    ensures StrictlyRanked(Errors(form))
  {
    var missing := MissingFields(form, |RequiredFields|);
    MissingFieldsExact(form, |RequiredFields|);
    var rest := EmailErrors(form) + PhoneErrors(form);
    assert Errors(form) == missing + rest;
    forall i, j | 0 <= i < j < |missing + rest|
      ensures Rank((missing + rest)[i]) < Rank((missing + rest)[j])
    {
      if i < |missing| {
        assert missing[i] in missing;
      }
    }
  }

  /** The report is empty exactly when the form is acceptable. */
  lemma NoErrorsIffAcceptable(form: ContactForm)
    ensures Errors(form) == [] <==> AcceptableForm(form)
  {
    var missing := MissingFields(form, |RequiredFields|);
    MissingFieldsExact(form, |RequiredFields|);
    assert Errors(form) == [] <==> missing == [] && EmailErrors(form) == [] && PhoneErrors(form) == [];
    if missing == [] {
      forall f: Field ensures !IsBlank(Value(form, f)) {
        assert RequiredFields[FieldIndex(f)] == f;
      }
    }
  }

  /** A white-space-only email is reported twice: as missing and as malformed. */
  lemma BlankEmailReportedTwice(form: ContactForm)
    requires form.email != [] && AllWhitespace(form.email)
    ensures MissingField(Email) in Errors(form) && InvalidEmail in Errors(form)
  {
    var s := form.email;
    TrimEmptyIff(s);
    forall at | 0 < at < |s| ensures !AllEmailChars(s[..at]) {
      assert s[..at][0] == s[0];
    }
    MissingFieldsExact(form, |RequiredFields|);
    FieldIndexOfRequired(6);
  }

  /** An empty email is only a missing field, not a malformed address. */
  lemma EmptyEmailOnlyMissing(form: ContactForm)
    requires form.email == []
    ensures MissingField(Email) in Errors(form) && InvalidEmail !in Errors(form)
  {
    MissingFieldsExact(form, |RequiredFields|);
    FieldIndexOfRequired(6);
  }

  /** `validateContactForm`: the loop over the required fields pushes a missing-field
      error for each blank one, then the email and phone checks run. */
  method ValidateContactForm(form: ContactForm) returns (isValid: bool, errors: seq<ValidationError>)
    ensures errors == Errors(form)
    ensures isValid <==> AcceptableForm(form)
    ensures isValid <==> errors == []
  {
    isValid := true;
    errors := [];
    for i := 0 to |RequiredFields|
      invariant errors == MissingFields(form, i)
      invariant isValid <==> errors == []
    {
      var field := RequiredFields[i];
      if IsBlank(Value(form, field)) {
        errors := errors + [MissingField(field)];
        isValid := false;
      }
    }
    if form.email != [] && !EmailMatches(form.email) {
      errors := errors + [InvalidEmail];
      isValid := false;
    }
    if form.phone != [] && !PhoneMatches(form.phone) {
      errors := errors + [InvalidPhone];
      isValid := false;
    }
    NoErrorsIffAcceptable(form);
  }
}
