/** The pure logic of the agent's client page (app/agent/clients/page.tsx):
    transaction-type classification, the completed-status test, the form
    field validation and the whole-form check, the active / deleted /
    unverified partitions with the name search, and the age shown for a
    date of birth. Strings are ASCII; JavaScript's `trim`, `toUpperCase` and
    `\s` are taken over that alphabet. */
module AgentClientsPage {
  import opened Wrappers
  import Ascii
  import Calendar

  // ---------------------------------------------------------------------
  // Transactions

  /** `normalizeTransactionType`: trimmed and upper-cased, "" for a value
      that is not a string. */
  function NormalizeTransactionType(t: Option<string>): (n: string)
    ensures t.None? ==> n == ""
    ensures t.Some? ==> n == Ascii.ToUpper(Ascii.Trim(t.value))
  {
    if t.Some? then Ascii.ToUpper(Ascii.Trim(t.value)) else ""
  }

  /** The four labels a transaction is shown with. */
  datatype TransactionKind = DepositKind | CreditKind | WithdrawalKind | OtherKind

  function LabelText(k: TransactionKind): string {
    match k
    case DepositKind => "Deposit"
    case CreditKind => "Credit"
    case WithdrawalKind => "Withdrawal"
    case OtherKind => "Transaction"
  }

  datatype DisplayData = DisplayData(isDeposit: bool, kind: TransactionKind, iconClasses: string,
                                     amountClasses: string, amountPrefix: string)

  predicate IsDepositCode(n: string) { n == "D" || n == "DEPOSIT" }
  predicate IsCreditCode(n: string) { n == "C" || n == "CREDIT" }
  predicate IsWithdrawalCode(n: string) { n == "W" || n == "WITHDRAWAL" }

  /** The display data of a normalised type code; the label is
      `LabelText(kind)`. */
  function DisplayDataOf(n: string): (d: DisplayData)
    ensures d.isDeposit <==> IsDepositCode(n) || IsCreditCode(n)
    ensures d.kind == DepositKind <==> IsDepositCode(n)
    ensures d.kind == CreditKind <==> IsCreditCode(n)
    ensures d.kind == WithdrawalKind <==> IsWithdrawalCode(n)
    ensures d.kind == OtherKind <==> !IsDepositCode(n) && !IsCreditCode(n) && !IsWithdrawalCode(n)
    ensures d.amountPrefix == (if d.isDeposit then "+" else "-")
    ensures d.amountClasses == (if d.isDeposit then "text-green-600" else "text-red-600")
    ensures d.iconClasses == (if d.isDeposit then "bg-green-100 text-green-600" else "bg-red-100 text-red-600")
  {
    var isDeposit := IsCreditCode(n) || IsDepositCode(n);
    var kind := if IsDepositCode(n) then DepositKind
                else if isDeposit then CreditKind
                else if IsWithdrawalCode(n) then WithdrawalKind
                else OtherKind;
    DisplayData(isDeposit, kind,
                if isDeposit then "bg-green-100 text-green-600" else "bg-red-100 text-red-600",
                if isDeposit then "text-green-600" else "text-red-600",
                if isDeposit then "+" else "-")
  }

  /** `getTransactionDisplayData`. */
  function TransactionDisplayData(t: Option<string>): DisplayData {
    DisplayDataOf(NormalizeTransactionType(t))
  }

  /** The classification depends only on the normalised type: codes that
      differ in case or surrounding whitespace display alike. */
  lemma DisplayDependsOnNormalForm(a: Option<string>, b: Option<string>)
    requires NormalizeTransactionType(a) == NormalizeTransactionType(b)
    ensures TransactionDisplayData(a) == TransactionDisplayData(b)
  {
  }

  /** A missing type normalises to "" and displays as a plain debit. */
  lemma MissingTypeIsDebit()
    ensures TransactionDisplayData(None) == DisplayData(false, OtherKind, "bg-red-100 text-red-600", "text-red-600", "-")
  {
  }

  /** `isCompletedStatus`: the trimmed, upper-cased status is "COMPLETED". */
  predicate IsCompletedStatus(status: Option<string>): (b: bool)
    ensures b <==> status.Some? && Ascii.EqualsIgnoreCase(Ascii.Trim(status.value), "completed")
  {
    status.Some? && (CompletedIgnoringCase(Ascii.Trim(status.value)); Ascii.ToUpper(Ascii.Trim(status.value)) == "COMPLETED")
  }

  /** Upper-casing gives "COMPLETED" exactly when lower-casing gives "completed". */
  lemma CompletedIgnoringCase(x: string)
    ensures Ascii.ToUpper(x) == "COMPLETED" <==> Ascii.ToLower(x) == "completed"
  {
    if |x| == 9 {
      forall i | 0 <= i < 9
        ensures Ascii.UpperChar(x[i]) == "COMPLETED"[i] <==> Ascii.LowerChar(x[i]) == "completed"[i]
      {
      }
      if Ascii.ToUpper(x) == "COMPLETED" {
        assert forall i :: 0 <= i < 9 ==> Ascii.ToLower(x)[i] == "completed"[i];
      }
      if Ascii.ToLower(x) == "completed" {
        assert forall i :: 0 <= i < 9 ==> Ascii.ToUpper(x)[i] == "COMPLETED"[i];
      }
    }
  }

  /** A missing status is not completed; case does not matter. */
  lemma CompletedStatusCases(s: string)
    requires Ascii.EqualsIgnoreCase(Ascii.Trim(s), "completed")
    ensures IsCompletedStatus(Some(s))
    ensures !IsCompletedStatus(None)
  {
    Ascii.UpperIgnoresCase(Ascii.Trim(s), "completed");
  }

  // ---------------------------------------------------------------------
  // Field validation

  /** The client form's fields, in the order of the form object. */
  datatype FormField = FirstName | LastName | DateOfBirth | Gender | Email | PhoneNumber
                     | Address | City | State | Country | PostalCode

  const ALL_FIELDS: seq<FormField> :=
    [FirstName, LastName, DateOfBirth, Gender, Email, PhoneNumber, Address, City, State, Country, PostalCode]

  lemma AllFieldsListed(f: FormField)
    ensures f in ALL_FIELDS
  {
  }

  /** `!value.trim()`. */
  predicate Blank(v: string) { Ascii.AllSpace(v) }

  predicate AllDigits(v: string) { forall i :: 0 <= i < |v| ==> Ascii.IsDigit(v[i]) }

  /** `/^[a-zA-Z\s]+$/`. */
  predicate LettersAndSpaces(v: string) {
    |v| > 0 && forall i :: 0 <= i < |v| ==> Ascii.IsLetter(v[i]) || Ascii.IsSpace(v[i])
  }

  /** `/^[^\s@]+@[^\s@]+\.[^\s@]+$/`: no whitespace, exactly one "@" with
      something before it, and a "." after it that is neither the first
      character after the "@" nor the last character. */
  predicate EmailShape(v: string) {
    (forall j :: 0 <= j < |v| ==> !Ascii.IsSpace(v[j]))
    && exists i :: 0 < i < |v| && v[i] == '@'
         && (forall j :: 0 <= j < |v| && j != i ==> v[j] != '@')
         && (exists k :: i + 1 < k < |v| - 1 && v[k] == '.')
  }

  /** `/^\+\d{10,15}$/`. */
  predicate PhoneShape(v: string) {
    11 <= |v| <= 16 && v[0] == '+' && AllDigits(v[1..])
  }

  /** The name rule: the first failing check among required, at least 2,
      at most 50, letters and spaces only. */
  function NameError(v: string): (e: string)
    ensures e == "" <==> !Blank(v) && 2 <= |v| <= 50 && LettersAndSpaces(v)
    ensures e == "Required" <==> Blank(v)
    ensures e == "Must be at least 2 characters" <==> !Blank(v) && |v| < 2
    ensures e == "Must not exceed 50 characters" <==> !Blank(v) && |v| > 50
    ensures e == "Letters and spaces only" <==> !Blank(v) && 2 <= |v| <= 50 && !LettersAndSpaces(v)
  {
    if Blank(v) then "Required"
    else if |v| < 2 then "Must be at least 2 characters"
    else if |v| > 50 then "Must not exceed 50 characters"
    else if !LettersAndSpaces(v) then "Letters and spaces only"
    else ""
  }

  /** A name that passes has a letter in it: a non-blank string of letters
      and spaces cannot be all spaces. */
  lemma {:induction false} ValidNameHasLetter(v: string)
    requires NameError(v) == ""
    ensures exists i :: 0 <= i < |v| && Ascii.IsLetter(v[i])
  {
    var i :| 0 <= i < |v| && !Ascii.IsSpace(v[i]);
    assert Ascii.IsLetter(v[i]);
  }

  /** `validateField` for one field. `country` is the form's current
      country, and `dateRule` stands for the clock-dependent checks applied
      to a non-empty date of birth. Gender is not checked. */
  function FieldError(field: FormField, v: string, country: string, dateRule: string -> string): (e: string)
    ensures field == Gender ==> e == ""
    ensures field != Gender && field != DateOfBirth && Blank(v) ==> e == "Required"
    ensures field == DateOfBirth && v == "" ==> e == "Required"
  {
    match field
    case FirstName => NameError(v)
    case LastName => NameError(v)
    case DateOfBirth => if v == "" then "Required" else dateRule(v)
    case Gender => ""
    case Email =>
      if Blank(v) then "Required"
      else if !EmailShape(v) then "Invalid email format"
      else ""
    case PhoneNumber =>
      if Blank(v) then "Required"
      else if !PhoneShape(v) then "Format: +1234567890 (10–15 digits)"
      else ""
    case Address =>
      if Blank(v) then "Required"
      else if |v| < 5 then "Must be at least 5 characters"
      else if |v| > 100 then "Must not exceed 100 characters"
      else ""
    case City => PlaceError(v)
    case State => PlaceError(v)
    case Country => PlaceError(v)
    case PostalCode =>
      if Blank(v) then "Required"
      else if |v| < 4 || |v| > 10 then "4–10 characters required"
      else if country == "Singapore" && !(|v| == 6 && AllDigits(v)) then "Singapore postal code must be 6 digits"
      else ""
  }

  /** What each field's rule accepts: "" means the value passes, and a
      blank value is "Required" for every checked field. */
  lemma FieldErrorMeaning(field: FormField, v: string, country: string, dateRule: string -> string)
    ensures field == Gender ==> FieldError(field, v, country, dateRule) == ""
    ensures field != Gender && field != DateOfBirth && Blank(v) ==> FieldError(field, v, country, dateRule) == "Required"
    ensures field == DateOfBirth ==> FieldError(field, v, country, dateRule) == (if v == "" then "Required" else dateRule(v))
    ensures field == FirstName || field == LastName ==> FieldError(field, v, country, dateRule) == NameError(v)
    ensures field == Email ==> (FieldError(field, v, country, dateRule) == "" <==> !Blank(v) && EmailShape(v))
    ensures field == PhoneNumber ==> (FieldError(field, v, country, dateRule) == "" <==> !Blank(v) && PhoneShape(v))
    ensures field == Address ==> (FieldError(field, v, country, dateRule) == "" <==> !Blank(v) && 5 <= |v| <= 100)
    ensures field == City || field == State || field == Country ==>
      (FieldError(field, v, country, dateRule) == "" <==> !Blank(v) && 2 <= |v| <= 50)
    ensures field == PostalCode ==>
      (FieldError(field, v, country, dateRule) == "" <==>
       !Blank(v) && 4 <= |v| <= 10 && (country == "Singapore" ==> |v| == 6 && AllDigits(v)))
  {
    match field
    case FirstName =>
    case LastName =>
    case DateOfBirth =>
    case Gender =>
    case Email =>
    case PhoneNumber =>
    case Address =>
    case City =>
    case State =>
    case Country =>
    case PostalCode =>
  }

  function PlaceError(v: string): (e: string)
    ensures e == "" <==> !Blank(v) && 2 <= |v| <= 50
  {
    if Blank(v) then "Required"
    else if |v| < 2 then "Must be at least 2 characters"
    else if |v| > 50 then "Must not exceed 50 characters"
    else ""
  }

  /** A valid phone number carries no whitespace, so its non-blank test is
      implied by the pattern. */
  lemma PhoneShapeIsNotBlank(v: string)
    requires PhoneShape(v)
    ensures !Blank(v)
  {
    assert !Ascii.IsSpace(v[0]);
  }

  /** The client form. */
  datatype FormData = FormData(firstName: string, lastName: string, dateOfBirth: string, gender: string,
                               email: string, phoneNumber: string, address: string, city: string,
                               state: string, country: string, postalCode: string)

  function ValueOf(form: FormData, f: FormField): string {
    match f
    case FirstName => form.firstName
    case LastName => form.lastName
    case DateOfBirth => form.dateOfBirth
    case Gender => form.gender
    case Email => form.email
    case PhoneNumber => form.phoneNumber
    case Address => form.address
    case City => form.city
    case State => form.state
    case Country => form.country
    case PostalCode => form.postalCode
  }

  /** `validateForm`: validates each field of the form in turn and collects
      the non-empty messages; the form is valid when none was collected. */
  method ValidateForm(form: FormData, dateRule: string -> string) returns (valid: bool, errors: map<FormField, string>)
    ensures forall f :: f in errors <==> FieldError(f, ValueOf(form, f), form.country, dateRule) != ""
    ensures forall f :: f in errors ==> errors[f] == FieldError(f, ValueOf(form, f), form.country, dateRule)
    ensures valid <==> forall f :: FieldError(f, ValueOf(form, f), form.country, dateRule) == ""
  {
    errors := map[];
    for i := 0 to |ALL_FIELDS|
      invariant forall f :: f in errors <==> f in ALL_FIELDS[..i] && FieldError(f, ValueOf(form, f), form.country, dateRule) != ""
      invariant forall f :: f in errors ==> errors[f] == FieldError(f, ValueOf(form, f), form.country, dateRule)
    {
      var f := ALL_FIELDS[i];
      var err := FieldError(f, ValueOf(form, f), form.country, dateRule);
      if err != "" {
        errors := errors[f := err];
      }
    }
    assert ALL_FIELDS[..|ALL_FIELDS|] == ALL_FIELDS;
    forall f ensures f in ALL_FIELDS { AllFieldsListed(f); }
    valid := |errors| == 0;
    if !valid {
      var f :| f in errors;
    }
  }

  // ---------------------------------------------------------------------
  // Client lists

  /** A client as the page lists it; statuses are optional strings. */
  datatype PageClient = PageClient(clientId: string, firstName: string, lastName: string,
                                   verificationStatus: Option<string>, clientStatus: Option<string>)

  /** `array.filter(keep)`. */
  function Filter<T(!new)>(s: seq<T>, keep: T -> bool): (r: seq<T>)
    ensures |r| <= |s|
    ensures forall x :: x in r <==> x in s && keep(x)
  {
    if s == [] then []
    else if keep(s[0]) then [s[0]] + Filter(s[1..], keep)
    else Filter(s[1..], keep)
  }

  /** Filtering keeps the list's order and its repeats: it distributes over
      concatenation. */
  lemma {:induction false} FilterAppend<T(!new)>(a: seq<T>, b: seq<T>, keep: T -> bool)
    ensures Filter(a + b, keep) == Filter(a, keep) + Filter(b, keep)
  {
    if a == [] {
      assert a + b == b;
    } else {
      assert (a + b)[1..] == a[1..] + b;
      FilterAppend(a[1..], b, keep);
    }
  }

  predicate IsDeleted(c: PageClient) { c.clientStatus == Some("Deleted") }

  function ActiveClients(clients: seq<PageClient>): seq<PageClient> {
    Filter(clients, (c: PageClient) => !IsDeleted(c))
  }

  function DeletedClients(clients: seq<PageClient>): seq<PageClient> {
    Filter(clients, (c: PageClient) => IsDeleted(c))
  }

  function UnverifiedClients(clients: seq<PageClient>): seq<PageClient> {
    Filter(ActiveClients(clients), (c: PageClient) => c.verificationStatus == Some("Unverified"))
  }

  /** The name search over the active clients: first or last name. */
  function FilteredClients(clients: seq<PageClient>, term: string): seq<PageClient> {
    var t := Ascii.ToLower(term);
    Filter(ActiveClients(clients), (c: PageClient) =>
      Ascii.Contains(Ascii.ToLower(c.firstName), t) || Ascii.Contains(Ascii.ToLower(c.lastName), t))
  }

  /** A filter and its complement split a list: their lengths add up. */
  lemma {:induction false} FilterSplits<T(!new)>(s: seq<T>, keep: T -> bool, drop: T -> bool)
    requires forall x :: drop(x) == !keep(x)
    ensures |Filter(s, keep)| + |Filter(s, drop)| == |s|
  {
    if s != [] {
      FilterSplits(s[1..], keep, drop);
    }
  }

  /** Every client is in exactly one of the active and deleted lists, the
      two lists together have as many entries as the whole list, and the
      unverified clients are active ones; a client with no status counts as
      active. */
  lemma {:induction false} PartitionsCoverClients(clients: seq<PageClient>)
    ensures forall c :: c in clients ==> (c in ActiveClients(clients) <==> c !in DeletedClients(clients))
    ensures |ActiveClients(clients)| + |DeletedClients(clients)| == |clients|
    ensures forall c :: c in UnverifiedClients(clients) ==> c in ActiveClients(clients) && !IsDeleted(c)
    ensures forall c :: c in clients && c.clientStatus.None? ==> c in ActiveClients(clients)
  {
    FilterSplits(clients, (c: PageClient) => !IsDeleted(c), (c: PageClient) => IsDeleted(c));
  }

  // ---------------------------------------------------------------------
  // Age

  /** What `calculateAge` shows: "-" without a date, otherwise a number. */
  datatype Age = NoDate | Years(n: int)

  /** `calculateAge`: the difference of the years, minus one when this
      year's birthday is still ahead. The empty date string is `None`. */
  function CalculateAge(dob: Option<Calendar.Date>, today: Calendar.Date): (a: Age)
    ensures dob.None? <==> a == NoDate
    ensures dob.Some? ==>
      a.Years? && !Calendar.Before(today, Calendar.AddYears(dob.value, a.n))
      && Calendar.Before(today, Calendar.AddYears(dob.value, a.n + 1))
  {
    match dob
    case None => NoDate
    case Some(b) =>
      var age := today.year - b.year;
      var m := today.month - b.month;
      if m < 0 || (m == 0 && today.day < b.day) then Years(age - 1) else Years(age)
  }

  /** The age is the one number of whole years passed: any `n` with the
      birthday of year `n` reached and that of `n + 1` ahead equals it. */
  lemma AgeIsUnique(b: Calendar.Date, today: Calendar.Date, n: int)
    requires !Calendar.Before(today, Calendar.AddYears(b, n))
    requires Calendar.Before(today, Calendar.AddYears(b, n + 1))
    ensures CalculateAge(Some(b), today) == Years(n)
  {
  }
}
