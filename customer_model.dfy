/** The customer document of the customer service (customer-service/models/Customer.js):
  * the customer and its embedded addresses, the `trim` and `lowercase` setters, the
  * defaults, the `required` validators and the email pattern. Address subdocuments are
  * declared with `_id: false`, so the addresses this service creates carry no id. */
module CustomerModel {
  import opened Outcomes
  import opened Text

  type CustomerId = nat

  /** An address; `id` is the subdocument `_id`, absent under `_id: false`. */
  datatype Address = Address(
    id: Option<string>,
    street: string,
    city: string,
    state: string,
    zipCode: string,
    country: string,
    isDefault: bool)

  datatype Customer = Customer(
    firstName: string,
    lastName: string,
    email: string,
    phone: string,
    addresses: seq<Address>,
    dateOfBirth: Option<int>,
    notes: string,
    isActive: bool)

  /** An address as a request body gives it: a missing string is "", a missing flag `None`. */
  datatype AddressFields = AddressFields(
    street: string,
    city: string,
    state: string,
    zipCode: string,
    country: string,
    isDefault: Option<bool>)

  const FIRST_NAME_REQUIRED := "Please add a first name"
  const LAST_NAME_REQUIRED := "Please add a last name"
  const EMAIL_REQUIRED := "Please add an email"
  const EMAIL_INVALID := "Please add a valid email"
  const PHONE_REQUIRED := "Please add a phone number"

  // ---------------------------------------------------------------------------------
  // The email pattern ^\w+([\.-]?\w+)*@\w+([\.-]?\w+)*(\.\w{2,3})+$

  /** `\w`: an ASCII letter, a digit or the underscore. */
  predicate IsWordChar(c: char) {
    ('a' <= c <= 'z') || ('A' <= c <= 'Z') || ('0' <= c <= '9') || c == '_'
  }

  /** The states of a scanner for the pattern. Before the `@`: `Local` (a word must
    * come), `LocalWord` (inside a run of word characters), `LocalSep` (after a dot or
    * hyphen). After it: `Domain`, `DomainWord` and `DomainSep` likewise, `DomainDot`
    * after a dot, and `Label(n)` inside a run of `n` word characters (4 standing for
    * more) that follows a dot directly. */
  datatype EmailState =
    | Local | LocalWord | LocalSep
    | Domain | DomainWord | DomainSep | DomainDot | Label(length: nat)
    | Reject

  function Step(st: EmailState, c: char): EmailState {
    match st
    case Local => if IsWordChar(c) then LocalWord else Reject
    case LocalWord =>
      if IsWordChar(c) then LocalWord
      else if c == '.' || c == '-' then LocalSep
      else if c == '@' then Domain
      else Reject
    case LocalSep => if IsWordChar(c) then LocalWord else Reject
    case Domain => if IsWordChar(c) then DomainWord else Reject
    case DomainWord =>
      if IsWordChar(c) then DomainWord
      else if c == '-' then DomainSep
      else if c == '.' then DomainDot
      else Reject
    case DomainSep => if IsWordChar(c) then DomainWord else Reject
    case DomainDot => if IsWordChar(c) then Label(1) else Reject
    case Label(n) =>
      if IsWordChar(c) then Label(if n < 4 then n + 1 else 4)
      else if c == '-' then DomainSep
      else if c == '.' then DomainDot
      else Reject
    case Reject => Reject
  }

  /** The state after scanning `s` from `st`, one character at a time from the left. */
  function Scan(s: string, st: EmailState): EmailState
    decreases |s|
  {
    if s == [] then st else Step(Scan(s[..|s| - 1], st), s[|s| - 1])
  }

  /** `^\w+([\.-]?\w+)*@\w+([\.-]?\w+)*(\.\w{2,3})+$`: a name of word runs joined by
    * single dots or hyphens, an `@`, a domain of the same kind, and at the end a dot
    * and a last run of two or three word characters (each `.\w{2,3}` group is itself
    * a joined run, so only the last one matters). */
  predicate ValidEmail(e: string) {
    var st := Scan(e, Local);
    st == Label(2) || st == Label(3)
  }

  /** Only word characters, dots, hyphens and `@` keep a scan alive. */
  lemma StepChars(st: EmailState, c: char)
    requires Step(st, c) != Reject
    ensures IsWordChar(c) || c == '.' || c == '-' || c == '@'
  {
  }

  /** A scan that did not reject met only word characters, dots, hyphens and `@`. */
  lemma {:induction false} ScanChars(s: string, st: EmailState)
    requires Scan(s, st) != Reject
    ensures forall i :: 0 <= i < |s| ==> IsWordChar(s[i]) || s[i] == '.' || s[i] == '-' || s[i] == '@'
    decreases |s|
  {
    if s != [] {
      var front := s[..|s| - 1];
      StepChars(Scan(front, st), s[|s| - 1]);
      ScanChars(front, st);
      assert forall i :: 0 <= i < |s| - 1 ==> s[i] == front[i];
    }
  }

  /** The state of a scan stays a local one until an `@` is read. */
  predicate IsLocalState(st: EmailState) {
    st == Local || st == LocalWord || st == LocalSep
  }

  /** Scanning from a local state reaches a domain state only through an `@`. */
  lemma {:induction false} ScanReachesDomain(s: string, st: EmailState)
    requires IsLocalState(st)
    requires Scan(s, st) != Reject && !IsLocalState(Scan(s, st))
    ensures '@' in s
    decreases |s|
  {
    var front := s[..|s| - 1];
    var before := Scan(front, st);
    if !IsLocalState(before) {
      ScanReachesDomain(front, st);
      var i :| 0 <= i < |front| && front[i] == '@';
      assert s[i] == '@';
    } else {
      assert s[|s| - 1] == '@';
    }
  }

  /** A valid email holds an `@` and no white space, so the trim setter leaves it as it is. */
  lemma ValidEmailShape(e: string)
    requires ValidEmail(e)
    ensures '@' in e
    ensures e != "" && Trimmed(e)
  {
    ScanChars(e, Local);
    ScanReachesDomain(e, Local);
    assert !IsSpace(e[0]) && !IsSpace(e[|e| - 1]);
  }

  /** A last label of four letters is refused: the pattern allows two or three. */
  lemma FourLetterLabelRefused()
    ensures !ValidEmail("ann@shop.info")
  {
    assert Scan("a", Local) == LocalWord;
    assert "an"[..1] == "a";
    assert Scan("an", Local) == LocalWord;
    assert "ann"[..2] == "an";
    assert Scan("ann", Local) == LocalWord;
    assert "ann@"[..3] == "ann";
    assert Scan("ann@", Local) == Domain;
    assert "ann@s"[..4] == "ann@";
    assert Scan("ann@s", Local) == DomainWord;
    assert "ann@sh"[..5] == "ann@s";
    assert Scan("ann@sh", Local) == DomainWord;
    assert "ann@sho"[..6] == "ann@sh";
    assert Scan("ann@sho", Local) == DomainWord;
    assert "ann@shop"[..7] == "ann@sho";
    assert Scan("ann@shop", Local) == DomainWord;
    assert "ann@shop."[..8] == "ann@shop";
    assert Scan("ann@shop.", Local) == DomainDot;
    assert "ann@shop.i"[..9] == "ann@shop.";
    assert Scan("ann@shop.i", Local) == Label(1);
    assert "ann@shop.in"[..10] == "ann@shop.i";
    assert Scan("ann@shop.in", Local) == Label(2);
    assert "ann@shop.inf"[..11] == "ann@shop.in";
    assert Scan("ann@shop.inf", Local) == Label(3);
    assert "ann@shop.info"[..12] == "ann@shop.inf";
    assert Scan("ann@shop.info", Local) == Label(4);
  }

  /** Dots and hyphens may join word runs, and a three-letter last label matches. */
  lemma JoinedNameAccepted()
    ensures ValidEmail("jo.li@my-co.com")
  {
    assert Scan("j", Local) == LocalWord;
    assert "jo"[..1] == "j";
    assert Scan("jo", Local) == LocalWord;
    assert "jo."[..2] == "jo";
    assert Scan("jo.", Local) == LocalSep;
    assert "jo.l"[..3] == "jo.";
    assert Scan("jo.l", Local) == LocalWord;
    assert "jo.li"[..4] == "jo.l";
    assert Scan("jo.li", Local) == LocalWord;
    assert "jo.li@"[..5] == "jo.li";
    assert Scan("jo.li@", Local) == Domain;
    assert "jo.li@m"[..6] == "jo.li@";
    assert Scan("jo.li@m", Local) == DomainWord;
    assert "jo.li@my"[..7] == "jo.li@m";
    assert Scan("jo.li@my", Local) == DomainWord;
    assert "jo.li@my-"[..8] == "jo.li@my";
    assert Scan("jo.li@my-", Local) == DomainSep;
    assert "jo.li@my-c"[..9] == "jo.li@my-";
    assert Scan("jo.li@my-c", Local) == DomainWord;
    assert "jo.li@my-co"[..10] == "jo.li@my-c";
    assert Scan("jo.li@my-co", Local) == DomainWord;
    assert "jo.li@my-co."[..11] == "jo.li@my-co";
    assert Scan("jo.li@my-co.", Local) == DomainDot;
    assert "jo.li@my-co.c"[..12] == "jo.li@my-co.";
    assert Scan("jo.li@my-co.c", Local) == Label(1);
    assert "jo.li@my-co.co"[..13] == "jo.li@my-co.c";
    assert Scan("jo.li@my-co.co", Local) == Label(2);
    assert "jo.li@my-co.com"[..14] == "jo.li@my-co.co";
    assert Scan("jo.li@my-co.com", Local) == Label(3);
  }

  /** The email setters: `trim`, then `lowercase`. */
  function NormalizeEmail(e: string): (r: string)
    ensures Trimmed(r) && IsLower(r) && |r| <= |e|
  {
    ToLowerKeepsTrimmed(Trim(e));
    ToLower(Trim(e))
  }

  /** Normalising a normalised email changes nothing, so a stored email and the same
    * email given again compare equal once both are normalised. */
  lemma NormalizeEmailIdempotent(e: string)
    ensures NormalizeEmail(NormalizeEmail(e)) == NormalizeEmail(e)
  {
    var n := NormalizeEmail(e);
    TrimOfTrimmed(n);
    ToLowerOfLower(n);
  }

  /** Emails that differ only in case or surrounding white space are the same email. */
  lemma NormalizeEmailIgnoresCase(e: string)
    ensures NormalizeEmail(ToLower(e)) == NormalizeEmail(e)
  {
    var t := Trim(e);
    var l := ToLower(e);
    TrimLowerCommute(e);
    assert Trim(l) == ToLower(t);
    assert ToLower(ToLower(t)) == ToLower(t);
  }

  // ---------------------------------------------------------------------------------
  // Addresses

  /** The address subdocument a body's address becomes: every field trimmed, the flag
    * defaulting to false, and no `_id`. */
  function CastAddress(a: AddressFields): Address {
    Address(None, Trim(a.street), Trim(a.city), Trim(a.state), Trim(a.zipCode), Trim(a.country),
            a.isDefault.GetOr(false))
  }

  function CastAddresses(addrs: seq<AddressFields>): (r: seq<Address>)
    ensures |r| == |addrs|
    ensures forall i :: 0 <= i < |addrs| ==> r[i] == CastAddress(addrs[i])
  {
    seq(|addrs|, i requires 0 <= i < |addrs| => CastAddress(addrs[i]))
  }

  /** All five address fields are required. */
  predicate ValidAddress(a: Address) {
    a.street != "" && a.city != "" && a.state != "" && a.zipCode != "" && a.country != ""
  }

  function Required(path: string): string {
    "Path `" + path + "` is required."
  }

  /** The first empty field of an address, in schema order. */
  function AddressViolation(a: Address): (r: Option<string>)
    ensures r.None? <==> ValidAddress(a)
  {
    if a.street == "" then Some(Required("street"))
    else if a.city == "" then Some(Required("city"))
    else if a.state == "" then Some(Required("state"))
    else if a.zipCode == "" then Some(Required("zipCode"))
    else if a.country == "" then Some(Required("country"))
    else None
  }

  /** The violation of the first invalid address, if any. */
  function AddressesViolation(addrs: seq<Address>): (r: Option<string>)
    ensures r.None? <==> forall i :: 0 <= i < |addrs| ==> ValidAddress(addrs[i])
    decreases |addrs|
  {
    if addrs == [] then None
    else if AddressViolation(addrs[0]).Some? then AddressViolation(addrs[0])
    else
      var rest := AddressesViolation(addrs[1..]);
      assert forall i :: 1 <= i < |addrs| ==> addrs[i] == addrs[1..][i - 1];
      rest
  }

  // ---------------------------------------------------------------------------------
  // Customers

  /** What the validators accept. */
  predicate ValidCustomer(c: Customer) {
    && c.firstName != ""
    && c.lastName != ""
    && c.email != "" && ValidEmail(c.email)
    && c.phone != ""
    && forall i :: 0 <= i < |c.addresses| ==> ValidAddress(c.addresses[i])
  }

  /** A stored customer: valid, and its email as the setters leave it. */
  predicate Stored(c: Customer) {
    ValidCustomer(c) && NormalizeEmail(c.email) == c.email
  }

  /** The first validator, in schema order, that `c` fails. (Mongoose collects every
    * failing path into one message; the model keeps the first.) */
  function FirstViolation(c: Customer): (r: Option<string>)
    ensures r.None? <==> ValidCustomer(c)
  {
    if c.firstName == "" then Some(FIRST_NAME_REQUIRED)
    else if c.lastName == "" then Some(LAST_NAME_REQUIRED)
    else if c.email == "" then Some(EMAIL_REQUIRED)
    else if !ValidEmail(c.email) then Some(EMAIL_INVALID)
    else if c.phone == "" then Some(PHONE_REQUIRED)
    else AddressesViolation(c.addresses)
  }

  /** The fields handed to `Customer.create`. */
  datatype Draft = Draft(
    firstName: string,
    lastName: string,
    email: string,
    phone: string,
    addresses: seq<AddressFields>,
    dateOfBirth: Option<int>,
    notes: string)

  /** The document the setters and defaults make of a draft (`isActive` true). */
  function CastDraft(d: Draft): Customer {
    Customer(Trim(d.firstName), Trim(d.lastName), NormalizeEmail(d.email), Trim(d.phone),
             CastAddresses(d.addresses), d.dateOfBirth, Trim(d.notes), true)
  }

  /** `Customer.create(d)`: the setters and defaults, then the validators. */
  function NewCustomer(d: Draft): (r: Result<Customer, Failure>)
    ensures r.Ok? <==> ValidCustomer(CastDraft(d))
    ensures r.Ok? ==> r.value == CastDraft(d) && Stored(r.value)
    ensures r.Err? ==> r.error.Schema?
  {
    var c := CastDraft(d);
    NormalizeEmailIdempotent(d.email);
    match FirstViolation(c)
    case Some(m) => Err(Schema(m))
    case None => Ok(c)
  }

  /** `Customer.create` accepts a draft exactly when the trimmed names and phone are
    * not empty, the normalised email is not empty and matches the pattern, and every
    * trimmed address has its five fields. */
  lemma NewCustomerAccepts(d: Draft)
    ensures NewCustomer(d).Ok? <==>
      && Trim(d.firstName) != "" && Trim(d.lastName) != "" && Trim(d.phone) != ""
      && NormalizeEmail(d.email) != "" && ValidEmail(NormalizeEmail(d.email))
      && forall i :: 0 <= i < |d.addresses| ==> ValidAddress(CastAddress(d.addresses[i]))
  {
    var c := CastDraft(d);
    assert c.email == NormalizeEmail(d.email);
    assert c.addresses == CastAddresses(d.addresses);
  }

  /** The fields of an update (`findByIdAndUpdate` with the body); `None` leaves a
    * field alone. */
  datatype Patch = Patch(
    firstName: Option<string>,
    lastName: Option<string>,
    email: Option<string>,
    phone: Option<string>,
    addresses: Option<seq<AddressFields>>,
    dateOfBirth: Option<int>,
    notes: Option<string>,
    isActive: Option<bool>)

  /** The customer after the update, with the setters run on the written paths. */
  function Merged(c: Customer, u: Patch): Customer {
    Customer(
      if u.firstName.Some? then Trim(u.firstName.value) else c.firstName,
      if u.lastName.Some? then Trim(u.lastName.value) else c.lastName,
      if u.email.Some? then NormalizeEmail(u.email.value) else c.email,
      if u.phone.Some? then Trim(u.phone.value) else c.phone,
      if u.addresses.Some? then CastAddresses(u.addresses.value) else c.addresses,
      if u.dateOfBirth.Some? then u.dateOfBirth else c.dateOfBirth,
      if u.notes.Some? then Trim(u.notes.value) else c.notes,
      u.isActive.GetOr(c.isActive))
  }

  /** The first update validator that fails; with `runValidators: true` only the
    * written paths are validated. */
  function PatchViolation(u: Patch): Option<string> {
    if u.firstName.Some? && Trim(u.firstName.value) == "" then Some(FIRST_NAME_REQUIRED)
    else if u.lastName.Some? && Trim(u.lastName.value) == "" then Some(LAST_NAME_REQUIRED)
    else if u.email.Some? && NormalizeEmail(u.email.value) == "" then Some(EMAIL_REQUIRED)
    else if u.email.Some? && !ValidEmail(NormalizeEmail(u.email.value)) then Some(EMAIL_INVALID)
    else if u.phone.Some? && Trim(u.phone.value) == "" then Some(PHONE_REQUIRED)
    else if u.addresses.Some? then AddressesViolation(CastAddresses(u.addresses.value))
    else None
  }

  /** On a stored customer, validating only the written paths is validating the whole
    * result, and an accepted update leaves a stored customer. */
  lemma {:induction false} PatchValid(c: Customer, u: Patch)
    requires Stored(c)
    ensures PatchViolation(u).None? <==> ValidCustomer(Merged(c, u))
    ensures PatchViolation(u).None? ==> Stored(Merged(c, u))
  {
    var m := Merged(c, u);
    if u.email.Some? {
      NormalizeEmailIdempotent(u.email.value);
      assert m.email == NormalizeEmail(u.email.value);
    } else {
      assert m.email == c.email;
    }
    if u.addresses.Some? {
      assert m.addresses == CastAddresses(u.addresses.value);
    } else {
      assert m.addresses == c.addresses;
    }
  }
}
