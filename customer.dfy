/**
 * Customers: name and social security number fixed, optional phone, e-mail
 * and address (Java's null as None), an optional membership, and the
 * builder that validates every field before a customer is made.
 */
module Customers {
  import opened JavaInt
  import opened Wrappers
  import opened Memberships
  import JavaText

  // ------------------------------------------------------ character classes

  predicate IsAsciiLetter(c: char) { 'a' <= c <= 'z' || 'A' <= c <= 'Z' }

  /** The punctuation `REGEX_SPECIAL_CHARACTERS_WITHOUT_DASH` lists, the backslash among it. */
  predicate IsSpecialWithoutDash(c: char)
  {
    c == '$' || c == '&' || c == '+' || c == ',' || c == ':' || c == ';' || c == '=' ||
    c == '\\' || c == '?' || c == '@' || c == '#' || c == '|' || c == '/' || c == '\'' ||
    c == '<' || c == '>' || c == '.' || c == '^' || c == '*' || c == '(' || c == ')' ||
    c == '%' || c == '!'
  }

  /** The character classes the validators search a string for. */
  datatype CharClass =
    | Numbers                     // `[0-9]`
    | Characters                  // `[a-zA-Z]`
    | SpecialCharactersWithoutDash
    | SpecialCharacters           // the punctuation above and `-`

  predicate InClass(c: char, cls: CharClass)
  {
    match cls
    case Numbers => JavaText.IsAsciiDigit(c)
    case Characters => IsAsciiLetter(c)
    case SpecialCharactersWithoutDash => IsSpecialWithoutDash(c)
    case SpecialCharacters => IsSpecialWithoutDash(c) || c == '-'
  }

  /**
   * Where `Pattern.compile(cls).matcher(s).find()` finds its first match:
   * the first position whose character is in the class, or None.
   */
  function FindIndex(s: string, cls: CharClass): (r: Option<nat>)
    ensures r.Some? ==> r.value < |s| && InClass(s[r.value], cls)
    ensures r.Some? ==> forall j :: 0 <= j < r.value ==> !InClass(s[j], cls)
    ensures r.None? ==> forall j :: 0 <= j < |s| ==> !InClass(s[j], cls)
    decreases |s|
  {
    if s == [] then None
    else if InClass(s[0], cls) then Some(0)
    else match FindIndex(s[1..], cls)
      case None => None
      case Some(i) => Some(i + 1)
  }

  /** `matcher(s).find()` for a one-character class. */
  predicate Find(s: string, cls: CharClass)
  {
    FindIndex(s, cls).Some?
  }

  /** `find` succeeds exactly when some character of `s` is in the class. */
  lemma FindIffSome(s: string, cls: CharClass)
    ensures Find(s, cls) <==> exists i :: 0 <= i < |s| && InClass(s[i], cls)
  {
    if Find(s, cls) {
      var i := FindIndex(s, cls).value;
      assert InClass(s[i], cls);
    }
  }

  // ------------------------------------------------------------ validators

  /** Why the builder threw IllegalArgumentException. */
  datatype Reason =
    | TooFewCharacters
    | TooManyCharacters
    | WrongLength
    | ContainsDigits
    | ContainsCharacters
    | ContainsSpecialCharacters
    | NotAnEmailAddress
    | NoStreetNumber
    | NoStreetName
    | WrongStreetShape

  datatype Field = Name | SSNumber | PhoneNumber | EmailAddress | Address

  datatype Invalid = Invalid(field: Field, reason: Reason)

  /**
   * `validateName`: 3 to 150 characters (UTF-16 units), no digit, and none of
   * the special characters, though a dash is allowed.
   */
  function ValidateName(name: string): (r: Option<Reason>)
    ensures r.None? <==>
      3 <= JavaText.Length(name) <= 150 && !Find(name, Numbers) && !Find(name, SpecialCharactersWithoutDash)
    ensures r == Some(TooFewCharacters) <==> JavaText.Length(name) < 3
  {
    if JavaText.Length(name) < 3 then Some(TooFewCharacters)
    else if JavaText.Length(name) > 150 then Some(TooManyCharacters)
    else if Find(name, Numbers) then Some(ContainsDigits)
    else if Find(name, SpecialCharactersWithoutDash) then Some(ContainsSpecialCharacters)
    else None
  }

  /** `validateSSNumber`: exactly 10 units, no ASCII letter, no special character, dash included. */
  function ValidateSSNumber(ssn: string): (r: Option<Reason>)
    ensures r.None? <==>
      JavaText.Length(ssn) == 10 && !Find(ssn, Characters) && !Find(ssn, SpecialCharacters)
    ensures r == Some(WrongLength) <==> JavaText.Length(ssn) != 10
  {
    if JavaText.Length(ssn) != 10 then Some(WrongLength)
    else if Find(ssn, Characters) then Some(ContainsCharacters)
    else if Find(ssn, SpecialCharacters) then Some(ContainsSpecialCharacters)
    else None
  }

  /** `validatePhoneNumber`: absent, or 8 to 10 units with no ASCII letter and no special character. */
  function ValidatePhoneNumber(phone: Option<string>): (r: Option<Reason>)
    ensures r.None? <==>
      phone.None? ||
      (8 <= JavaText.Length(phone.value) <= 10 &&
       !Find(phone.value, Characters) && !Find(phone.value, SpecialCharacters))
  {
    match phone
    case None => None
    case Some(p) =>
      if JavaText.Length(p) > 10 then Some(TooManyCharacters)
      else if JavaText.Length(p) < 8 then Some(TooFewCharacters)
      else if Find(p, Characters) then Some(ContainsCharacters)
      else if Find(p, SpecialCharacters) then Some(ContainsSpecialCharacters)
      else None
  }

  // ------------------------------------------------------ e-mail grammar

  /** `[A-Za-z0-9+_.-]`, the characters before the `@`. */
  predicate IsLocalChar(c: char)
  {
    IsAsciiLetter(c) || JavaText.IsAsciiDigit(c) || c == '+' || c == '_' || c == '.' || c == '-'
  }

  /** `[A-Za-z]+[A-Za-z0-9-]*`: a letter first, then letters, digits and dashes. */
  predicate IsLabel(l: string)
  {
    |l| > 0 && IsAsciiLetter(l[0]) &&
    forall i :: 1 <= i < |l| ==> IsAsciiLetter(l[i]) || JavaText.IsAsciiDigit(l[i]) || l[i] == '-'
  }

  /** Every dot-separated part of a domain is a label. */
  predicate AllLabels(labels: seq<string>)
  {
    forall k :: 0 <= k < |labels| ==> IsLabel(labels[k])
  }

  /** The position of the first `c` in `s`. */
  function IndexOf(s: string, c: char): (i: nat)
    requires c in s
    ensures i < |s| && s[i] == c && c !in s[..i]
  {
    if s[0] == c then 0
    else
      var i := IndexOf(s[1..], c) + 1;
      assert s[..i] == [s[0]] + s[1..][..i - 1];
      i
  }

  /**
   * The whole of `s` is `[A-Za-z0-9+_.-]+@label(\.label)*`: a non-empty local
   * part before the first `@`, and after it labels separated by dots.
   */
  predicate EmailShape(s: string)
  {
    '@' in s &&
    var at := IndexOf(s, '@');
    at > 0 &&
    (forall i :: 0 <= i < at ==> IsLocalChar(s[i])) &&
    AllLabels(JavaText.SplitAll(s[at + 1..], '.'))
  }

  /** The characters Java's `$` accepts as a final line terminator. */
  predicate IsLineTerminator(c: char)
  {
    c == '\n' || c == '\r' || c == '\U{0085}' || c == '\U{2028}' || c == '\U{2029}'
  }

  /**
   * `s` without the line terminator at its very end, if there is one: `$`
   * also matches just before it.
   */
  function WithoutFinalTerminator(s: string): (r: Option<string>)
  {
    if |s| >= 2 && s[|s| - 2..] == "\r\n" then Some(s[..|s| - 2])
    else if |s| >= 1 && IsLineTerminator(s[|s| - 1]) then Some(s[..|s| - 1])
    else None
  }

  /** `^...$` with `find`: the e-mail shape, up to a final line terminator. */
  predicate MatchesEmailPattern(s: string)
  {
    EmailShape(s) || (WithoutFinalTerminator(s).Some? && EmailShape(WithoutFinalTerminator(s).value))
  }

  /** `validateEmailAddress`: absent, or of the e-mail shape. */
  function ValidateEmailAddress(email: Option<string>): (r: Option<Reason>)
    ensures r.None? <==> email.None? || MatchesEmailPattern(email.value)
  {
    match email
    case None => None
    case Some(e) => if MatchesEmailPattern(e) then None else Some(NotAnEmailAddress)
  }

  /**
   * `validateAddress`: absent, or free of special characters (dash included),
   * with a digit and an ASCII letter, and either starting with a letter or
   * ending with a digit.
   */
  function ValidateAddress(address: Option<string>): (r: Option<Reason>)
    ensures r.None? <==>
      address.None? ||
      (!Find(address.value, SpecialCharacters) && Find(address.value, Numbers) &&
       Find(address.value, Characters) &&
       |address.value| > 0 &&
       (IsAsciiLetter(address.value[0]) || JavaText.IsAsciiDigit(address.value[|address.value| - 1])))
  {
    match address
    case None => None
    case Some(a) =>
      if Find(a, SpecialCharacters) then Some(ContainsSpecialCharacters)
      else if !Find(a, Numbers) then Some(NoStreetNumber)
      else if !Find(a, Characters) then Some(NoStreetName)
      else if !(IsAsciiLetter(a[0]) || JavaText.IsAsciiDigit(a[|a| - 1])) then Some(WrongStreetShape)
      else None
  }

  /** What the builder holds. */
  datatype CustomerFields = CustomerFields(
    name: string, sSNumber: string,
    phoneNumber: Option<string>, emailAddress: Option<string>, address: Option<string>)

  /** `validateCustomer`: the first field, in the order checked, that fails, and why. */
  function ValidateCustomer(f: CustomerFields): (r: Option<Invalid>)
    ensures r.None? <==>
      ValidateName(f.name).None? && ValidateSSNumber(f.sSNumber).None? &&
      ValidatePhoneNumber(f.phoneNumber).None? && ValidateEmailAddress(f.emailAddress).None? &&
      ValidateAddress(f.address).None?
    ensures r.Some? && r.value.field == Name ==> Some(r.value.reason) == ValidateName(f.name)
    ensures r.Some? && r.value.field == SSNumber ==>
              ValidateName(f.name).None? && Some(r.value.reason) == ValidateSSNumber(f.sSNumber)
    ensures r.Some? && r.value.field == PhoneNumber ==>
              ValidateName(f.name).None? && ValidateSSNumber(f.sSNumber).None? &&
              Some(r.value.reason) == ValidatePhoneNumber(f.phoneNumber)
    ensures r.Some? && r.value.field == EmailAddress ==>
              ValidateName(f.name).None? && ValidateSSNumber(f.sSNumber).None? &&
              ValidatePhoneNumber(f.phoneNumber).None? &&
              Some(r.value.reason) == ValidateEmailAddress(f.emailAddress)
    ensures r.Some? && r.value.field == Address ==>
              ValidateName(f.name).None? && ValidateSSNumber(f.sSNumber).None? &&
              ValidatePhoneNumber(f.phoneNumber).None? && ValidateEmailAddress(f.emailAddress).None? &&
              Some(r.value.reason) == ValidateAddress(f.address)
  {
    match ValidateName(f.name)
    case Some(why) => Some(Invalid(Name, why))
    case None =>
      match ValidateSSNumber(f.sSNumber)
      case Some(why) => Some(Invalid(SSNumber, why))
      case None =>
        match ValidatePhoneNumber(f.phoneNumber)
        case Some(why) => Some(Invalid(PhoneNumber, why))
        case None =>
          match ValidateEmailAddress(f.emailAddress)
          case Some(why) => Some(Invalid(EmailAddress, why))
          case None =>
            match ValidateAddress(f.address)
            case Some(why) => Some(Invalid(Address, why))
            case None => None
  }

  // --------------------------------------------------------------- toString

  /** What `toString` always writes first: the name and the social security number. */
  function Head(name: string, ssn: string): (h: string)
    ensures |h| > 0 && h[0] == '['
  {
    "[Name = " + name + ", SSNumber = " + ssn
  }

  /** The optional part `toString` writes for a field after `key`: nothing when absent. */
  function Part(key: string, value: Option<string>): (r: string)
    ensures value.None? ==> |r| == 0
    ensures value.Some? ==> |r| == |key| + |value.value| && r[..|key|] == key && r[|key|..] == value.value
  {
    if value.Some? then key + value.value else ""
  }

  /**
   * `toString`: name and number, then address, e-mail and phone for those
   * present, in that order, in square brackets.
   */
  function CustomerText(name: string, ssn: string, address: Option<string>,
                        email: Option<string>, phone: Option<string>): (r: string)
  {
    Head(name, ssn) + Tail(address, email, phone)
  }

  /** The text starts with name and number and ends with `]`; with no optional field, that is all. */
  lemma CustomerTextShape(name: string, ssn: string, address: Option<string>,
                          email: Option<string>, phone: Option<string>)
    ensures var r, head := CustomerText(name, ssn, address, email, phone), Head(name, ssn);
      |r| > |head| && r[..|head|] == head && r[|r| - 1] == ']'
    ensures address.None? && email.None? && phone.None? ==>
      CustomerText(name, ssn, address, email, phone) == "[Name = " + name + ", SSNumber = " + ssn + "]"
  {
    var head := Head(name, ssn);
    assert (head + Tail(address, email, phone))[..|head|] == head;
  }

  /** Everything `toString` writes after the social security number. */
  function Tail(address: Option<string>, email: Option<string>, phone: Option<string>): (r: string)
    ensures |r| > 0 && r[|r| - 1] == ']'
  {
    Part(", Address = ", address) + (Part(", EmailAddress = ", email) + (Part(", PhoneNumber = ", phone) + "]"))
  }

  /** Concatenation regroups freely. */
  lemma Assoc(a: string, b: string, c: string)
    ensures a + b + c == a + (b + c)
  {
  }

  /** Writing `mid` at the seam of `lead + tail` gives `lead + mid + tail`. */
  lemma Splice(lead: string, mid: string, tail: string)
    ensures var s := lead + tail; s[..|lead|] + mid + s[|lead|..] == lead + mid + tail
  {
    assert (lead + tail)[..|lead|] == lead;
    assert (lead + tail)[|lead|..] == tail;
  }

  /** With every optional field set, all five appear, in the order name, number, address, e-mail, phone. */
  lemma CustomerTextAllFields(name: string, ssn: string, a: string, e: string, p: string)
    ensures CustomerText(name, ssn, Some(a), Some(e), Some(p)) ==
      "[Name = " + name + ", SSNumber = " + ssn + ", Address = " + a +
      ", EmailAddress = " + e + ", PhoneNumber = " + p + "]"
  {
    var h := Head(name, ssn);
    var pa, pe, pp := ", Address = " + a, ", EmailAddress = " + e, ", PhoneNumber = " + p;
    assert Tail(Some(a), Some(e), Some(p)) == pa + (pe + (pp + "]"));
    Assoc(h, pa, pe + (pp + "]"));
    Assoc(h, ", Address = ", a);
    Assoc(h + pa, pe, pp + "]");
    Assoc(h + pa, ", EmailAddress = ", e);
    Assoc(h + pa + pe, pp, "]");
    Assoc(h + pa + pe, ", PhoneNumber = ", p);
  }

  /** An address is written right after the social security number. */
  lemma CustomerTextAddress(name: string, ssn: string, a: string, email: Option<string>, phone: Option<string>)
    ensures var head := Head(name, ssn);
      var without := CustomerText(name, ssn, None, email, phone);
      CustomerText(name, ssn, Some(a), email, phone) == head + ", Address = " + a + without[|head|..]
  {
    var head := Head(name, ssn);
    var rest := Part(", EmailAddress = ", email) + (Part(", PhoneNumber = ", phone) + "]");
    assert Tail(None, email, phone) == rest;
    assert (head + rest)[|head|..] == rest;
    var pa := ", Address = " + a;
    assert Tail(Some(a), email, phone) == pa + rest;
    Assoc(head, pa, rest);
    Assoc(head, ", Address = ", a);
  }

  /** An e-mail address is written after the name, number and address, and before the phone number. */
  lemma CustomerTextEmail(name: string, ssn: string, address: Option<string>, e: string, phone: Option<string>)
    ensures var before := CustomerText(name, ssn, address, None, None);
      var without := CustomerText(name, ssn, address, None, phone);
      0 < |before| <= |without| &&
      CustomerText(name, ssn, address, Some(e), phone) ==
        without[..|before| - 1] + ", EmailAddress = " + e + without[|before| - 1..]
  {
    var head, pa := Head(name, ssn), Part(", Address = ", address);
    var tail := Part(", PhoneNumber = ", phone) + "]";
    var pe := ", EmailAddress = " + e;
    var lead := head + pa;
    assert CustomerText(name, ssn, address, None, None) == lead + "]" by {
      assert Tail(address, None, None) == pa + "]";
      Assoc(head, pa, "]");
    }
    assert CustomerText(name, ssn, address, None, phone) == lead + tail by {
      assert Tail(address, None, phone) == pa + tail;
      Assoc(head, pa, tail);
    }
    assert CustomerText(name, ssn, address, Some(e), phone) == lead + pe + tail by {
      assert Tail(address, Some(e), phone) == pa + (pe + tail);
      Assoc(pa, pe, tail);
      Assoc(head, pa + pe, tail);
      Assoc(head, pa, pe);
    }
    Splice(lead, pe, tail);
    Assoc(lead, ", EmailAddress = ", e);
    assert (lead + tail)[..|lead|] == lead;
  }

  /** A phone number is written last, just before the closing bracket. */
  lemma CustomerTextPhone(name: string, ssn: string, address: Option<string>, email: Option<string>, p: string)
    ensures var without := CustomerText(name, ssn, address, email, None);
      CustomerText(name, ssn, address, email, Some(p)) ==
        without[..|without| - 1] + ", PhoneNumber = " + p + "]"
  {
    var head, pa, pe := Head(name, ssn), Part(", Address = ", address), Part(", EmailAddress = ", email);
    var pp := ", PhoneNumber = " + p;
    var lead := head + pa + pe;
    assert CustomerText(name, ssn, address, email, None) == lead + "]" by {
      assert Tail(address, email, None) == pa + (pe + "]");
      Assoc(pa, pe, "]");
      Assoc(head, pa + pe, "]");
      Assoc(head, pa, pe);
    }
    assert CustomerText(name, ssn, address, email, Some(p)) == lead + pp + "]" by {
      assert Tail(address, email, Some(p)) == pa + (pe + (pp + "]"));
      Assoc(pe, pp, "]");
      Assoc(pa, pe + pp, "]");
      Assoc(pa, pe, pp);
      Assoc(head, pa + pe + pp, "]");
      Assoc(head, pa + pe, pp);
      Assoc(head, pa, pe);
    }
    Splice(lead, pp, "]");
    Assoc(lead, ", PhoneNumber = ", p);
  }

  // -------------------------------------------------------------- customer

  /** Why `joinMembership` or `leaveMembership` threw. */
  datatype MembershipChangeError =
    | AlreadyMember     // IllegalArgumentException
    | NotAMember        // IllegalArgumentException
    | TooYoung          // IllegalStateException from the Membership constructor

  class Customer {
    const name: string
    const sSNumber: string
    var phoneNumber: Option<string>
    var emailAddress: Option<string>
    var address: Option<string>
    var membership: Membership?<Customer>

    /** The private constructor, which copies the builder's fields; no membership yet. */
    constructor (f: CustomerFields)
      ensures name == f.name && sSNumber == f.sSNumber
      ensures phoneNumber == f.phoneNumber && emailAddress == f.emailAddress && address == f.address
      ensures membership == null
    {
      name, sSNumber := f.name, f.sSNumber;
      phoneNumber, emailAddress, address := f.phoneNumber, f.emailAddress, f.address;
      membership := null;
    }

    predicate HasAPhoneNumber() reads this { phoneNumber.Some? }

    predicate HasAnEmailAddress() reads this { emailAddress.Some? }

    predicate HasAnAddress() reads this { address.Some? }

    predicate IsAMember() reads this { membership != null }

    function GetMembership(): (r: Membership?<Customer>) reads this { membership }

    /**
     * `joinMembership`: a new membership for this customer from `joinDate`
     * (both overloads; the one without a date passes today's). It throws,
     * with the membership unchanged, for a member, and leaves a customer under
     * 18 without one.
     */
    method JoinMembership(initialPoints: Int64, isAnEmployee: bool, joinDate: Date, age: AgeCheck)
      returns (r: Outcome<MembershipChangeError>)
      modifies this`membership
      ensures old(membership) != null ==> r == Fail(AlreadyMember) && membership == old(membership)
      ensures old(membership) == null && age == Minor ==> r == Fail(TooYoung) && membership == null
      ensures old(membership) == null && age != Minor ==>
                r == Pass && membership != null && fresh(membership) && membership.Valid() &&
                membership.customer == this && membership.startDate == joinDate &&
                membership.memberPoints == initialPoints && membership.employee == isAnEmployee
    {
      if IsAMember() {
        return Fail(AlreadyMember);
      }
      var m := NewMembership(this, joinDate, initialPoints, isAnEmployee, age);
      match m
      case Failure(_) =>
        return Fail(TooYoung);
      case Success(ms) =>
        membership := ms;
        return Pass;
    }

    /** `leaveMembership`: no membership afterwards; throws for a non-member. */
    method LeaveMembership() returns (r: Outcome<MembershipChangeError>)
      modifies this`membership
      ensures membership == null
      ensures r == (if old(membership) == null then Fail(NotAMember) else Pass)
    {
      if !IsAMember() {
        return Fail(NotAMember);
      }
      membership := null;
      return Pass;
    }

    /** The setters store any value, unchecked. */
    method SetPhoneNumber(p: Option<string>)
      modifies this`phoneNumber
      ensures phoneNumber == p
    {
      phoneNumber := p;
    }

    method SetEmailAddress(e: Option<string>)
      modifies this`emailAddress
      ensures emailAddress == e
    {
      emailAddress := e;
    }

    method SetAddress(a: Option<string>)
      modifies this`address
      ensures address == a
    {
      address := a;
    }

    /** `toString`: starts with name and number and ends with `]`. */
    function ToString(): (r: string)
      reads this
      ensures |r| > |Head(name, sSNumber)| && r[..|Head(name, sSNumber)|] == Head(name, sSNumber)
      ensures r[|r| - 1] == ']'
    {
      CustomerTextShape(name, sSNumber, address, emailAddress, phoneNumber);
      CustomerText(name, sSNumber, address, emailAddress, phoneNumber)
    }

    /** Customers are equal when social security number and name are. */
    predicate Equals(other: Customer)
    {
      other.sSNumber == sSNumber && other.name == name
    }

    /** `hashCode`: `Objects.hash(sSNumber, name)`. */
    function HashCode(): (r: Int32)
    {
      JavaText.ObjectsHash([sSNumber, name])
    }
  }

  /** Equal customers hash alike, and equality is symmetric. */
  lemma EqualCustomersHashAlike(c: Customer, d: Customer)
    requires c.Equals(d)
    ensures c.HashCode() == d.HashCode() && d.Equals(c)
  {
  }

  class CustomerBuilder {
    const name: string
    const sSNumber: string
    var phoneNumber: Option<string>
    var emailAddress: Option<string>
    var address: Option<string>

    function Fields(): (r: CustomerFields)
      reads this
    {
      CustomerFields(name, sSNumber, phoneNumber, emailAddress, address)
    }

    constructor (name: string, sSNumber: string)
      ensures Fields() == CustomerFields(name, sSNumber, None, None, None)
    {
      this.name, this.sSNumber := name, sSNumber;
      phoneNumber, emailAddress, address := None, None, None;
    }

    /** The builder's setters store any value, Java's null as None, and return the builder. */
    method SetPhoneNumber(p: Option<string>) returns (self: CustomerBuilder)
      modifies this`phoneNumber
      ensures self == this && Fields() == old(Fields()).(phoneNumber := p)
    {
      phoneNumber := p;
      return this;
    }

    method SetEmailAddress(e: Option<string>) returns (self: CustomerBuilder)
      modifies this`emailAddress
      ensures self == this && Fields() == old(Fields()).(emailAddress := e)
    {
      emailAddress := e;
      return this;
    }

    method SetAddress(a: Option<string>) returns (self: CustomerBuilder)
      modifies this`address
      ensures self == this && Fields() == old(Fields()).(address := a)
    {
      address := a;
      return this;
    }

    /** `build`: a fresh non-member customer with the builder's fields, or the first invalid field. */
    method Build() returns (r: Result<Customer, Invalid>)
      ensures r.Failure? <==> ValidateCustomer(Fields()).Some?
      ensures r.Failure? ==> r.error == ValidateCustomer(Fields()).value
      ensures r.Success? ==>
                fresh(r.value) && r.value.membership == null &&
                r.value.name == name && r.value.sSNumber == sSNumber &&
                r.value.phoneNumber == phoneNumber && r.value.emailAddress == emailAddress &&
                r.value.address == address
    {
      var invalid := ValidateCustomer(Fields());
      if invalid.Some? {
        return Failure(invalid.value);
      }
      var c := new Customer(Fields());
      return Success(c);
    }
  }

  // ------------------------------------------------------------ properties

  /** Letters and dashes alone contain no digit and no special character but the dash. */
  lemma LettersAndDashes(s: string)
    requires forall i :: 0 <= i < |s| ==> IsAsciiLetter(s[i]) || s[i] == '-'
    ensures !Find(s, Numbers) && !Find(s, SpecialCharactersWithoutDash)
  {
    FindIffSome(s, Numbers);
    FindIffSome(s, SpecialCharactersWithoutDash);
  }

  /** A name of 3 to 150 ASCII letters and dashes is accepted: a dash is allowed. */
  lemma LetterAndDashNamesPass(n: string)
    requires 3 <= |n| <= 150
    requires forall i :: 0 <= i < |n| ==> IsAsciiLetter(n[i]) || n[i] == '-'
    ensures ValidateName(n).None?
  {
    JavaText.LengthOfBmp(n);
    LettersAndDashes(n);
  }

  /** A name of acceptable length with a digit in it is rejected for the digit. */
  lemma NameWithDigitRejected(n: string, i: nat)
    requires 3 <= JavaText.Length(n) <= 150
    requires i < |n| && JavaText.IsAsciiDigit(n[i])
    ensures ValidateName(n) == Some(ContainsDigits)
  {
    FindIffSome(n, Numbers);
  }

  /** A name of acceptable length with no digit but a `!` in it is rejected for the `!`. */
  lemma NameWithSpecialRejected(n: string, i: nat)
    requires 3 <= JavaText.Length(n) <= 150 && !Find(n, Numbers)
    requires i < |n| && n[i] == '!'
    ensures ValidateName(n) == Some(ContainsSpecialCharacters)
  {
    FindIffSome(n, SpecialCharactersWithoutDash);
  }

  /** The first occurrence of `c` comes right after a prefix without it. */
  lemma {:induction false} IndexOfAfterPrefix(prefix: string, c: char, rest: string)
    requires c !in prefix
    ensures c in prefix + [c] + rest && IndexOf(prefix + [c] + rest, c) == |prefix|
    decreases |prefix|
  {
    var s := prefix + [c] + rest;
    assert s[|prefix|] == c;
    if prefix != [] {
      assert s[1..] == prefix[1..] + [c] + rest;
      IndexOfAfterPrefix(prefix[1..], c, rest);
    }
  }

  /**
   * With a non-empty local part of allowed characters, an address has the
   * e-mail shape exactly when every dot-separated part of the domain is a label.
   */
  lemma EmailShapeOf(local: string, domain: string)
    requires |local| > 0 && forall i :: 0 <= i < |local| ==> IsLocalChar(local[i])
    ensures EmailShape(local + "@" + domain) <==> AllLabels(JavaText.SplitAll(domain, '.'))
  {
    assert '@' !in local by {
      forall i | 0 <= i < |local|
        ensures local[i] != '@'
      {
        assert IsLocalChar(local[i]);
      }
    }
    var s := local + "@" + domain;
    assert s == local + ['@'] + domain;
    IndexOfAfterPrefix(local, '@', domain);
    var at := IndexOf(s, '@');
    assert at == |local| > 0;
    assert s[at + 1..] == domain;
    assert forall i :: 0 <= i < at ==> IsLocalChar(s[i]) by {
      forall i | 0 <= i < at
        ensures IsLocalChar(s[i])
      {
        assert s[i] == local[i];
      }
    }
  }

  /** An address `local@host.tld` has the e-mail shape exactly when host and top-level domain are labels. */
  lemma TwoLabelEmail(local: string, host: string, tld: string)
    requires |local| > 0 && forall i :: 0 <= i < |local| ==> IsLocalChar(local[i])
    requires '.' !in host && '.' !in tld
    ensures EmailShape(local + "@" + (host + "." + tld)) <==> IsLabel(host) && IsLabel(tld)
  {
    JavaText.SplitAllConcat(host, tld, '.');
    JavaText.SplitAllWithoutSeparator(host, '.');
    JavaText.SplitAllWithoutSeparator(tld, '.');
    assert host + "." + tld == host + ['.'] + tld;
    var labels := JavaText.SplitAll(host + "." + tld, '.');
    assert labels == [host, tld];
    assert AllLabels(labels) <==> IsLabel(host) && IsLabel(tld) by {
      assert labels[0] == host && labels[1] == tld;
    }
    EmailShapeOf(local, host + "." + tld);
  }

  /** Nothing before the `@`, as in "@peter.hotmail.com": rejected. */
  lemma EmptyLocalPartRejected(s: string)
    requires |s| > 0 && s[0] == '@'
    ensures !EmailShape(s)
  {
    assert IndexOf(s, '@') == 0;
  }

  /** Nothing after the `@`, as in "peter.hotmail.com@": rejected. */
  lemma EmptyDomainRejected(local: string)
    requires |local| > 0 && forall i :: 0 <= i < |local| ==> IsLocalChar(local[i])
    ensures !EmailShape(local + "@")
  {
    assert local + "@" == local + "@" + "";
    EmailShapeOf(local, "");
    assert JavaText.SplitAll("", '.') == [""];
    assert !IsLabel("");
    assert !AllLabels([""]) by {
      assert !IsLabel([""][0]);
    }
  }

  /**
   * Java's `$` also matches before a final line terminator, so an e-mail
   * address followed by a newline is accepted.
   */
  lemma EmailWithTrailingNewlineAccepted(s: string)
    requires EmailShape(s) && s[|s| - 1] != '\r'
    ensures MatchesEmailPattern(s + "\n")
  {
    var t := s + "\n";
    assert t[..|t| - 1] == s;
    assert t[|t| - 2..] == [s[|s| - 1], '\n'];
  }
}
