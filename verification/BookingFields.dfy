/**
 * Editing a booking's details after submission (backend/utils/bookingFields.js,
 * backend/utils/bookingLock.js, updateDetails in backend/modules/sales/bookingEdit.service.js).
 */
module BookingFields {
  import opened Options
  import opened JsText

  // ---------------------------------------------------------------------------------------
  // Fields
  // ---------------------------------------------------------------------------------------

  /** EDITABLE_FIELDS */
  datatype Key =
    | CustomerName | PhoneNumber | EmailId | Location | ShopNumber | GstCode | PoNumber | PoDate | VendorCode
    | ShippingAddress | BillingAddress | PaymentTerm | Remarks | PromiseDate

  datatype Kind = PlainText | Email | Gst | Po | Moment

  function KindOf(key: Key): Kind {
    match key
    case EmailId => Email
    case GstCode => Gst
    case PoNumber => Po
    case PoDate | PromiseDate => Moment
    case _ => PlainText
  }

  function MaxLength(key: Key): nat {
    match key
    case CustomerName | EmailId | Location => 200
    case PhoneNumber => 40
    case ShopNumber | VendorCode => 60
    case GstCode => 20
    case PoNumber => 80
    case ShippingAddress | BillingAddress => 500
    case PaymentTerm => 120
    case Remarks => 1000
    case PoDate | PromiseDate => 0
  }

  /** A submitted value: absent or null, or one with its text and the moment `new Date` reads from it. */
  datatype Raw = Missing | Given(text: string, moment: Option<int>)

  datatype Stored = Null | Str(s: string) | Date(t: int)

  datatype Fault = NothingSubmitted | NotEditable | NoBooking | PoCannotBeCleared | BadDate | TooLong | BadGst | BadEmail | PoTaken

  datatype Result<+T> = Ok(value: T) | Err(fault: Fault)

  predicate IsUpperLetter(c: char) {
    'A' <= c <= 'Z'
  }

  /** `[0-9]{2}[A-Z]{5}[0-9]{4}[A-Z][1-9A-Z]Z[0-9A-Z]` */
  predicate IsGstin(s: string) {
    && |s| == 15 && AllDigits(s[..2]) && (forall i :: 2 <= i < 7 ==> IsUpperLetter(s[i])) && AllDigits(s[7..11])
    && IsUpperLetter(s[11]) && (IsUpperLetter(s[12]) || '1' <= s[12] <= '9') && s[13] == 'Z'
    && (IsUpperLetter(s[14]) || IsDigit(s[14]))
  }

  /** Characters of an address: neither blank nor `@`. */
  predicate AddressText(s: string) {
    s != "" && forall i :: 0 <= i < |s| ==> !IsSpace(s[i]) && s[i] != '@'
  }

  /** `[^\s@]+@[^\s@]+\.[^\s@]+` */
  predicate IsEmail(s: string) {
    exists i, j :: 0 <= i < j < |s| && s[i] == '@' && s[j] == '.'
      && AddressText(s[..i]) && AddressText(s[i + 1..j]) && AddressText(s[j + 1..])
  }

  /** The checks of coerceField in their order. */
  function CoerceField(key: Key, raw: Raw): Result<Stored> {
    if raw.Missing? || Trim(raw.text) == "" then
      if KindOf(key) == Po then Err(PoCannotBeCleared) else Ok(Null)
    else if KindOf(key) == Moment then
      if raw.moment.None? then Err(BadDate) else Ok(Date(raw.moment.value))
    else
      var value := Trim(raw.text);
      if |value| > MaxLength(key) then Err(TooLong)
      else if KindOf(key) == Gst && !IsGstin(Upper(value)) then Err(BadGst)
      else if KindOf(key) == Email && !IsEmail(value) then Err(BadEmail)
      else if KindOf(key) == Gst then Ok(Str(Upper(value)))
      else Ok(Str(value))
  }

  /** How long the text of a field may be. */
  predicate WithinLength(key: Key, n: nat) {
    && (key == CustomerName || key == EmailId || key == Location ==> n <= 200)
    && (key == PhoneNumber ==> n <= 40) && (key == ShopNumber || key == VendorCode ==> n <= 60)
    && (key == GstCode ==> n <= 20) && (key == PoNumber ==> n <= 80)
    && (key == ShippingAddress || key == BillingAddress ==> n <= 500)
    && (key == PaymentTerm ==> n <= 120) && (key == Remarks ==> n <= 1000)
  }

  /** One character of a form: a digit for 9, a letter for A, either for X, either but 0 for C, and itself for Z. */
  predicate Suits(c: char, form: char) {
    && (form == '9' ==> c in "0123456789")
    && (form == 'A' ==> c in "ABCDEFGHIJKLMNOPQRSTUVWXYZ")
    && (form == 'X' ==> c in "0123456789ABCDEFGHIJKLMNOPQRSTUVWXYZ")
    && (form == 'C' ==> c in "123456789ABCDEFGHIJKLMNOPQRSTUVWXYZ")
    && (form == 'Z' ==> c == 'Z')
  }

  predicate SuitsForm(s: string, form: string) {
    |s| == |form| && forall i :: 0 <= i < |s| ==> Suits(s[i], form[i])
  }

  /** State, PAN, entity, Z and check character. */
  const GSTIN: string := "99AAAAA9999ACZX"

  /** One part of an address. */
  predicate AddressPart(p: string) {
    |p| > 0 && '@' !in p && forall c :: c in p ==> !IsSpace(c)
  }

  ghost predicate LooksLikeAddress(s: string) {
    exists name, host, domain ::
      s == name + "@" + host + "." + domain && AddressPart(name) && AddressPart(host) && AddressPart(domain)
  }

  predicate IsDateField(key: Key) {
    key == PoDate || key == PromiseDate
  }

  /** What a stored value may be. */
  ghost predicate Clean(key: Key, v: Stored) {
    match v
    case Null => key != PoNumber
    case Date(_) => IsDateField(key)
    case Str(s) =>
      && !IsDateField(key) && s != "" && Trim(s) == s && WithinLength(key, |s|)
      && (key == GstCode ==> SuitsForm(s, GSTIN)) && (key == EmailId ==> LooksLikeAddress(s))
  }

  lemma {:induction false} LettersAre(c: char)
    ensures IsUpperLetter(c) <==> c in "ABCDEFGHIJKLMNOPQRSTUVWXYZ"
    ensures IsDigit(c) <==> c in "0123456789"
    ensures IsDigit(c) || IsUpperLetter(c) <==> c in "0123456789ABCDEFGHIJKLMNOPQRSTUVWXYZ"
    ensures '1' <= c <= '9' || IsUpperLetter(c) <==> c in "123456789ABCDEFGHIJKLMNOPQRSTUVWXYZ"
  {
    AlphabetIs(c);
    DigitsAre(c);
    assert "0123456789ABCDEFGHIJKLMNOPQRSTUVWXYZ" == "0123456789" + "ABCDEFGHIJKLMNOPQRSTUVWXYZ";
    assert "123456789ABCDEFGHIJKLMNOPQRSTUVWXYZ" == "123456789" + "ABCDEFGHIJKLMNOPQRSTUVWXYZ";
  }

  lemma {:induction false} AlphabetIs(c: char)
    ensures 'A' <= c <= 'Z' <==> c in "ABCDEFGHIJKLMNOPQRSTUVWXYZ"
  {
    var t := "ABCDEFGHIJKLMNOPQRSTUVWXYZ";
    assert forall i :: 0 <= i < 26 ==> t[i] as int == 'A' as int + i;
    if 'A' <= c <= 'Z' { assert t[c as int - 'A' as int] == c; }
  }

  lemma {:induction false} DigitsAre(c: char)
    ensures '0' <= c <= '9' <==> c in "0123456789"
    ensures '1' <= c <= '9' <==> c in "123456789"
  {
    var t, u := "0123456789", "123456789";
    assert forall i :: 0 <= i < 10 ==> t[i] as int == '0' as int + i;
    assert forall i :: 0 <= i < 9 ==> u[i] as int == '1' as int + i;
    if '0' <= c <= '9' { assert t[c as int - '0' as int] == c; }
    if '1' <= c <= '9' { assert u[c as int - '1' as int] == c; }
  }

  lemma {:induction false} CharacterIs(c: char)
    ensures (IsUpperLetter(c) <==> Suits(c, 'A')) && (IsDigit(c) <==> Suits(c, '9')) && (c == 'Z' <==> Suits(c, 'Z'))
    ensures IsDigit(c) || IsUpperLetter(c) <==> Suits(c, 'X')
    ensures '1' <= c <= '9' || IsUpperLetter(c) <==> Suits(c, 'C')
  {
    LettersAre(c);
    hide IsDigit, IsUpperLetter;
  }

  lemma {:induction false} GstinIs(s: string)
    ensures IsGstin(s) <==> SuitsForm(s, GSTIN)
  {
    if |s| == 15 {
      forall i | 0 <= i < 15
        ensures (IsUpperLetter(s[i]) <==> Suits(s[i], 'A')) && (IsDigit(s[i]) <==> Suits(s[i], '9')) && (s[i] == 'Z' <==> Suits(s[i], 'Z'))
        ensures IsDigit(s[i]) || IsUpperLetter(s[i]) <==> Suits(s[i], 'X')
        ensures '1' <= s[i] <= '9' || IsUpperLetter(s[i]) <==> Suits(s[i], 'C')
      {
        CharacterIs(s[i]);
      }
      FormSpelled(s);
      GstinSpelled(s);
      hide IsUpperLetter, IsDigit, Suits, IsGstin, SuitsForm;
      assert (forall i :: 2 <= i < 7 ==> Suits(s[i], 'A')) <==> (forall i :: 2 <= i < 7 ==> IsUpperLetter(s[i]));
    }
  }

  lemma {:induction false} GstinSpelled(s: string)
    requires |s| == 15
    ensures IsGstin(s) <==>
            && IsDigit(s[0]) && IsDigit(s[1]) && (forall i :: 2 <= i < 7 ==> IsUpperLetter(s[i]))
            && IsDigit(s[7]) && IsDigit(s[8]) && IsDigit(s[9]) && IsDigit(s[10])
            && IsUpperLetter(s[11]) && ('1' <= s[12] <= '9' || IsUpperLetter(s[12])) && s[13] == 'Z'
            && (IsDigit(s[14]) || IsUpperLetter(s[14]))
  {
    hide IsDigit, IsUpperLetter;
    TwoDigits(s[..2]);
    FourDigits(s[7..11]);
  }

  lemma {:induction false} TwoDigits(t: string)
    requires |t| == 2
    ensures AllDigits(t) <==> IsDigit(t[0]) && IsDigit(t[1])
  {
  }

  lemma {:induction false} FourDigits(t: string)
    requires |t| == 4
    ensures AllDigits(t) <==> IsDigit(t[0]) && IsDigit(t[1]) && IsDigit(t[2]) && IsDigit(t[3])
  {
  }

  lemma {:induction false} FormSpelled(s: string)
    requires |s| == 15
    ensures SuitsForm(s, GSTIN) <==>
            && Suits(s[0], '9') && Suits(s[1], '9') && (forall i :: 2 <= i < 7 ==> Suits(s[i], 'A'))
            && Suits(s[7], '9') && Suits(s[8], '9') && Suits(s[9], '9') && Suits(s[10], '9')
            && Suits(s[11], 'A') && Suits(s[12], 'C') && Suits(s[13], 'Z') && Suits(s[14], 'X')
  {
    hide Suits;
    assert GSTIN[2] == 'A' && GSTIN[3] == 'A' && GSTIN[4] == 'A' && GSTIN[5] == 'A' && GSTIN[6] == 'A';
  }

  lemma {:induction false} GstinIsNormal(s: string)
    requires IsGstin(s)
    ensures Upper(s) == s
  {
    forall i | 0 <= i < |s| ensures UpperChar(s[i]) == s[i] {
      assert i < 2 ==> s[..2][i] == s[i];
      assert 7 <= i < 11 ==> s[7..11][i - 7] == s[i];
    }
  }

  lemma {:induction false} PartIs(p: string)
    ensures AddressText(p) <==> AddressPart(p)
  {
  }

  lemma {:induction false} AddressIs(s: string)
    ensures IsEmail(s) <==> LooksLikeAddress(s)
  {
    hide AddressText, AddressPart, IsSpace;
    if IsEmail(s) {
      var i, j :| 0 <= i < j < |s| && s[i] == '@' && s[j] == '.'
                  && AddressText(s[..i]) && AddressText(s[i + 1..j]) && AddressText(s[j + 1..]);
      CutIsAddress(s, i, j);
    }
    if LooksLikeAddress(s) {
      var name, host, domain :|
        s == name + "@" + host + "." + domain && AddressPart(name) && AddressPart(host) && AddressPart(domain);
      PartsAreCut(s, name, host, domain);
    }
  }

  lemma {:induction false} CutIsAddress(s: string, i: nat, j: nat)
    requires i < j < |s| && s[i] == '@' && s[j] == '.'
    requires AddressText(s[..i]) && AddressText(s[i + 1..j]) && AddressText(s[j + 1..])
    ensures LooksLikeAddress(s)
  {
    PartIs(s[..i]);
    PartIs(s[i + 1..j]);
    PartIs(s[j + 1..]);
    hide AddressText, AddressPart;
    assert s == s[..i] + "@" + s[i + 1..j] + "." + s[j + 1..];
  }

  lemma {:induction false} PartsAreCut(s: string, name: string, host: string, domain: string)
    requires s == name + "@" + host + "." + domain && AddressPart(name) && AddressPart(host) && AddressPart(domain)
    ensures IsEmail(s)
  {
    PartIs(name);
    PartIs(host);
    PartIs(domain);
    hide AddressText, AddressPart;
    var i, j := |name|, |name| + 1 + |host|;
    assert s[..i] == name && s[i + 1..j] == host && s[j + 1..] == domain && s[i] == '@' && s[j] == '.';
  }

  /** The tables and expressions of the source say what a clean value asks for. */
  lemma {:induction false} TablesSay(key: Key, n: nat)
    ensures (KindOf(key) == Po <==> key == PoNumber) && (KindOf(key) == Moment <==> IsDateField(key))
    ensures (KindOf(key) == Gst <==> key == GstCode) && (KindOf(key) == Email <==> key == EmailId)
    ensures !IsDateField(key) ==> (n <= MaxLength(key) <==> WithinLength(key, n))
    ensures IsDateField(key) ==> key != GstCode && key != EmailId && key != PoNumber
  {
  }

  /** The trimmed text of what was submitted. */
  function TextOf(raw: Raw): string {
    if raw.Given? then Trim(raw.text) else ""
  }

  /** A stored value submitted again. */
  function Again(v: Stored): Raw {
    match v
    case Null => Missing
    case Str(s) => Given(s, None)
    case Date(t) => Given("date", Some(t))
  }

  /** Whatever is accepted is clean, and the clean values are exactly those that are stored as they are. */
  lemma {:induction false} CoercedIsClean(key: Key, raw: Raw)
    ensures CoerceField(key, raw).Ok? ==> Clean(key, CoerceField(key, raw).value)
  {
    hide Trim, Upper, IsSpace, IsGstin, IsEmail, KindOf, MaxLength, SuitsForm, LooksLikeAddress, WithinLength, IsDateField, GSTIN;
    TablesSay(key, |TextOf(raw)|);
    if raw.Given? {
      TrimTwice(raw.text);
      CapitalsAreTrimmed(raw.text);
      GstinIs(Upper(Trim(raw.text)));
      AddressIs(Trim(raw.text));
    }
  }

  /** What a submitted value comes to once blanks are cut and a GST number is in capitals. */
  ghost function Tidied(key: Key, raw: Raw): Stored {
    if raw.Missing? || Trim(raw.text) == "" then Null
    else if IsDateField(key) && raw.moment.Some? then Date(raw.moment.value)
    else if key == GstCode then Str(Upper(Trim(raw.text)))
    else Str(Trim(raw.text))
  }

  /** A value is accepted exactly when its tidied form is clean, and then that is what is stored. */
  lemma {:induction false} AcceptedExactlyWhen(key: Key, raw: Raw)
    ensures CoerceField(key, raw).Ok? <==> Clean(key, Tidied(key, raw))
    ensures CoerceField(key, raw).Ok? ==> CoerceField(key, raw).value == Tidied(key, raw)
  {
    hide Trim, Upper, IsSpace, IsGstin, IsEmail, KindOf, MaxLength, SuitsForm, LooksLikeAddress, WithinLength, IsDateField, GSTIN;
    CoercedIsClean(key, raw);
    TablesSay(key, |TextOf(raw)|);
    if raw.Given? {
      GstinIs(Upper(Trim(raw.text)));
      AddressIs(Trim(raw.text));
    }
  }

  /** And a value that is not is refused for what is wrong with it first. */
  lemma {:induction false} RefusedExactlyWhen(key: Key, raw: Raw)
    ensures var r, blank, t := CoerceField(key, raw), raw.Missing? || Trim(raw.text) == "", if raw.Given? then Trim(raw.text) else "";
            && (r == Err(PoCannotBeCleared) <==> blank && key == PoNumber)
            && (r == Err(BadDate) <==> !blank && IsDateField(key) && raw.moment == None)
            && (r == Err(TooLong) <==> !blank && !IsDateField(key) && !WithinLength(key, |t|))
            && (r == Err(BadGst) <==> !blank && key == GstCode && WithinLength(key, |t|) && !SuitsForm(Upper(t), GSTIN))
            && (r == Err(BadEmail) <==> !blank && key == EmailId && WithinLength(key, |t|) && !LooksLikeAddress(t))
  {
    hide Trim, Upper, IsSpace, IsGstin, IsEmail, KindOf, MaxLength, SuitsForm, LooksLikeAddress, WithinLength, IsDateField, GSTIN;
    TablesSay(key, |TextOf(raw)|);
    if raw.Given? {
      GstinIs(Upper(Trim(raw.text)));
      AddressIs(Trim(raw.text));
    }
  }

  lemma {:induction false} CapitalsAreTrimmed(s: string)
    ensures Trim(Upper(Trim(s))) == Upper(Trim(s)) && (Upper(Trim(s)) == "" <==> Trim(s) == "")
  {
    NormalIsNormal(s);
    NormalIsTrimmed(Upper(Trim(s)));
    hide Trim;
  }

  lemma {:induction false} NormalIsTrimmed(s: string)
    requires IsNormal(s)
    ensures Trim(s) == s
  {
    hide IsSpace;
    var t := Trim(s);
    assert |Upper(t)| == |t|;
    assert |TrimStart(s)| <= |s| && |t| <= |TrimStart(s)|;
  }

  lemma {:induction false} CleanIsFixed(key: Key, v: Stored)
    ensures Clean(key, v) <==> CoerceField(key, Again(v)) == Ok(v)
  {
    hide Trim, Upper, IsSpace, IsGstin, IsEmail, KindOf, MaxLength, SuitsForm, LooksLikeAddress, WithinLength, IsDateField, GSTIN;
    TablesSay(key, |TextOf(Again(v))|);
    if v.Date? { DateTextIsText(); }
    if v.Str? {
      TrimEmpty(v.s);
      GstinIs(v.s);
      AddressIs(v.s);
      if IsGstin(v.s) { GstinIsNormal(v.s); }
    }
    if CoerceField(key, Again(v)) == Ok(v) { CoercedIsClean(key, Again(v)); }
  }

  lemma {:induction false} TrimEmpty(s: string)
    ensures s == "" ==> Trim(s) == ""
  {
  }

  lemma {:induction false} DateTextIsText()
    ensures Trim("date") != ""
  {
    TrimFixed("date");
  }

  // ---------------------------------------------------------------------------------------
  // The lock
  // ---------------------------------------------------------------------------------------

  datatype Column = Field(key: Key) | SupplyByDate

  type Values = map<Column, Stored>

  datatype Row = Row(poGenerated: bool, values: Values)

  function ValueAt(values: Values, c: Column): Stored {
    if c in values then values[c] else Null
  }

  /** A PO number that means "not raised yet". */
  predicate IsPlaceholderPo(v: Stored) {
    v == Null || (v.Str? && (Trim(v.s) == "" || Trim(v.s) == "-"))
  }

  predicate IsPoGenerated(r: Row) {
    r.poGenerated || !IsPlaceholderPo(ValueAt(r.values, Field(PoNumber)))
  }

  predicate IsBookingLocked(rows: seq<Row>) {
    exists i :: 0 <= i < |rows| && IsPoGenerated(rows[i])
  }

  // ---------------------------------------------------------------------------------------
  // An edit
  // ---------------------------------------------------------------------------------------

  /** A submitted field; None when its name is not an editable one. */
  datatype Entry = Entry(key: Option<Key>, raw: Raw)

  /** What one field adds to the update: nothing when the booking's first row has the value already. */
  function Adding(first: Row, set_: Values, key: Key, v: Stored): Values {
    if ValueAt(first.values, Field(key)) == v then set_
    else if key == PromiseDate then set_[Field(key) := v][SupplyByDate := v]
    else set_[Field(key) := v]
  }

  /** The update a patch comes to, or its first fault. */
  function Collected(first: Row, patch: seq<Entry>): Result<Values> {
    if patch == [] then Ok(map[])
    else
      var e := patch[|patch| - 1];
      var front := Collected(first, patch[..|patch| - 1]);
      if front.Err? then front
      else if e.key.None? then Err(NotEditable)
      else
        var v := CoerceField(e.key.value, e.raw);
        if v.Err? then Err(v.fault) else Ok(Adding(first, front.value, e.key.value, v.value))
  }

  function Written(rows: seq<Row>, update: Values): (r: seq<Row>)
    ensures |r| == |rows| && forall i :: 0 <= i < |r| ==> r[i] == rows[i].(values := rows[i].values + update)
  {
    seq(|rows|, i requires 0 <= i < |rows| => rows[i].(values := rows[i].values + update))
  }

  ghost predicate AllEditable(patch: seq<Entry>) {
    forall i :: 0 <= i < |patch| ==> patch[i].key.Some?
  }

  /** The edit as one transaction against the PO numbers other bookings hold. */
  ghost function Edited(rows: seq<Row>, patch: seq<Entry>, taken: set<string>): Result<seq<Row>> {
    if patch == [] then Err(NothingSubmitted)
    else if !AllEditable(patch) then Err(NotEditable)
    else if rows == [] then Err(NoBooking)
    else
      var update := Collected(rows[0], patch);
      if update.Err? then Err(update.fault)
      else if Field(PoNumber) in update.value && update.value[Field(PoNumber)].Str? && update.value[Field(PoNumber)].s in taken
      then Err(PoTaken)
      else Ok(Written(rows, update.value))
  }

  class Booking {
    var rows: seq<Row>

    constructor (rows: seq<Row>)
      ensures this.rows == rows
    {
      this.rows := rows;
    }

    method UpdateDetails(patch: seq<Entry>, taken: set<string>) returns (r: Result<Values>)
      modifies this
      ensures r.Ok? <==> Edited(old(rows), patch, taken).Ok?
      ensures r.Ok? ==> rows == Edited(old(rows), patch, taken).value
      ensures r.Ok? ==> old(rows) != [] && Result.Ok(r.value) == Collected(old(rows)[0], patch)
      ensures r.Err? ==> rows == old(rows) && r.fault == Edited(old(rows), patch, taken).fault
    {
      hide CoerceField, Adding;
      if patch == [] { return Err(NothingSubmitted); }
      for n := 0 to |patch|
        invariant forall i :: 0 <= i < n ==> patch[i].key.Some?
        invariant rows == old(rows)
      {
        if patch[n].key.None? { return Err(NotEditable); }
      }
      if rows == [] { return Err(NoBooking); }
      var first := rows[0];
      var update: Values := map[];
      for n := 0 to |patch|
        invariant Collected(first, patch[..n]) == Ok(update)
        invariant rows == old(rows)
      {
        assert patch[..n + 1][..n] == patch[..n];
        var key := patch[n].key.value;
        var v := CoerceField(key, patch[n].raw);
        if v.Err? {
          FaultStays(first, patch, n + 1);
          return Err(v.fault);
        }
        update := Adding(first, update, key, v.value);
      }
      assert patch[..|patch|] == patch;
      if Field(PoNumber) in update && update[Field(PoNumber)].Str? && update[Field(PoNumber)].s in taken {
        return Err(PoTaken);
      }
      rows := Written(rows, update);
      return Ok(update);
    }
  }

  lemma {:induction false} FaultStays(first: Row, patch: seq<Entry>, n: nat)
    requires n <= |patch| && Collected(first, patch[..n]).Err?
    ensures Collected(first, patch) == Collected(first, patch[..n])
    decreases |patch|
  {
    if n == |patch| {
      assert patch[..n] == patch;
    } else {
      assert patch[..|patch| - 1][..n] == patch[..n];
      FaultStays(first, patch[..|patch| - 1], n);
    }
  }

  // ---------------------------------------------------------------------------------------
  // What edits do to the lock
  // ---------------------------------------------------------------------------------------

  /** The PO number an accepted patch writes is clean: it is never blank. */
  lemma {:induction false} CollectedPo(first: Row, patch: seq<Entry>)
    requires Collected(first, patch).Ok?
    ensures var u := Collected(first, patch).value;
            Field(PoNumber) in u ==> Clean(PoNumber, u[Field(PoNumber)])
  {
    hide Clean, CoerceField;
    if patch != [] {
      var n := |patch| - 1;
      CollectedPo(first, patch[..n]);
      CoercedIsClean(patch[n].key.value, patch[n].raw);
    }
  }

  lemma {:induction false} CleanPoUnlocks(v: Stored)
    requires Clean(PoNumber, v)
    ensures IsPlaceholderPo(v) <==> v == Str("-")
  {
    hide Trim;
  }

  lemma {:induction false} StampsStay(rows: seq<Row>, update: Values)
    ensures forall i :: 0 <= i < |rows| ==> Written(rows, update)[i].poGenerated == rows[i].poGenerated
  {
  }

  /**
   * An accepted edit unlocks a locked booking exactly when no row carries the PO's time stamp and the
   * edit writes the literal "-" as its PO number, which the clash check lets through only while no
   * other booking holds "-".
   */
  lemma {:induction false} UnlocksExactlyWhen(rows: seq<Row>, patch: seq<Entry>, taken: set<string>)
    requires IsBookingLocked(rows) && Edited(rows, patch, taken).Ok?
    ensures var u := Collected(rows[0], patch).value;
            !IsBookingLocked(Edited(rows, patch, taken).value) <==>
              && (forall i :: 0 <= i < |rows| ==> !rows[i].poGenerated)
              && Field(PoNumber) in u && u[Field(PoNumber)] == Str("-")
    ensures !IsBookingLocked(Edited(rows, patch, taken).value) ==> "-" !in taken
  {
    hide Clean, CoerceField, Collected, IsPlaceholderPo;
    var u := Collected(rows[0], patch).value;
    var after := Written(rows, u);
    CollectedPo(rows[0], patch);
    if Field(PoNumber) in u {
      CleanPoUnlocks(u[Field(PoNumber)]);
      assert forall i :: 0 <= i < |rows| ==> ValueAt(after[i].values, Field(PoNumber)) == u[Field(PoNumber)];
      forall i | 0 <= i < |rows| && rows[i].poGenerated ensures IsPoGenerated(after[i]) {}
      assert IsPoGenerated(after[0]) <==> rows[0].poGenerated || u[Field(PoNumber)] != Str("-");
    } else {
      assert forall i :: 0 <= i < |rows| ==> ValueAt(after[i].values, Field(PoNumber)) == ValueAt(rows[i].values, Field(PoNumber));
      var i :| 0 <= i < |rows| && IsPoGenerated(rows[i]);
      assert IsPoGenerated(after[i]);
    }
  }

  /** An edit, with the PO numbers other bookings hold at that moment. */
  datatype Edit = Edit(patch: seq<Entry>, taken: set<string>)

  /** A run of edits; the refused ones change nothing. */
  ghost function EditedAll(rows: seq<Row>, edits: seq<Edit>): seq<Row> {
    if edits == [] then rows
    else
      var before := EditedAll(rows, edits[..|edits| - 1]);
      var e := edits[|edits| - 1];
      var r := Edited(before, e.patch, e.taken);
      if r.Ok? then r.value else before
  }

  /** A run of edits goes on from the rows the last one left. */
  lemma {:induction false} EditsGoOn(rows: seq<Row>, edits: seq<Edit>, e: Edit)
    ensures var before := EditedAll(rows, edits);
            && (Edited(before, e.patch, e.taken).Ok? ==> EditedAll(rows, edits + [e]) == Edited(before, e.patch, e.taken).value)
            && (Edited(before, e.patch, e.taken).Err? ==> EditedAll(rows, edits + [e]) == before)
  {
    hide Edited;
    assert (edits + [e])[..|edits|] == edits;
  }

  /** Every edit finds another booking holding the placeholder, as long as one has no PO yet. */
  ghost predicate PlaceholderTaken(edits: seq<Edit>) {
    forall k :: 0 <= k < |edits| ==> "-" in edits[k].taken
  }

  /**
   * No run of accepted edits unlocks a booking with a row whose PO is stamped; and none unlocks a
   * locked one at all while some other booking holds the placeholder.
   */
  lemma {:induction false} NoRunUnlocks(rows: seq<Row>, edits: seq<Edit>)
    requires IsBookingLocked(rows)
    requires (exists i :: 0 <= i < |rows| && rows[i].poGenerated) || PlaceholderTaken(edits)
    ensures IsBookingLocked(EditedAll(rows, edits))
    ensures |EditedAll(rows, edits)| == |rows|
    ensures forall i :: 0 <= i < |rows| ==> EditedAll(rows, edits)[i].poGenerated == rows[i].poGenerated
  {
    hide Collected, IsPoGenerated;
    if edits != [] {
      var n := |edits| - 1;
      assert PlaceholderTaken(edits) ==> PlaceholderTaken(edits[..n]);
      NoRunUnlocks(rows, edits[..n]);
      var before, e := EditedAll(rows, edits[..n]), edits[n];
      if Edited(before, e.patch, e.taken).Ok? {
        UnlocksExactlyWhen(before, e.patch, e.taken);
        StampsStay(before, Collected(before[0], e.patch).value);
      }
    }
  }

  lemma {:induction false} UpdateIs(first: Row, patch: seq<Entry>, i: nat)
    requires Collected(first, patch).Ok? && DistinctKeys(patch) && i < |patch|
    ensures patch[i].key.Some? && CoerceField(patch[i].key.value, patch[i].raw).Ok?
    ensures var c, v := Field(patch[i].key.value), CoerceField(patch[i].key.value, patch[i].raw).value;
            var u := Collected(first, patch).value;
            (c in u <==> ValueAt(first.values, c) != v) && (c in u ==> u[c] == v)
  {
    hide CoerceField;
    var n := |patch| - 1;
    if i == n {
      CollectedTouches(first, patch[..n], patch[n].key.value);
    } else {
      assert patch[..n][i] == patch[i];
      UpdateIs(first, patch[..n], i);
      assert patch[i].key != patch[n].key;
    }
  }

  /** The promise date is written to both its columns, and nothing else writes the second. */
  lemma {:induction false} PromiseInBothColumns(first: Row, patch: seq<Entry>)
    requires Collected(first, patch).Ok?
    ensures var u := Collected(first, patch).value;
            && (SupplyByDate in u <==> Field(PromiseDate) in u) && (SupplyByDate in u ==> u[SupplyByDate] == u[Field(PromiseDate)])
  {
    hide CoerceField;
    if patch != [] { PromiseInBothColumns(first, patch[..|patch| - 1]); }
  }

  lemma {:induction false} CollectedExactlyWhen(first: Row, patch: seq<Entry>)
    ensures Collected(first, patch).Ok? <==>
            forall i :: 0 <= i < |patch| ==> patch[i].key.Some? && CoerceField(patch[i].key.value, patch[i].raw).Ok?
  {
    hide CoerceField;
    if patch != [] {
      CollectedExactlyWhen(first, patch[..|patch| - 1]);
    }
  }

  /**
   * A form goes through exactly when it submits something, only editable fields, each with an acceptable
   * value, for a booking that is there, and no PO number of another booking that is new to this one.
   */
  lemma {:induction false} EditedExactlyWhen(rows: seq<Row>, patch: seq<Entry>, taken: set<string>)
    requires DistinctKeys(patch)
    ensures Edited(rows, patch, taken).Ok? <==>
            && patch != [] && rows != []
            && (forall i :: 0 <= i < |patch| ==> patch[i].key.Some? && Clean(patch[i].key.value, Tidied(patch[i].key.value, patch[i].raw)))
            && (forall i :: 0 <= i < |patch| && patch[i].key == Some(PoNumber) ==>
                  var v := Tidied(PoNumber, patch[i].raw); v != ValueAt(rows[0].values, Field(PoNumber)) ==> v.Str? && v.s !in taken)
  {
    forall i | 0 <= i < |patch| && patch[i].key.Some?
      ensures CoerceField(patch[i].key.value, patch[i].raw).Ok? <==> Clean(patch[i].key.value, Tidied(patch[i].key.value, patch[i].raw))
      ensures CoerceField(patch[i].key.value, patch[i].raw).Ok? ==>
                CoerceField(patch[i].key.value, patch[i].raw).value == Tidied(patch[i].key.value, patch[i].raw)
    {
      AcceptedExactlyWhen(patch[i].key.value, patch[i].raw);
    }
    hide CoerceField, Tidied, Collected;
    if rows != [] {
      CollectedExactlyWhen(rows[0], patch);
      if Collected(rows[0], patch).Ok? {
        CollectedPo(rows[0], patch);
        forall i | 0 <= i < |patch|
          ensures var c, u := Field(patch[i].key.value), Collected(rows[0], patch).value;
                  && patch[i].key.Some? && CoerceField(patch[i].key.value, patch[i].raw).Ok?
                  && (c in u <==> ValueAt(rows[0].values, c) != Tidied(patch[i].key.value, patch[i].raw))
                  && (c in u ==> u[c] == Tidied(patch[i].key.value, patch[i].raw))
        {
          UpdateIs(rows[0], patch, i);
        }
        if forall i :: 0 <= i < |patch| ==> patch[i].key != Some(PoNumber) { CollectedTouches(rows[0], patch, PoNumber); }
        PoIsText(rows[0], patch);
      }
    }
  }

  /** The entry is the first that is not acceptable. */
  ghost predicate FirstRefused(patch: seq<Entry>, i: nat) {
    && i < |patch| && patch[i].key.Some? && CoerceField(patch[i].key.value, patch[i].raw).Err?
    && forall j :: 0 <= j < i ==> patch[j].key.Some? && CoerceField(patch[j].key.value, patch[j].raw).Ok?
  }

  lemma {:induction false} CollectedFault(first: Row, patch: seq<Entry>, i: nat)
    requires AllEditable(patch) && FirstRefused(patch, i)
    ensures Collected(first, patch) == Err(CoerceField(patch[i].key.value, patch[i].raw).fault)
  {
    hide CoerceField;
    var n := |patch| - 1;
    if i < n {
      CollectedFault(first, patch[..n], i);
    } else {
      CollectedExactlyWhen(first, patch[..n]);
    }
  }

  lemma {:induction false} FaultOfAValue(key: Key, raw: Raw)
    ensures CoerceField(key, raw).Err? ==>
            var f := CoerceField(key, raw).fault; f != NothingSubmitted && f != NotEditable && f != NoBooking && f != PoTaken
  {
    hide Trim, Upper, IsGstin, IsEmail;
  }

  lemma {:induction false} SomeRefused(patch: seq<Entry>) returns (i: nat)
    requires AllEditable(patch)
    ensures FirstRefused(patch, i) || forall j :: 0 <= j < |patch| ==> CoerceField(patch[j].key.value, patch[j].raw).Ok?
  {
    hide CoerceField;
    i := 0;
    while i < |patch| && CoerceField(patch[i].key.value, patch[i].raw).Ok?
      invariant 0 <= i <= |patch|
      invariant forall j :: 0 <= j < i ==> CoerceField(patch[j].key.value, patch[j].raw).Ok?
    {
      i := i + 1;
    }
  }

  /** And a form that is refused is refused for the first thing wrong with it. */
  lemma {:induction false} FormRefusedExactlyWhen(rows: seq<Row>, patch: seq<Entry>, taken: set<string>)
    ensures var r, known := Edited(rows, patch, taken), forall i :: 0 <= i < |patch| ==> patch[i].key.Some?;
            && (r == Err(NothingSubmitted) <==> patch == [])
            && (r == Err(NotEditable) <==> patch != [] && !known)
            && (r == Err(NoBooking) <==> patch != [] && known && rows == [])
            && (patch != [] && known && rows != [] ==>
                  && (forall i: nat :: FirstRefused(patch, i) ==> r == Err(CoerceField(patch[i].key.value, patch[i].raw).fault))
                  && ((forall i: nat :: !FirstRefused(patch, i)) && r.Err? ==> r == Err(PoTaken)))
  {
    if AllEditable(patch) && rows != [] {
      var i := SomeRefused(patch);
      forall i: nat | FirstRefused(patch, i)
        ensures Collected(rows[0], patch) == Err(CoerceField(patch[i].key.value, patch[i].raw).fault)
      {
        CollectedFault(rows[0], patch, i);
      }
      if FirstRefused(patch, i) { FaultOfAValue(patch[i].key.value, patch[i].raw); }
      CollectedExactlyWhen(rows[0], patch);
    }
    hide CoerceField, Collected, Written;
  }

  /** A clean PO number is a text. */
  lemma {:induction false} PoIsText(first: Row, patch: seq<Entry>)
    requires Collected(first, patch).Ok?
    ensures Field(PoNumber) in Collected(first, patch).value ==> Collected(first, patch).value[Field(PoNumber)].Str?
  {
    CollectedPo(first, patch);
  }

  /**
   * The booking's rows all carry a submitted value afterwards exactly when the first row did not have
   * it yet or all of them had: a field that is right on the first row only stays wrong on the others.
   */
  lemma {:induction false} EveryRowCarriesItExactlyWhen(rows: seq<Row>, patch: seq<Entry>, taken: set<string>, i: nat)
    requires DistinctKeys(patch) && Edited(rows, patch, taken).Ok? && i < |patch|
    ensures patch[i].key.Some? && CoerceField(patch[i].key.value, patch[i].raw).Ok?
    ensures var c, v := Field(patch[i].key.value), CoerceField(patch[i].key.value, patch[i].raw).value;
            (forall j :: 0 <= j < |rows| ==> ValueAt(Edited(rows, patch, taken).value[j].values, c) == v)
            <==> ValueAt(rows[0].values, c) != v || forall j :: 0 <= j < |rows| ==> ValueAt(rows[j].values, c) == v
  {
    hide CoerceField, Collected;
    UpdateIs(rows[0], patch, i);
    var c := Field(patch[i].key.value);
    var u := Collected(rows[0], patch).value;
    forall j | 0 <= j < |rows|
      ensures ValueAt(Written(rows, u)[j].values, c) == if c in u then u[c] else ValueAt(rows[j].values, c)
    {
    }
  }

  // ---------------------------------------------------------------------------------------
  // Saving the same form again
  // ---------------------------------------------------------------------------------------

  ghost predicate DistinctKeys(patch: seq<Entry>) {
    forall i, j :: 0 <= i < j < |patch| ==> patch[i].key != patch[j].key
  }

  lemma {:induction false} CollectedTouches(first: Row, patch: seq<Entry>, key: Key)
    requires Collected(first, patch).Ok? && forall i :: 0 <= i < |patch| ==> patch[i].key != Some(key)
    ensures Field(key) !in Collected(first, patch).value
  {
    hide CoerceField;
    if patch != [] {
      CollectedTouches(first, patch[..|patch| - 1], key);
    }
  }

  lemma {:induction false} CollectedHas(first: Row, patch: seq<Entry>, i: nat)
    requires Collected(first, patch).Ok? && DistinctKeys(patch) && i < |patch|
    ensures patch[i].key.Some? && CoerceField(patch[i].key.value, patch[i].raw).Ok?
    ensures var key, v := patch[i].key.value, CoerceField(patch[i].key.value, patch[i].raw).value;
            ValueAt(first.values + Collected(first, patch).value, Field(key)) == v
  {
    hide CoerceField;
    var n := |patch| - 1;
    if i == n {
      CollectedTouches(first, patch[..n], patch[n].key.value);
    } else {
      assert patch[..n][i] == patch[i];
      CollectedHas(first, patch[..n], i);
      assert patch[i].key != patch[n].key;
    }
  }

  lemma {:induction false} NothingToAdd(first: Row, patch: seq<Entry>)
    requires forall i :: 0 <= i < |patch| ==>
               && patch[i].key.Some? && CoerceField(patch[i].key.value, patch[i].raw).Ok?
               && ValueAt(first.values, Field(patch[i].key.value)) == CoerceField(patch[i].key.value, patch[i].raw).value
    ensures Collected(first, patch) == Ok(map[])
  {
    hide CoerceField;
    if patch != [] {
      NothingToAdd(first, patch[..|patch| - 1]);
    }
  }

  /** Saving the same form twice changes the booking once. */
  lemma {:induction false} SavingTwice(rows: seq<Row>, patch: seq<Entry>, taken: set<string>, later: set<string>)
    requires DistinctKeys(patch) && Edited(rows, patch, taken).Ok?
    ensures Edited(Edited(rows, patch, taken).value, patch, later) == Edited(rows, patch, taken)
  {
    hide CoerceField;
    var u := Collected(rows[0], patch).value;
    var after := Written(rows, u);
    forall i | 0 <= i < |patch|
      ensures patch[i].key.Some? && CoerceField(patch[i].key.value, patch[i].raw).Ok?
      ensures ValueAt(after[0].values, Field(patch[i].key.value)) == CoerceField(patch[i].key.value, patch[i].raw).value
    {
      CollectedHas(rows[0], patch, i);
    }
    NothingToAdd(after[0], patch);
    forall i | 0 <= i < |after| ensures Written(after, map[])[i] == after[i] {
      assert after[i].values + map[] == after[i].values;
    }
    assert Written(after, map[]) == after;
  }
}
