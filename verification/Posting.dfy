/**
 * Posting to the stock ledger (backend/modules/inventory/ledger.service.js and
 * backend/models/StockMovement.js): every line is checked against the movement types and resolved,
 * and a batch enters the ledger whole, once per idempotency key.
 */
module Posting {
  import opened Options
  import opened JsText
  import opened Projection

  datatype Result<+T> = Ok(value: T) | Err(fault: Fault)

  datatype Fault =
    | KeyMissing | WorkflowMissing | NoLines | TooManyLines
    | InvalidType | InvalidQuantity | MissingSku | NotWholePair | InconsistentBalance | InvalidClass
    | InvalidDate | FutureDate | UnknownSku | AmbiguousSku | UnknownLocation | InactiveLocation

  datatype Sign = Positive | Negative | Signed

  /** MOVEMENT_TYPES: the sign each type's quantity carries. */
  function SignOf(kind: Kind): Sign {
    match kind
    case Opening | Receipt | TransferIn | Reserve => Positive
    case Issue | TransferOut | Release => Negative
    case Adjustment | Count | Reversal => Signed
  }

  function NameOf(kind: Kind): (s: string)
    ensures forall i :: 0 <= i < |s| ==> 'A' <= s[i] <= 'Z' || s[i] == '_'
  {
    match kind
    case Opening => "OPENING"
    case Receipt => "RECEIPT"
    case Issue => "ISSUE"
    case Adjustment => "ADJUSTMENT"
    case TransferIn => "TRANSFER_IN"
    case TransferOut => "TRANSFER_OUT"
    case Count => "COUNT"
    case Reserve => "RESERVE"
    case Release => "RELEASE"
    case Reversal => "REVERSAL"
  }

  function KindNamed(s: string): (k: Option<Kind>)
    ensures k.Some? ==> NameOf(k.value) == s
  {
    if s == "OPENING" then Some(Opening)
    else if s == "RECEIPT" then Some(Receipt)
    else if s == "ISSUE" then Some(Issue)
    else if s == "ADJUSTMENT" then Some(Adjustment)
    else if s == "TRANSFER_IN" then Some(TransferIn)
    else if s == "TRANSFER_OUT" then Some(TransferOut)
    else if s == "COUNT" then Some(Count)
    else if s == "RESERVE" then Some(Reserve)
    else if s == "RELEASE" then Some(Release)
    else if s == "REVERSAL" then Some(Reversal)
    else None
  }

  /** A field that may hold an integer, be null or missing, or hold anything else. */
  datatype Figure = Absent | Whole(n: int) | NotWhole

  /** What `new Date` makes of a date the caller gives: a moment, or an invalid date. */
  datatype Moment = At(ms: int) | Invalid

  /** A line as the caller hands it over. */
  datatype Request = Request(
    typeText: string, cls: Option<MovementClass>, quantity: Figure, sku: string, before: Figure, after: Figure,
    brand: Option<string>, location: Option<string>, reversalOf: Option<nat>, meta: Option<nat>, effective: Option<Moment>)

  /** A line as `validateLine` returns it: it carries no brand and no `reversalOf`. */
  datatype Checked = Checked(
    kind: Kind, cls: MovementClass, quantity: int, sku: string, before: Option<int>, after: Option<int>,
    location: Option<string>, meta: Option<nat>, effective: Option<Moment>)

  function AsInt(f: Figure): Option<int> {
    if f.Whole? then Some(f.n) else None
  }

  predicate SignFits(kind: Kind, quantity: int) {
    quantity != 0 && match SignOf(kind)
                     case Positive => quantity > 0
                     case Negative => quantity < 0
                     case Signed => true
  }

  function Cleaned(location: Option<string>): Option<string> {
    if location.None? || location.value == "" then None else Some(Upper(Trim(location.value)))
  }

  /** The checks one after another, as the source makes them. */
  function ValidateLine(line: Request, allowDerived: bool): Result<Checked> {
    var kind := KindNamed(Upper(Trim(line.typeText)));
    if kind.None? then Err(InvalidType)
    else if !allowDerived && kind.value == Reversal then Err(InvalidType)
    else if !line.quantity.Whole? then Err(InvalidQuantity)
    else if line.quantity.n == 0 then Err(InvalidQuantity)
    else if SignOf(kind.value) == Positive && line.quantity.n < 0 then Err(InvalidQuantity)
    else if SignOf(kind.value) == Negative && line.quantity.n > 0 then Err(InvalidQuantity)
    else if Trim(line.sku) == "" then Err(MissingSku)
    else if line.before == NotWhole || line.after == NotWhole then Err(NotWholePair)
    else if line.before.Whole? && line.after.Whole? && line.after.n != line.before.n + line.quantity.n then Err(InconsistentBalance)
    else
      var cls := if kind.value == Reversal then line.cls else ClassOf(kind.value);
      if cls.None? then Err(InvalidClass)
      else Ok(Checked(kind.value, cls.value, line.quantity.n, Trim(line.sku), AsInt(line.before), AsInt(line.after),
                      Cleaned(line.location), line.meta, line.effective))
  }

  /**
   * What a movement in the ledger is promised to be: never nothing, in the direction of its type, of the
   * class of its type, and with figures that add up.
   */
  predicate Sound(kind: Kind, cls: MovementClass, quantity: int, before: Option<int>, after: Option<int>) {
    && quantity != 0
    && (kind == Opening || kind == Receipt || kind == TransferIn || kind == Reserve ==> quantity > 0)
    && (kind == Issue || kind == TransferOut || kind == Release ==> quantity < 0)
    && (kind == Reserve || kind == Release ==> cls == Allocation)
    && (kind != Reserve && kind != Release && kind != Reversal ==> cls == Physical)
    && (before.Some? && after.Some? ==> after.value == before.value + quantity)
  }

  /** A line gets through exactly when it names a type it may name and is sound as that type. */
  lemma {:induction false} AcceptedExactlyWhen(line: Request, allowDerived: bool)
    ensures ValidateLine(line, allowDerived).Ok? <==>
            exists kind, cls ::
              && NameOf(kind) == Upper(Trim(line.typeText)) && (kind == Reversal ==> allowDerived && line.cls == Some(cls))
              && line.quantity.Whole? && Trim(line.sku) != "" && line.before != NotWhole && line.after != NotWhole
              && Sound(kind, cls, line.quantity.n, AsInt(line.before), AsInt(line.after))
    ensures ValidateLine(line, allowDerived).Ok? ==>
            var c := ValidateLine(line, allowDerived).value; Sound(c.kind, c.cls, c.quantity, c.before, c.after)
  {
    hide Trim, Upper, NameOf, KindNamed;
    var r := ValidateLine(line, allowDerived);
    if r.Ok? {
      var kind, cls := r.value.kind, r.value.cls;
      assert NameOf(kind) == Upper(Trim(line.typeText));
      assert Sound(kind, cls, line.quantity.n, AsInt(line.before), AsInt(line.after));
    }
    if kind, cls :|
        && NameOf(kind) == Upper(Trim(line.typeText)) && (kind == Reversal ==> allowDerived && line.cls == Some(cls))
        && line.quantity.Whole? && Trim(line.sku) != "" && line.before != NotWhole && line.after != NotWhole
        && Sound(kind, cls, line.quantity.n, AsInt(line.before), AsInt(line.after))
    {
      NamesAreRead(kind);
    }
  }

  /** The line names a type it may name. */
  ghost predicate NamesType(line: Request, allowDerived: bool, kind: Kind) {
    NameOf(kind) == Upper(Trim(line.typeText)) && (kind == Reversal ==> allowDerived)
  }

  /** Its quantity is a whole number, not nothing, in the direction of the type. */
  predicate QuantityFits(line: Request, kind: Kind) {
    && line.quantity.Whole? && line.quantity.n != 0
    && (kind == Opening || kind == Receipt || kind == TransferIn || kind == Reserve ==> line.quantity.n > 0)
    && (kind == Issue || kind == TransferOut || kind == Release ==> line.quantity.n < 0)
  }

  /** A line that is refused is refused for the first thing wrong with it. */
  lemma {:induction false} UnnamedExactlyWhen(line: Request, allowDerived: bool)
    ensures ValidateLine(line, allowDerived) == Err(InvalidType) <==> forall kind :: !NamesType(line, allowDerived, kind)
  {
    hide Trim, Upper, NameOf;
    var k := KindNamed(Upper(Trim(line.typeText)));
    forall kind | NamesType(line, allowDerived, kind) ensures k == Some(kind) { NamesAreRead(kind); }
    if k.Some? {
      assert NameOf(k.value) == Upper(Trim(line.typeText));
      assert (k.value == Reversal ==> allowDerived) <==> NamesType(line, allowDerived, k.value);
    }
    hide KindNamed;
  }

  lemma {:induction false} RefusedExactlyWhen(line: Request, allowDerived: bool, kind: Kind)
    requires NamesType(line, allowDerived, kind)
    ensures var r, fits, sku := ValidateLine(line, allowDerived), QuantityFits(line, kind), Trim(line.sku) != "";
            var whole := line.before != NotWhole && line.after != NotWhole;
            var adds := line.quantity.Whole? && line.before.Whole? && line.after.Whole? ==> line.after.n == line.before.n + line.quantity.n;
            && (r == Err(InvalidQuantity) <==> !fits) && (r == Err(MissingSku) <==> fits && !sku)
            && (r == Err(NotWholePair) <==> fits && sku && !whole)
            && (r == Err(InconsistentBalance) <==> fits && sku && whole && !adds)
            && (r == Err(InvalidClass) <==> fits && sku && whole && adds && kind == Reversal && line.cls == None)
  {
    NamesAreRead(kind);
    hide Trim, Upper, NameOf, KindNamed;
  }

  lemma {:induction false} NamesAreRead(kind: Kind)
    ensures KindNamed(NameOf(kind)) == Some(kind)
  {
  }

  function AsFigure(n: Option<int>): Figure {
    if n.None? then Absent else Whole(n.value)
  }

  /** The caller's view of a line already checked. */
  function Again(c: Checked): Request {
    Request(NameOf(c.kind), Some(c.cls), Whole(c.quantity), c.sku, AsFigure(c.before), AsFigure(c.after),
         None, c.location, None, c.meta, c.effective)
  }

  lemma {:induction false} CleanedTwice(location: Option<string>)
    ensures Cleaned(Cleaned(location)) == Cleaned(location) <==> Cleaned(location) != Some("")
  {
    if location.Some? && location.value != "" {
      NormalIsNormal(location.value);
    }
  }

  /** Checking is a normal form: posting a checked line again checks to the very same line. */
  lemma {:induction false} CheckedIsFixed(line: Request, allowDerived: bool)
    requires ValidateLine(line, allowDerived).Ok? && Cleaned(line.location) != Some("")
    ensures ValidateLine(Again(ValidateLine(line, allowDerived).value), allowDerived) == ValidateLine(line, allowDerived)
  {
    hide Trim, Upper, Cleaned, NameOf, KindNamed;
    var c := ValidateLine(line, allowDerived).value;
    CleanedTwice(line.location);
    NamesAreRead(c.kind);
    UpperFixed(NameOf(c.kind));
    TrimTwice(line.sku);
  }

  // ---------------------------------------------------------------------------------------
  // Dates, SKUs and locations
  // ---------------------------------------------------------------------------------------

  /** The brands each SKU exists under, and the locations by code. */
  datatype Catalogue = Catalogue(brands: map<string, seq<string>>, active: map<string, bool>, home: Option<string>)

  /** A movement on file, with the figures its poster vouched for and what its links point at. */
  datatype Entry = Entry(movement: Movement, before: Option<int>, after: Option<int>, reversalOf: Option<nat>, meta: Option<nat>)

  const MINUTE: int := 60_000

  /** A date is refused when it is none or lies more than a minute ahead. */
  function Timely(at: Moment, now: int): Result<int> {
    if at.Invalid? then Err(InvalidDate)
    else if at.ms > now + MINUTE then Err(FutureDate)
    else Ok(at.ms)
  }

  function DateOf(c: Checked, batchAt: int, now: int): Result<int> {
    Timely(c.effective.GetOr(At(batchAt)), now)
  }

  /** A date is refused for being none, or for lying ahead. */
  lemma {:induction false} DateRefusedExactlyWhen(c: Checked, batchAt: int, now: int)
    ensures var r, at := DateOf(c, batchAt, now), if c.effective.Some? then c.effective.value else At(batchAt);
            && (r == Err(InvalidDate) <==> at == Invalid) && (r == Err(FutureDate) <==> at.At? && at.ms > now + 60_000)
            && (forall ms :: r == Ok(ms) <==> at == At(ms) && ms <= now + 60_000)
  {
  }

  /** The checked line has lost its brand, so a SKU under two brands is always ambiguous. */
  function Resolve(c: Checked, at: int, cat: Catalogue): Result<Entry> {
    var brands := if c.sku in cat.brands then cat.brands[c.sku] else [];
    if brands == [] then Err(UnknownSku)
    else if |brands| > 1 then Err(AmbiguousSku)
    else
      var code := if c.location.Some? && c.location.value != "" then c.location else cat.home;
      if code.None? || code.value !in cat.active then Err(UnknownLocation)
      else if !cat.active[code.value] then Err(InactiveLocation)
      else Ok(Entry(Movement(Grain(c.sku, brands[0], code.value), c.cls, c.kind, c.quantity, Some(at)),
                    c.before, c.after, None, c.meta))
  }

  /** A line is filed under the one brand of its SKU, at the place it names or else at home, if that is in use. */
  lemma {:induction false} ResolvedExactlyWhen(c: Checked, at: int, cat: Catalogue)
    ensures var r := Resolve(c, at, cat);
            var known := c.sku in cat.brands && cat.brands[c.sku] != [];
            var shared := c.sku in cat.brands && |cat.brands[c.sku]| >= 2;
            var named := c.location.Some? && c.location.value != "";
            var place := if named then c.location else cat.home;
            var placed := place.Some? && place.value in cat.active;
            && (r == Err(UnknownSku) <==> !known) && (r == Err(AmbiguousSku) <==> shared)
            && (r == Err(UnknownLocation) <==> known && !shared && !placed)
            && (r == Err(InactiveLocation) <==> known && !shared && placed && !cat.active[place.value])
            && (r.Ok? <==> known && !shared && placed && cat.active[place.value])
            && (r.Ok? ==> cat.brands[c.sku] == [r.value.movement.grain.brand] && place == Some(r.value.movement.grain.location))
  {
  }

  predicate SoundEntry(e: Entry) {
    Sound(e.movement.kind, e.movement.cls, e.movement.quantity, e.before, e.after)
  }

  // ---------------------------------------------------------------------------------------
  // Phases over all lines
  // ---------------------------------------------------------------------------------------

  /** Every result, or the first fault. */
  function Each<T>(rs: seq<Result<T>>): (r: Result<seq<T>>)
    ensures r.Ok? ==> |r.value| == |rs|
  {
    if rs == [] then Ok([])
    else
      var front := Each(rs[..|rs| - 1]);
      if front.Err? then front
      else if rs[|rs| - 1].Err? then Err(rs[|rs| - 1].fault)
      else Ok(front.value + [rs[|rs| - 1].value])
  }

  lemma {:induction false} EachIs<T>(rs: seq<Result<T>>)
    ensures Each(rs).Ok? <==> forall i :: 0 <= i < |rs| ==> rs[i].Ok?
    ensures Each(rs).Ok? ==> forall i :: 0 <= i < |rs| ==> rs[i] == Ok(Each(rs).value[i])
    ensures Each(rs).Err? ==> exists i :: 0 <= i < |rs| && rs[i] == Err(Each(rs).fault)
  {
    if rs != [] {
      EachIs(rs[..|rs| - 1]);
    }
  }

  function Checks(lines: seq<Request>, allowDerived: bool): (rs: seq<Result<Checked>>)
    ensures |rs| == |lines|
  {
    seq(|lines|, i requires 0 <= i < |lines| => ValidateLine(lines[i], allowDerived))
  }

  function Dates(cs: seq<Checked>, batchAt: int, now: int): (rs: seq<Result<int>>)
    ensures |rs| == |cs|
  {
    seq(|cs|, i requires 0 <= i < |cs| => DateOf(cs[i], batchAt, now))
  }

  function Resolutions(cs: seq<Checked>, ats: seq<int>, cat: Catalogue): (rs: seq<Result<Entry>>)
    requires |cs| == |ats|
    ensures |rs| == |cs|
  {
    seq(|cs|, i requires 0 <= i < |cs| => Resolve(cs[i], ats[i], cat))
  }

  /** What the lines become, or the first fault of the first phase that has one. */
  function Prepared(lines: seq<Request>, allowDerived: bool, effective: Option<Moment>, now: int, cat: Catalogue): Result<seq<Entry>> {
    var checked := Each(Checks(lines, allowDerived));
    if checked.Err? then Err(checked.fault)
    else
      var batchAt := Timely(effective.GetOr(At(now)), now);
      if batchAt.Err? then Err(batchAt.fault)
      else
        var ats := Each(Dates(checked.value, batchAt.value, now));
        if ats.Err? then Err(ats.fault)
        else Each(Resolutions(checked.value, ats.value, cat))
  }

  /** Whatever is prepared is sound, dated no later than a minute ahead, and never links back. */
  lemma {:induction false} PreparedIsSound(lines: seq<Request>, allowDerived: bool, effective: Option<Moment>, now: int, cat: Catalogue)
    ensures var r := Prepared(lines, allowDerived, effective, now, cat);
            r.Ok? ==> |r.value| == |lines| && forall i :: 0 <= i < |lines| ==>
              && SoundEntry(r.value[i]) && (r.value[i].movement.kind == Reversal ==> allowDerived)
              && r.value[i].movement.effective.Some? && r.value[i].movement.effective.value <= now + MINUTE
              && r.value[i].reversalOf == None
  {
    hide ValidateLine;
    var r := Prepared(lines, allowDerived, effective, now, cat);
    if r.Ok? {
      var batchAt := Timely(effective.GetOr(At(now)), now).value;
      var checked := Each(Checks(lines, allowDerived)).value;
      var ats := Each(Dates(checked, batchAt, now)).value;
      EachIs(Checks(lines, allowDerived));
      EachIs(Dates(checked, batchAt, now));
      EachIs(Resolutions(checked, ats, cat));
      forall i | 0 <= i < |lines|
        ensures && SoundEntry(r.value[i]) && (r.value[i].movement.kind == Reversal ==> allowDerived)
                && r.value[i].movement.effective.Some? && r.value[i].movement.effective.value <= now + MINUTE
                && r.value[i].reversalOf == None
      {
        assert Checks(lines, allowDerived)[i] == Ok(checked[i]);
        assert Dates(checked, batchAt, now)[i] == Ok(ats[i]);
        assert Resolutions(checked, ats, cat)[i] == Ok(r.value[i]);
        ResolvedIsSound(lines[i], allowDerived, ats[i], cat);
      }
    }
  }

  /** The date a line is given: its own, else the batch's, else now. */
  function DatedAt(line: Request, effective: Option<Moment>, now: int): Moment {
    if line.effective.Some? then line.effective.value else if effective.Some? then effective.value else At(now)
  }

  predicate DateTaken(at: Moment, now: int) {
    at.At? && at.ms <= now + 60_000
  }

  /** The place a line is filed at: the one brand its SKU is under, and the location it names, or the default. */
  predicate FiledUnder(line: Request, cat: Catalogue, g: Grain) {
    && g.sku == Trim(line.sku) && g.sku in cat.brands && cat.brands[g.sku] == [g.brand]
    && (if line.location.Some? && Upper(Trim(line.location.value)) != "" then g.location == Upper(Trim(line.location.value))
        else cat.home == Some(g.location))
    && g.location in cat.active && cat.active[g.location]
  }

  /** What the ledger takes of a line: the movement it names, as itself. */
  ghost predicate EntersAs(line: Request, allowDerived: bool, effective: Option<Moment>, now: int, cat: Catalogue, e: Entry) {
    var m := e.movement;
    && NameOf(m.kind) == Upper(Trim(line.typeText)) && (m.kind == Reversal ==> allowDerived && line.cls == Some(m.cls))
    && line.quantity == Whole(m.quantity) && Trim(line.sku) != ""
    && line.before == AsFigure(e.before) && line.after == AsFigure(e.after)
    && SoundEntry(e) && FiledUnder(line, cat, m.grain)
    && DatedAt(line, effective, now) == At(m.effective.GetOr(0)) && m.effective.Some? && DateTaken(At(m.effective.value), now)
    && e.meta == line.meta && e.reversalOf == None
  }

  ghost predicate CanEnter(line: Request, allowDerived: bool, effective: Option<Moment>, now: int, cat: Catalogue) {
    exists e :: EntersAs(line, allowDerived, effective, now, cat, e)
  }

  /** One line through every phase. */
  function Passed(line: Request, allowDerived: bool, batchAt: int, now: int, cat: Catalogue): Result<Entry> {
    var c := ValidateLine(line, allowDerived);
    if c.Err? then Err(c.fault)
    else
      var at := DateOf(c.value, batchAt, now);
      if at.Err? then Err(at.fault) else Resolve(c.value, at.value, cat)
  }

  lemma {:induction false} CheckedSays(line: Request, allowDerived: bool)
    requires ValidateLine(line, allowDerived).Ok?
    ensures var c := ValidateLine(line, allowDerived).value;
            && NameOf(c.kind) == Upper(Trim(line.typeText)) && (c.kind == Reversal ==> allowDerived && line.cls == Some(c.cls))
            && line.quantity == Whole(c.quantity) && c.sku == Trim(line.sku) && c.sku != ""
            && line.before == AsFigure(c.before) && line.after == AsFigure(c.after)
            && Sound(c.kind, c.cls, c.quantity, c.before, c.after) && c.location == Cleaned(line.location)
            && c.meta == line.meta && c.effective == line.effective
  {
    hide Trim, Upper, NameOf, KindNamed, Cleaned;
  }

  lemma {:induction false} PassedEnters(line: Request, allowDerived: bool, effective: Option<Moment>, now: int, cat: Catalogue,
                                        batchAt: int)
    requires Timely(effective.GetOr(At(now)), now) == Ok(batchAt)
    requires Passed(line, allowDerived, batchAt, now, cat).Ok?
    ensures EntersAs(line, allowDerived, effective, now, cat, Passed(line, allowDerived, batchAt, now, cat).value)
  {
    hide Trim, Upper, NameOf, KindNamed, ValidateLine, Sound;
    BlankIsBlank();
    CheckedSays(line, allowDerived);
    var c := ValidateLine(line, allowDerived);
    OneBrand(cat.brands[c.value.sku]);
    assert FiledUnder(line, cat, Passed(line, allowDerived, batchAt, now, cat).value.movement.grain);
  }

  lemma {:induction false} EntersChecks(line: Request, allowDerived: bool, effective: Option<Moment>, now: int, cat: Catalogue, e: Entry)
    requires EntersAs(line, allowDerived, effective, now, cat, e)
    ensures var m := e.movement;
            ValidateLine(line, allowDerived) == Ok(Checked(m.kind, m.cls, m.quantity, Trim(line.sku), e.before, e.after,
                                                           Cleaned(line.location), line.meta, line.effective))
  {
    hide Trim, Upper, NameOf, KindNamed, Cleaned, FiledUnder, DatedAt;
    NamesAreRead(e.movement.kind);
  }

  lemma {:induction false} EntersPasses(line: Request, allowDerived: bool, effective: Option<Moment>, now: int, cat: Catalogue,
                                        batchAt: int, e: Entry)
    requires Timely(effective.GetOr(At(now)), now) == Ok(batchAt) && EntersAs(line, allowDerived, effective, now, cat, e)
    ensures Passed(line, allowDerived, batchAt, now, cat) == Ok(e)
  {
    hide Trim, Upper, NameOf, KindNamed, ValidateLine, SoundEntry;
    BlankIsBlank();
    EntersChecks(line, allowDerived, effective, now, cat, e);
    var c := ValidateLine(line, allowDerived).value;
    var at := DateOf(c, batchAt, now);
    assert at.Ok? && Some(at.value) == e.movement.effective;
    hide DateOf, Timely;
    ResolvedExactlyWhen(c, at.value, cat);
    assert Resolve(c, at.value, cat).value.movement.grain == e.movement.grain;
  }

  lemma {:induction false} PhasesArePassed(lines: seq<Request>, allowDerived: bool, effective: Option<Moment>, now: int, cat: Catalogue,
                                           batchAt: int)
    requires Timely(effective.GetOr(At(now)), now) == Ok(batchAt)
    ensures var r := Prepared(lines, allowDerived, effective, now, cat);
            && (r.Ok? <==> forall i :: 0 <= i < |lines| ==> Passed(lines[i], allowDerived, batchAt, now, cat).Ok?)
            && (r.Ok? ==> |r.value| == |lines| && forall i :: 0 <= i < |lines| ==>
                            Passed(lines[i], allowDerived, batchAt, now, cat) == Ok(r.value[i]))
  {
    hide ValidateLine, DateOf, Resolve;
    var r := Prepared(lines, allowDerived, effective, now, cat);
    EachIs(Checks(lines, allowDerived));
    var checked := Each(Checks(lines, allowDerived));
    if checked.Ok? {
      EachIs(Dates(checked.value, batchAt, now));
      forall i | 0 <= i < |lines| ensures ValidateLine(lines[i], allowDerived) == Ok(checked.value[i]) {
        assert Checks(lines, allowDerived)[i] == Ok(checked.value[i]);
      }
      var ats := Each(Dates(checked.value, batchAt, now));
      if ats.Ok? {
        EachIs(Resolutions(checked.value, ats.value, cat));
        forall i | 0 <= i < |lines| ensures DateOf(checked.value[i], batchAt, now) == Ok(ats.value[i]) {
          assert Dates(checked.value, batchAt, now)[i] == Ok(ats.value[i]);
        }
        forall i | 0 <= i < |lines|
          ensures Resolutions(checked.value, ats.value, cat)[i] == Passed(lines[i], allowDerived, batchAt, now, cat) {}
      } else {
        var i :| 0 <= i < |lines| && Dates(checked.value, batchAt, now)[i].Err?;
        assert Passed(lines[i], allowDerived, batchAt, now, cat).Err?;
      }
    } else {
      var i :| 0 <= i < |lines| && Checks(lines, allowDerived)[i].Err?;
      assert Passed(lines[i], allowDerived, batchAt, now, cat).Err?;
    }
  }

  lemma {:induction false} LineEntersExactlyWhen(line: Request, allowDerived: bool, effective: Option<Moment>, now: int, cat: Catalogue,
                                                 batchAt: int)
    requires Timely(effective.GetOr(At(now)), now) == Ok(batchAt)
    ensures var r := Passed(line, allowDerived, batchAt, now, cat);
            && (r.Ok? <==> CanEnter(line, allowDerived, effective, now, cat))
            && (r.Ok? ==> EntersAs(line, allowDerived, effective, now, cat, r.value))
  {
    hide Passed, EntersAs, Timely;
    if Passed(line, allowDerived, batchAt, now, cat).Ok? { PassedEnters(line, allowDerived, effective, now, cat, batchAt); }
    forall e | EntersAs(line, allowDerived, effective, now, cat, e) ensures Passed(line, allowDerived, batchAt, now, cat).Ok? {
      EntersPasses(line, allowDerived, effective, now, cat, batchAt, e);
    }
  }

  lemma {:induction false} BatchDate(lines: seq<Request>, allowDerived: bool, effective: Option<Moment>, now: int, cat: Catalogue)
    ensures var batch := Timely(effective.GetOr(At(now)), now);
            && (batch.Ok? <==> (effective.Some? ==> DateTaken(effective.value, now)))
            && (batch.Err? ==> Prepared(lines, allowDerived, effective, now, cat).Err?)
  {
    hide Each, Checks, Dates, Resolutions;
  }

  /**
   * A posting is prepared exactly when its own date is taken and every line can enter the ledger as itself;
   * and then every line does, under its own date, else the batch's, else now.
   */
  lemma {:induction false} PreparedExactlyWhen(lines: seq<Request>, allowDerived: bool, effective: Option<Moment>, now: int, cat: Catalogue)
    ensures var r := Prepared(lines, allowDerived, effective, now, cat);
            && (r.Ok? <==> && (effective.Some? ==> DateTaken(effective.value, now))
                           && forall i :: 0 <= i < |lines| ==> CanEnter(lines[i], allowDerived, effective, now, cat))
            && (r.Ok? ==> |r.value| == |lines| && forall i :: 0 <= i < |lines| ==>
                            EntersAs(lines[i], allowDerived, effective, now, cat, r.value[i]))
  {
    hide Prepared, EntersAs, CanEnter, Passed, Timely, DateTaken;
    var batch := Timely(effective.GetOr(At(now)), now);
    BatchDate(lines, allowDerived, effective, now, cat);
    if batch.Ok? {
      PhasesArePassed(lines, allowDerived, effective, now, cat, batch.value);
      forall i | 0 <= i < |lines|
        ensures var r := Passed(lines[i], allowDerived, batch.value, now, cat);
                && (r.Ok? <==> CanEnter(lines[i], allowDerived, effective, now, cat))
                && (r.Ok? ==> EntersAs(lines[i], allowDerived, effective, now, cat, r.value))
      {
        LineEntersExactlyWhen(lines[i], allowDerived, effective, now, cat, batch.value);
      }
    }
  }

  lemma {:induction false} BlankIsBlank()
    ensures Upper(Trim("")) == ""
  {
  }

  lemma {:induction false} OneBrand(brands: seq<string>)
    ensures |brands| == 1 ==> brands == [brands[0]]
  {
  }

  lemma {:induction false} ResolvedIsSound(line: Request, allowDerived: bool, at: int, cat: Catalogue)
    requires ValidateLine(line, allowDerived).Ok? && Resolve(ValidateLine(line, allowDerived).value, at, cat).Ok?
    ensures var e := Resolve(ValidateLine(line, allowDerived).value, at, cat).value;
            && SoundEntry(e) && (e.movement.kind == Reversal ==> allowDerived)
            && e.movement.effective == Some(at) && e.reversalOf == None
  {
    hide Trim, Upper, KindNamed;
  }

  /** The brand a caller specifies makes no difference, although the refusal asks for one. */
  lemma {:induction false} BrandIsIgnored(line: Request, brand: Option<string>, link: Option<nat>, allowDerived: bool)
    ensures ValidateLine(line.(brand := brand, reversalOf := link), allowDerived) == ValidateLine(line, allowDerived)
  {
    hide Trim, Upper, KindNamed, SignOf, ClassOf;
  }

  /** So a posting with a line for a SKU that is under several brands never succeeds. */
  lemma {:induction false} SharedSkuNeverPosts(lines: seq<Request>, allowDerived: bool, effective: Option<Moment>, now: int,
                                                      cat: Catalogue, k: nat)
    requires k < |lines| && Trim(lines[k].sku) in cat.brands && |cat.brands[Trim(lines[k].sku)]| > 1
    ensures Prepared(lines, allowDerived, effective, now, cat).Err?
  {
    hide ValidateLine;
    var r := Prepared(lines, allowDerived, effective, now, cat);
    if r.Ok? {
      var batchAt := Timely(effective.GetOr(At(now)), now).value;
      var checked := Each(Checks(lines, allowDerived)).value;
      var ats := Each(Dates(checked, batchAt, now)).value;
      EachIs(Checks(lines, allowDerived));
      EachIs(Resolutions(checked, ats, cat));
      assert Checks(lines, allowDerived)[k] == Ok(checked[k]);
      assert Resolutions(checked, ats, cat)[k] == Ok(r.value[k]);
      CheckedSays(lines[k], allowDerived);
    }
  }

  /** Nor does one with a date that is none, be it the batch's own, even when every line has another, or a line's. */
  lemma {:induction false} InvalidDateNeverPosts(lines: seq<Request>, allowDerived: bool, effective: Option<Moment>, now: int,
                                                 cat: Catalogue)
    requires effective == Some(Invalid) || exists k :: 0 <= k < |lines| && lines[k].effective == Some(Invalid)
    ensures Prepared(lines, allowDerived, effective, now, cat).Err?
  {
    hide ValidateLine, Resolutions;
    if Prepared(lines, allowDerived, effective, now, cat).Ok? && effective != Some(Invalid) {
      var batchAt := Timely(effective.GetOr(At(now)), now).value;
      var k :| 0 <= k < |lines| && lines[k].effective == Some(Invalid);
      var checked := Each(Checks(lines, allowDerived)).value;
      EachIs(Checks(lines, allowDerived));
      assert Checks(lines, allowDerived)[k] == Ok(checked[k]);
      CheckedSays(lines[k], allowDerived);
      assert Dates(checked, batchAt, now)[k] == Err(InvalidDate);
      EachIs(Dates(checked, batchAt, now));
    }
  }

  // ---------------------------------------------------------------------------------------
  // Posting
  // ---------------------------------------------------------------------------------------

  /** A posted batch: where its movements start and how many they are. */
  datatype Batch = Batch(first: nat, count: nat)

  datatype Outcome = Entered(batch: Batch) | Replay(batch: Batch) | Refused(fault: Fault)

  /** The ledger and its batches. Transactions make a posting one step. */
  class StockLedger {
    var entries: seq<Entry>
    var batches: map<string, Batch>

    /** Every batch lies within the ledger, no two batches share a movement, and every movement is sound. */
    ghost predicate Valid()
      reads this
    {
      && (forall i :: 0 <= i < |entries| ==> SoundEntry(entries[i]))
      && (forall k :: k in batches ==> batches[k].count > 0 && batches[k].first + batches[k].count <= |entries|)
      && (forall k, l :: k in batches && l in batches && k != l ==>
            batches[k].first + batches[k].count <= batches[l].first || batches[l].first + batches[l].count <= batches[k].first)
    }

    constructor ()
      ensures Valid() && entries == [] && batches == map[]
    {
      entries := [];
      batches := map[];
    }

    method PostBatch(key: string, workflow: string, lines: seq<Request>, allowDerived: bool, effective: Option<Moment>, now: int,
                     cat: Catalogue) returns (r: Outcome)
      requires Valid()
      modifies this
      ensures Valid()
      ensures var wanting := Trim(key) == "" || workflow == "" || lines == [] || |lines| > 5000;
              var prepared := Prepared(lines, allowDerived, effective, now, cat);
              && (Trim(key) == "" ==> r == Refused(KeyMissing))
              && (Trim(key) != "" && workflow == "" ==> r == Refused(WorkflowMissing))
              && (Trim(key) != "" && workflow != "" && lines == [] ==> r == Refused(NoLines))
              && (Trim(key) != "" && workflow != "" && |lines| > 5000 ==> r == Refused(TooManyLines))
              && (!wanting && Trim(key) in old(batches) ==> r == Replay(old(batches)[Trim(key)]))
              && (!wanting && Trim(key) !in old(batches) ==>
                    r == if prepared.Ok? then Entered(Batch(|old(entries)|, |lines|)) else Refused(prepared.fault))
      ensures r.Entered? ==> entries == old(entries) + Prepared(lines, allowDerived, effective, now, cat).value
      ensures r.Entered? ==> batches == old(batches)[Trim(key) := r.batch]
      ensures !r.Entered? ==> entries == old(entries) && batches == old(batches)
    {
      hide ValidateLine, Each, Checks, Dates, Resolutions, SoundEntry, Trim;
      var name := Trim(key);
      if name == "" { return Refused(KeyMissing); }
      if workflow == "" { return Refused(WorkflowMissing); }
      if lines == [] { return Refused(NoLines); }
      if |lines| > 5000 { return Refused(TooManyLines); }
      if name in batches { return Replay(batches[name]); }
      var checked := Each(Checks(lines, allowDerived));
      if checked.Err? { return Refused(checked.fault); }
      var batchAt := Timely(effective.GetOr(At(now)), now);
      if batchAt.Err? { return Refused(batchAt.fault); }
      var ats := Each(Dates(checked.value, batchAt.value, now));
      if ats.Err? { return Refused(ats.fault); }
      var resolved := Each(Resolutions(checked.value, ats.value, cat));
      if resolved.Err? { return Refused(resolved.fault); }
      PreparedIsSound(lines, allowDerived, effective, now, cat);
      r := Entered(Batch(|entries|, |lines|));
      entries := entries + resolved.value;
      batches := batches[name := r.batch];
    }
  }
}
