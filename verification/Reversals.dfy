/**
 * Correcting the ledger by contra-entries (reverseMovement in
 * backend/modules/inventory/ledger.service.js): claim the original, post the contra, stamp the
 * original; or release the claim when the posting is refused. Callers run side by side and may stop
 * between any two steps.
 */
module Reversals {
  import opened Options
  import opened JsText
  import opened Projection
  import opened Posting

  /** `reversedBy`: null, the placeholder of a claim, or the contra-entry. */
  datatype Mark = Free | Pending | By(contra: nat)

  datatype Caller = Claimed(original: nat) | Stamping(original: nat, contra: nat)

  datatype Ledger = Ledger(entries: seq<Entry>, marks: seq<Mark>, batches: map<string, nat>, callers: map<nat, Caller>)

  datatype Step =
    | Post(key: string, lines: seq<Request>, effective: Option<Moment>, now: int, cat: Catalogue)
    | Claim(p: nat, original: nat)
    | Contra(p: nat, key: string, now: int, cat: Catalogue)
    | Refuse(p: nat)
    | Stamp(p: nat)
    | Crash(p: nat)

  /** The line a reversal posts: the class and place of the original, and the opposite quantity. */
  function ContraLine(e: Entry, original: nat): Request {
    Request("REVERSAL", Some(e.movement.cls), Whole(-e.movement.quantity), e.movement.grain.sku, Absent, Absent,
            Some(e.movement.grain.brand), Some(e.movement.grain.location), Some(original), Some(original), None)
  }

  function Unclaimed(s: Ledger, p: nat): Ledger {
    s.(callers := map q | q in s.callers && q != p :: s.callers[q])
  }

  function Entering(s: Ledger, key: string, es: seq<Entry>): Ledger {
    s.(entries := s.entries + es, marks := s.marks + seq(|es|, _ => Free), batches := s.batches[Trim(key) := |s.entries|])
  }

  function Released(s: Ledger, p: nat, original: nat): Ledger
  {
    if original < |s.marks| && s.marks[original] == Pending then Unclaimed(s, p).(marks := s.marks[original := Free])
    else Unclaimed(s, p)
  }

  function PostContra(s: Ledger, p: nat, original: nat, key: string, now: int, cat: Catalogue): Ledger {
    if original >= |s.entries| || Trim(key) == "" then Released(s, p, original)
    else if Trim(key) in s.batches then s.(callers := s.callers[p := Stamping(original, s.batches[Trim(key)])])
    else
      var r := Prepared([ContraLine(s.entries[original], original)], true, None, now, cat);
      if r.Err? then Released(s, p, original)
      else Entering(s, key, r.value).(callers := s.callers[p := Stamping(original, |s.entries|)])
  }

  function Next(s: Ledger, step: Step): Ledger {
    match step
    case Post(key, lines, effective, now, cat) =>
      var r := Prepared(lines, false, effective, now, cat);
      if Trim(key) == "" || lines == [] || |lines| > 5000 || Trim(key) in s.batches || r.Err? then s else Entering(s, key, r.value)
    case Claim(p, o) =>
      if p in s.callers || o >= |s.entries| || o >= |s.marks| || s.entries[o].movement.kind == Reversal || s.marks[o] != Free then s
      else s.(marks := s.marks[o := Pending], callers := s.callers[p := Claimed(o)])
    case Contra(p, key, now, cat) =>
      if p in s.callers && s.callers[p].Claimed? then PostContra(s, p, s.callers[p].original, key, now, cat) else s
    case Refuse(p) =>
      if p in s.callers && s.callers[p].Claimed? then Released(s, p, s.callers[p].original) else s
    case Stamp(p) =>
      if p in s.callers && s.callers[p].Stamping? && s.callers[p].original < |s.marks|
      then Unclaimed(s, p).(marks := s.marks[s.callers[p].original := By(s.callers[p].contra)])
      else s
    case Crash(p) => Unclaimed(s, p)
  }

  function Run(steps: seq<Step>): Ledger {
    if steps == [] then Ledger([], [], map[], map[])
    else Next(Run(steps[..|steps| - 1]), steps[|steps| - 1])
  }

  // ---------------------------------------------------------------------------------------
  // What every run keeps
  // ---------------------------------------------------------------------------------------

  predicate IsContra(e: Entry) {
    e.movement.kind == Reversal
  }

  /** The contra-entry at c takes back the movement at o. */
  predicate Cancels(entries: seq<Entry>, c: int, o: int) {
    0 <= o && 0 <= c < |entries| && IsContra(entries[c]) && entries[c].meta == Some(o)
  }

  ghost predicate HasContra(entries: seq<Entry>, o: int) {
    exists c :: Cancels(entries, c, o)
  }

  /** A contra-entry is the opposite of an earlier movement of its class that is no reversal itself. */
  ghost predicate ContrasOk(s: Ledger) {
    forall c, o :: Cancels(s.entries, c, o) ==>
      && o < c && !IsContra(s.entries[o])
      && s.entries[c].movement.quantity == -s.entries[o].movement.quantity
      && s.entries[c].movement.cls == s.entries[o].movement.cls
  }

  ghost predicate LinksOk(s: Ledger) {
    forall c :: 0 <= c < |s.entries| && IsContra(s.entries[c]) ==> s.entries[c].meta.Some?
  }

  /** Nothing is taken back twice, and what is taken back is no longer free. */
  ghost predicate OnceOk(s: Ledger) {
    && (forall c, d, o :: Cancels(s.entries, c, o) && Cancels(s.entries, d, o) ==> c == d)
    && (forall c, o :: Cancels(s.entries, c, o) && o < |s.marks| ==> s.marks[o] != Free)
  }

  predicate MarkedPending(s: Ledger, o: nat) {
    o < |s.entries| && o < |s.marks| && s.marks[o] == Pending && !IsContra(s.entries[o])
  }

  /** Each caller at work holds the claim on an original of its own. */
  ghost predicate CallersOk(s: Ledger) {
    && (forall p :: p in s.callers ==> MarkedPending(s, s.callers[p].original))
    && (forall p, q :: p in s.callers && q in s.callers && p != q ==> s.callers[p].original != s.callers[q].original)
    && (forall p, c :: p in s.callers && s.callers[p].Claimed? ==> !Cancels(s.entries, c, s.callers[p].original))
  }

  ghost predicate SoundOk(s: Ledger) {
    |s.marks| == |s.entries| && forall i :: 0 <= i < |s.entries| ==> SoundEntry(s.entries[i])
  }

  ghost predicate Inv(s: Ledger) {
    SoundOk(s) && LinksOk(s) && ContrasOk(s) && OnceOk(s) && CallersOk(s)
  }

  lemma {:induction false} ReleasedKeeps(s: Ledger, p: nat)
    requires Inv(s) && p in s.callers && s.callers[p].Claimed?
    ensures Inv(Released(s, p, s.callers[p].original))
  {
    hide SoundEntry, IsContra;
    var o := s.callers[p].original;
    assert MarkedPending(s, o);
    var t := Released(s, p, o);
    assert t.entries == s.entries && t.marks == s.marks[o := Free];
    assert forall q :: q in t.callers ==> q in s.callers && t.callers[q] == s.callers[q] && s.callers[q].original != o;
  }

  lemma {:induction false} CrashKeeps(s: Ledger, p: nat)
    requires Inv(s)
    ensures Inv(Unclaimed(s, p))
  {
    hide SoundEntry, IsContra, Cancels;
    var t := Unclaimed(s, p);
    assert forall q :: q in t.callers ==> q in s.callers && t.callers[q] == s.callers[q];
    assert forall q :: q in t.callers ==> MarkedPending(s, s.callers[q].original);
  }

  lemma {:induction false} ClaimKeeps(s: Ledger, p: nat, o: nat)
    requires Inv(s)
    ensures Inv(Next(s, Claim(p, o)))
  {
    hide SoundEntry;
    var t := Next(s, Claim(p, o));
    if t != s {
      assert t.marks == s.marks[o := Pending] && t.entries == s.entries && t.callers == s.callers[p := Claimed(o)];
      assert forall q :: q in s.callers ==> MarkedPending(s, s.callers[q].original) && s.callers[q].original != o;
      assert forall c :: !Cancels(s.entries, c, o);
    }
  }

  lemma {:induction false} StampKeeps(s: Ledger, p: nat)
    requires Inv(s)
    ensures Inv(Next(s, Stamp(p)))
  {
    hide SoundEntry, IsContra;
    var t := Next(s, Stamp(p));
    if t != s {
      var o := s.callers[p].original;
      assert t.entries == s.entries && t.marks == s.marks[o := By(s.callers[p].contra)];
      assert forall q :: q in t.callers ==> q in s.callers && t.callers[q] == s.callers[q] && s.callers[q].original != o;
      assert forall q :: q in t.callers ==> MarkedPending(s, s.callers[q].original);
    }
  }

  /** Entries added at the end leave the earlier ones, their marks and their contras alone. */
  lemma {:induction false} EnteringExtends(s: Ledger, key: string, es: seq<Entry>)
    requires |s.marks| == |s.entries|
    ensures var t := Entering(s, key, es);
            && |t.marks| == |t.entries| == |s.entries| + |es|
            && (forall i :: 0 <= i < |s.entries| ==> t.entries[i] == s.entries[i] && t.marks[i] == s.marks[i])
            && (forall i :: |s.entries| <= i < |t.entries| ==> t.entries[i] == es[i - |s.entries|] && t.marks[i] == Free)
  {
  }

  lemma {:induction false} EnteringPlain(s: Ledger, key: string, es: seq<Entry>)
    requires Inv(s) && forall i :: 0 <= i < |es| ==> SoundEntry(es[i]) && !IsContra(es[i])
    ensures Inv(Entering(s, key, es))
    ensures forall c, o :: Cancels(Entering(s, key, es).entries, c, o) <==> Cancels(s.entries, c, o)
  {
    hide SoundEntry, IsContra, Trim, Entering;
    var t := Entering(s, key, es);
    EnteringExtends(s, key, es);
    assert t.callers == s.callers by { EnteringCallers(s, key, es); }
    assert forall i :: |s.entries| <= i < |t.entries| ==> !IsContra(t.entries[i]) && SoundEntry(t.entries[i]);
    forall c, o ensures Cancels(t.entries, c, o) <==> Cancels(s.entries, c, o) {}
    forall q | q in t.callers ensures MarkedPending(t, t.callers[q].original) {
      assert MarkedPending(s, s.callers[q].original);
    }
  }

  lemma {:induction false} EnteringCallers(s: Ledger, key: string, es: seq<Entry>)
    ensures Entering(s, key, es).callers == s.callers
  {
  }

  /** The catalogue still files the movement's SKU and location code under the place it is at. */
  predicate KeepsPlace(e: Entry, cat: Catalogue) {
    var g := e.movement.grain;
    && Trim(g.sku) == g.sku && g.sku in cat.brands && cat.brands[g.sku] == [g.brand]
    && (if g.location == "" || Trim(g.location) == "" then cat.home == Some(g.location) else IsNormal(g.location))
  }

  lemma {:induction false} EachOne<T>(r: Result<T>)
    ensures Each([r]) == if r.Ok? then Ok([r.value]) else Err(r.fault)
  {
    var rs := [r];
    var front := rs[..|rs| - 1];
    assert front == [] && rs[|rs| - 1] == r;
    assert Each(front) == Ok([]);
    if r.Ok? {
      assert [] + [r.value] == [r.value];
    }
  }

  lemma {:induction false} PreparedOne(line: Request, now: int, cat: Catalogue)
    requires line.effective == None
    ensures var r := Prepared([line], true, None, now, cat);
            r.Ok? ==> var c := ValidateLine(line, true);
                      c.Ok? && Resolve(c.value, now, cat).Ok? && r.value == [Resolve(c.value, now, cat).value]
  {
    hide ValidateLine, Resolve, Each, Trim, Upper, NameOf, Sound, Cleaned;
    var c := ValidateLine(line, true);
    assert Checks([line], true) == [c];
    EachOne(c);
    if c.Ok? {
      CheckedSays(line, true);
      assert Dates([c.value], now, now) == [Result.Ok(now)];
      EachOne(Result.Ok(now));
      var e := Resolve(c.value, now, cat);
      assert Resolutions([c.value], [now], cat) == [e];
      EachOne(e);
    }
  }

  lemma {:induction false} ContraChecks(e: Entry, o: nat)
    requires SoundEntry(e)
    ensures var r := ValidateLine(ContraLine(e, o), true);
            var sku := Trim(e.movement.grain.sku);
            if sku == "" then r.Err?
            else r == Ok(Checked(Reversal, e.movement.cls, -e.movement.quantity, sku, None, None,
                                 Cleaned(Some(e.movement.grain.location)), Some(o), None))
  {
    hide Trim, Upper, Cleaned;
    UpperFixed("REVERSAL");
    NamesAreRead(Reversal);
  }

  /** The contra-entry as it comes out of the preparation; it lands on the same balance while the catalogue stays. */
  lemma {:induction false} ContraIs(e: Entry, o: nat, now: int, cat: Catalogue)
    requires SoundEntry(e) && Prepared([ContraLine(e, o)], true, None, now, cat).Ok?
    ensures var r := Prepared([ContraLine(e, o)], true, None, now, cat).value;
            && |r| == 1 && SoundEntry(r[0]) && IsContra(r[0]) && r[0].meta == Some(o)
            && r[0].movement.quantity == -e.movement.quantity && r[0].movement.cls == e.movement.cls
            && (r[0].movement.grain == e.movement.grain <==> KeepsPlace(e, cat))
  {
    hide ValidateLine, Trim, Upper, Resolve;
    PreparedOne(ContraLine(e, o), now, cat);
    ContraChecks(e, o);
    ContraResolves(e, o, now, cat);
  }

  lemma {:induction false} ContraResolves(e: Entry, o: nat, now: int, cat: Catalogue)
    ensures var c := Checked(Reversal, e.movement.cls, -e.movement.quantity, Trim(e.movement.grain.sku), None, None,
                             Cleaned(Some(e.movement.grain.location)), Some(o), None);
            var r := Resolve(c, now, cat);
            r.Ok? ==> && r.value.movement.kind == Reversal && r.value.meta == Some(o) && r.value.before == None
                      && r.value.movement.quantity == -e.movement.quantity && r.value.movement.cls == e.movement.cls
                      && (r.value.movement.grain == e.movement.grain <==> KeepsPlace(e, cat))
  {
    hide Trim, Upper;
    assert Upper(Trim(e.movement.grain.location)) == "" <==> Trim(e.movement.grain.location) == "";
  }

  /** The callers' claims stand when one of them has its contra-entry in. */
  lemma {:induction false} CallersStand(s: Ledger, p: nat, t: Ledger)
    requires CallersOk(s) && p in s.callers && |s.marks| == |s.entries| <= |t.entries| && |t.marks| == |t.entries|
    requires forall i :: 0 <= i < |s.entries| ==> t.entries[i] == s.entries[i] && t.marks[i] == s.marks[i]
    requires var o := s.callers[p].original;
             && t.callers == s.callers[p := Stamping(o, |s.entries|)]
             && forall c, x :: Cancels(t.entries, c, x) ==> Cancels(s.entries, c, x) || x == o
    ensures CallersOk(t)
  {
    hide IsContra, Cancels;
    forall q | q in t.callers ensures MarkedPending(t, t.callers[q].original) {
      assert MarkedPending(s, s.callers[q].original);
    }
  }

  lemma {:induction false} EnteringContra(s: Ledger, p: nat, key: string, e: Entry)
    requires Inv(s) && p in s.callers && s.callers[p].Claimed? && SoundEntry(e) && IsContra(e)
    requires var o := s.callers[p].original;
             && e.meta == Some(o) && e.movement.quantity == -s.entries[o].movement.quantity
             && e.movement.cls == s.entries[o].movement.cls
    ensures var o := s.callers[p].original;
            Inv(Entering(s, key, [e]).(callers := s.callers[p := Stamping(o, |s.entries|)]))
  {
    hide SoundEntry, Trim, Entering;
    var o := s.callers[p].original;
    assert MarkedPending(s, o);
    EnteringExtends(s, key, [e]);
    var t := Entering(s, key, [e]).(callers := s.callers[p := Stamping(o, |s.entries|)]);
    forall c, x ensures Cancels(t.entries, c, x) <==> Cancels(s.entries, c, x) || (c == |s.entries| && x == o) {}
    CallersStand(s, p, t);
    hide CallersOk;
  }

  lemma {:induction false} ContraKeeps(s: Ledger, p: nat, key: string, now: int, cat: Catalogue)
    requires Inv(s)
    ensures Inv(Next(s, Contra(p, key, now, cat)))
  {
    hide SoundEntry, Trim, Entering, Prepared, Released;
    if p in s.callers && s.callers[p].Claimed? {
      var o := s.callers[p].original;
      ReleasedKeeps(s, p);
      assert MarkedPending(s, o);
      var r := Prepared([ContraLine(s.entries[o], o)], true, None, now, cat);
      if r.Ok? {
        ContraIs(s.entries[o], o, now, cat);
        EnteringContra(s, p, key, r.value[0]);
        assert r.value == [r.value[0]];
      }
    }
  }

  lemma {:induction false} StepKeeps(s: Ledger, step: Step)
    requires Inv(s)
    ensures Inv(Next(s, step))
  {
    hide Inv, Prepared, Entering, Released, Unclaimed, SoundEntry;
    match step
    case Post(key, lines, effective, now, cat) =>
      PreparedIsSound(lines, false, effective, now, cat);
      var r := Prepared(lines, false, effective, now, cat);
      if r.Ok? { EnteringPlain(s, key, r.value); }
    case Claim(p, o) => ClaimKeeps(s, p, o);
    case Contra(p, key, now, cat) => ContraKeeps(s, p, key, now, cat);
    case Refuse(p) => if p in s.callers && s.callers[p].Claimed? { ReleasedKeeps(s, p); }
    case Stamp(p) => StampKeeps(s, p);
    case Crash(p) => CrashKeeps(s, p);
  }

  /**
   * In every run, however the callers interleave or stop: a reversal takes back an earlier movement
   * that is no reversal itself, in its class and with the opposite quantity; nothing is taken back
   * twice; and every before/after pair on file adds up.
   */
  lemma {:induction false} EveryRunIsPaired(steps: seq<Step>)
    ensures Inv(Run(steps))
  {
    if steps != [] {
      EveryRunIsPaired(steps[..|steps| - 1]);
      StepKeeps(Run(steps[..|steps| - 1]), steps[|steps| - 1]);
    }
  }

  // ---------------------------------------------------------------------------------------
  // Balances
  // ---------------------------------------------------------------------------------------

  function Movements(entries: seq<Entry>): seq<Movement> {
    if entries == [] then [] else Movements(entries[..|entries| - 1]) + [entries[|entries| - 1].movement]
  }

  function UnitsOf(e: Entry, g: Grain, cls: MovementClass): int {
    if e.movement.grain == g && e.movement.cls == cls then e.movement.quantity else 0
  }

  /** The units of the movements that are neither reversals nor among those taken back. */
  function Standing(entries: seq<Entry>, taken: set<int>, g: Grain, cls: MovementClass): int {
    if entries == [] then 0
    else
      var n := |entries| - 1;
      Standing(entries[..n], taken, g, cls) +
      if IsContra(entries[n]) || n in taken then 0 else UnitsOf(entries[n], g, cls)
  }

  /** The movements a reversal on file points at. */
  function Taken(entries: seq<Entry>): set<int> {
    if entries == [] then {}
    else
      var e := entries[|entries| - 1];
      Taken(entries[..|entries| - 1]) + if IsContra(e) && e.meta.Some? then {e.meta.value} else {}
  }

  lemma {:induction false} TakenIs(entries: seq<Entry>, o: int)
    ensures o in Taken(entries) <==> HasContra(entries, o)
  {
    hide IsContra;
    if entries != [] {
      var n := |entries| - 1;
      TakenIs(entries[..n], o);
      assert forall c :: Cancels(entries[..n], c, o) <==> c < n && Cancels(entries, c, o);
      if HasContra(entries, o) {
        var c :| Cancels(entries, c, o);
        assert c == n || Cancels(entries[..n], c, o);
      }
      if HasContra(entries[..n], o) {
        var c :| Cancels(entries[..n], c, o);
        assert Cancels(entries, c, o);
      }
      assert Cancels(entries, n, o) <==> IsContra(entries[n]) && entries[n].meta == Some(o) && o >= 0;
    }
  }

  lemma {:induction false} StandingWithout(entries: seq<Entry>, taken: set<int>, o: nat, g: Grain, cls: MovementClass)
    requires o !in taken
    ensures Standing(entries, taken + {o}, g, cls) == Standing(entries, taken, g, cls)
            - if o < |entries| && !IsContra(entries[o]) then UnitsOf(entries[o], g, cls) else 0
  {
    hide IsContra, UnitsOf;
    if entries != [] {
      StandingWithout(entries[..|entries| - 1], taken, o, g, cls);
    }
  }

  lemma {:induction false} StandingSame(entries: seq<Entry>, taken: set<int>, other: set<int>, g: Grain, cls: MovementClass)
    requires forall i :: 0 <= i < |entries| && !IsContra(entries[i]) ==> (i in taken <==> i in other)
    ensures Standing(entries, taken, g, cls) == Standing(entries, other, g, cls)
  {
    hide IsContra, UnitsOf;
    if entries != [] {
      var n := |entries| - 1;
      assert forall i :: 0 <= i < n ==> entries[..n][i] == entries[i];
      StandingSame(entries[..n], taken, other, g, cls);
    }
  }

  ghost predicate SamePlace(entries: seq<Entry>) {
    forall c, o :: Cancels(entries, c, o) && o < |entries| ==> entries[c].movement.grain == entries[o].movement.grain
  }

  ghost predicate Paired(entries: seq<Entry>) {
    && (forall c :: 0 <= c < |entries| && IsContra(entries[c]) ==> entries[c].meta.Some?)
    && (forall c, o :: Cancels(entries, c, o) ==>
          && o < c && !IsContra(entries[o]) && entries[c].movement.quantity == -entries[o].movement.quantity
          && entries[c].movement.cls == entries[o].movement.cls)
    && (forall c, d, o :: Cancels(entries, c, o) && Cancels(entries, d, o) ==> c == d)
  }

  lemma {:induction false} PairedPrefix(entries: seq<Entry>, n: nat)
    requires Paired(entries) && SamePlace(entries) && n <= |entries|
    ensures Paired(entries[..n]) && SamePlace(entries[..n])
  {
    hide IsContra;
    var front := entries[..n];
    assert forall i :: 0 <= i < n ==> front[i] == entries[i];
    assert forall c, o :: Cancels(front, c, o) ==> Cancels(entries, c, o) by {
      forall c, o | Cancels(front, c, o) ensures Cancels(entries, c, o) {}
    }
  }

  /** The sum over the whole ledger is the sum over what stands. */
  lemma {:induction false} LedgerIsWhatStands(entries: seq<Entry>, g: Grain, cls: MovementClass)
    requires Paired(entries) && SamePlace(entries)
    ensures Units(Movements(entries), g, cls) == Standing(entries, Taken(entries), g, cls)
  {
    hide IsContra;
    if entries != [] {
      var n := |entries| - 1;
      var e, front := entries[n], entries[..n];
      PairedPrefix(entries, n);
      LedgerIsWhatStands(front, g, cls);
      assert Movements(entries)[..n] == Movements(front) && Movements(entries)[n] == e.movement by {
        MovementsLength(front);
      }
      if IsContra(e) {
        var o := e.meta.value;
        assert Cancels(entries, n, o);
        TakenIs(front, o);
        assert !HasContra(front, o) by { NoEarlierContra(entries, o); }
        StandingWithout(front, Taken(front), o, g, cls);
      } else {
        TakenIs(front, n);
        assert !HasContra(front, n) by { NothingAhead(front, n); }
        assert Taken(entries) == Taken(front);
      }
    }
  }

  lemma {:induction false} MovementsLength(entries: seq<Entry>)
    ensures |Movements(entries)| == |entries|
  {
    if entries != [] {
      MovementsLength(entries[..|entries| - 1]);
    }
  }

  lemma {:induction false} NoEarlierContra(entries: seq<Entry>, o: int)
    requires entries != [] && Paired(entries) && Cancels(entries, |entries| - 1, o)
    ensures !HasContra(entries[..|entries| - 1], o)
  {
    hide IsContra;
    var front := entries[..|entries| - 1];
    forall c ensures !Cancels(front, c, o) {
      assert Cancels(front, c, o) ==> Cancels(entries, c, o);
    }
  }

  lemma {:induction false} NothingAhead(front: seq<Entry>, n: int)
    requires Paired(front) && n >= |front|
    ensures !HasContra(front, n)
  {
    hide IsContra;
  }

  // ---------------------------------------------------------------------------------------
  // Runs whose keys are fresh
  // ---------------------------------------------------------------------------------------

  ghost predicate PlaceKept(s: Ledger, step: Step) {
    step.Contra? && step.p in s.callers && s.callers[step.p].original < |s.entries| ==>
      KeepsPlace(s.entries[s.callers[step.p].original], step.cat)
  }

  ghost predicate KeyFresh(s: Ledger, step: Step) {
    step.Contra? ==> Trim(step.key) !in s.batches
  }

  ghost predicate PlacesKept(steps: seq<Step>) {
    steps == [] || (PlacesKept(steps[..|steps| - 1]) && PlaceKept(Run(steps[..|steps| - 1]), steps[|steps| - 1]))
  }

  ghost predicate KeysFresh(steps: seq<Step>) {
    steps == [] || (KeysFresh(steps[..|steps| - 1]) && KeyFresh(Run(steps[..|steps| - 1]), steps[|steps| - 1]))
  }

  /** A stamp names the contra-entry that took the movement back. */
  ghost predicate StampsTruthful(s: Ledger) {
    && (forall o :: 0 <= o < |s.marks| && s.marks[o].By? ==> Cancels(s.entries, s.marks[o].contra, o))
    && (forall p :: p in s.callers && s.callers[p].Stamping? ==> Cancels(s.entries, s.callers[p].contra, s.callers[p].original))
  }

  lemma {:induction false} ClaimedIsSound(s: Ledger, p: nat)
    requires Inv(s) && p in s.callers
    ensures s.callers[p].original < |s.entries| && SoundEntry(s.entries[s.callers[p].original])
  {
    hide SoundEntry;
    assert MarkedPending(s, s.callers[p].original);
  }

  lemma {:induction false} PostContraSamePlace(s: Ledger, p: nat, key: string, now: int, cat: Catalogue)
    requires Inv(s) && SamePlace(s.entries) && p in s.callers && s.callers[p].Claimed?
    requires s.callers[p].original < |s.entries| && KeepsPlace(s.entries[s.callers[p].original], cat)
    ensures SamePlace(PostContra(s, p, s.callers[p].original, key, now, cat).entries)
  {
    hide Prepared, SoundEntry, Entering, Released, KeepsPlace, Inv, SamePlace, IsContra, ContraLine;
    var o := s.callers[p].original;
    ClaimedIsSound(s, p);
    ReleasedEntries(s, p, o);
    var r := Prepared([ContraLine(s.entries[o], o)], true, None, now, cat);
    if r.Ok? {
      ContraIs(s.entries[o], o, now, cat);
      assert r.value == [r.value[0]];
      ContraSamePlace(s, key, r.value[0], o);
    }
  }

  lemma {:induction false} StepSamePlace(s: Ledger, step: Step)
    requires Inv(s) && SamePlace(s.entries) && PlaceKept(s, step)
    ensures SamePlace(Next(s, step).entries)
  {
    hide Prepared, SoundEntry, Entering, Released, KeepsPlace, SamePlace, PostContra;
    match step
    case Post(key, lines, effective, now, cat) =>
      PreparedIsSound(lines, false, effective, now, cat);
      var r := Prepared(lines, false, effective, now, cat);
      if r.Ok? { PlainSamePlace(s, key, r.value); }
    case Contra(p, key, now, cat) =>
      if p in s.callers && s.callers[p].Claimed? {
        assert MarkedPending(s, s.callers[p].original);
        PostContraSamePlace(s, p, key, now, cat);
      }
    case Refuse(p) => if p in s.callers { ReleasedEntries(s, p, s.callers[p].original); }
    case Claim(_, _) =>
    case Stamp(_) =>
    case Crash(_) =>
  }

  lemma {:induction false} ReleasedEntries(s: Ledger, p: nat, o: nat)
    ensures Released(s, p, o).entries == s.entries && Released(s, p, o).batches == s.batches
  {
  }

  lemma {:induction false} PlainSamePlace(s: Ledger, key: string, es: seq<Entry>)
    requires Inv(s) && SamePlace(s.entries) && forall i :: 0 <= i < |es| ==> SoundEntry(es[i]) && !IsContra(es[i])
    ensures SamePlace(Entering(s, key, es).entries)
  {
    hide SoundEntry, IsContra, Entering;
    EnteringPlain(s, key, es);
    EnteringExtends(s, key, es);
  }

  lemma {:induction false} ContraSamePlace(s: Ledger, key: string, e: Entry, o: nat)
    requires Inv(s) && SamePlace(s.entries) && o < |s.entries| && e.meta == Some(o)
    requires e.movement.grain == s.entries[o].movement.grain
    ensures SamePlace(Entering(s, key, [e]).entries)
  {
    hide SoundEntry, Entering;
    EnteringExtends(s, key, [e]);
    var t := Entering(s, key, [e]);
    forall c, x | Cancels(t.entries, c, x) && x < |t.entries|
      ensures t.entries[c].movement.grain == t.entries[x].movement.grain
    {
      assert c < |s.entries| ==> Cancels(s.entries, c, x);
    }
  }

  lemma {:induction false} EnteringTruthful(s: Ledger, key: string, es: seq<Entry>)
    requires |s.marks| == |s.entries| && StampsTruthful(s)
    ensures StampsTruthful(Entering(s, key, es))
  {
    hide Entering, IsContra;
    EnteringExtends(s, key, es);
    EnteringCallers(s, key, es);
    var t := Entering(s, key, es);
    assert forall c, o :: Cancels(s.entries, c, o) ==> Cancels(t.entries, c, o);
  }

  lemma {:induction false} ReleasedTruthful(s: Ledger, p: nat, o: nat)
    requires StampsTruthful(s)
    ensures StampsTruthful(Released(s, p, o))
  {
    hide Cancels;
  }

  lemma {:induction false} ContraTruthful(s: Ledger, p: nat, key: string, now: int, cat: Catalogue)
    requires Inv(s) && StampsTruthful(s) && Trim(key) !in s.batches && p in s.callers && s.callers[p].Claimed?
    ensures StampsTruthful(PostContra(s, p, s.callers[p].original, key, now, cat))
  {
    hide Prepared, SoundEntry, Entering, Trim, Released, StampsTruthful, KeepsPlace;
    var o := s.callers[p].original;
    assert MarkedPending(s, o);
    ReleasedTruthful(s, p, o);
    var r := Prepared([ContraLine(s.entries[o], o)], true, None, now, cat);
    if r.Ok? {
      ContraIs(s.entries[o], o, now, cat);
      EnteringTruthful(s, key, r.value);
      EnteringExtends(s, key, r.value);
      EnteringCallers(s, key, r.value);
      var t := Entering(s, key, r.value);
      assert Cancels(t.entries, |s.entries|, o);
      StampingTruthful(t, p, o, |s.entries|);
    }
  }

  lemma {:induction false} StampingTruthful(t: Ledger, p: nat, o: nat, c: nat)
    requires StampsTruthful(t) && Cancels(t.entries, c, o)
    ensures StampsTruthful(t.(callers := t.callers[p := Stamping(o, c)]))
  {
    hide Cancels;
  }

  lemma {:induction false} StepTruthful(s: Ledger, step: Step)
    requires Inv(s) && StampsTruthful(s) && KeyFresh(s, step)
    ensures StampsTruthful(Next(s, step))
  {
    hide Prepared, SoundEntry, Entering, Trim, PostContra, Released, Cancels, IsContra;
    match step
    case Post(key, lines, effective, now, cat) =>
      var r := Prepared(lines, false, effective, now, cat);
      if r.Ok? { EnteringTruthful(s, key, r.value); }
    case Contra(p, key, now, cat) =>
      if p in s.callers && s.callers[p].Claimed? { ContraTruthful(s, p, key, now, cat); }
    case Refuse(p) =>
      if p in s.callers { ReleasedTruthful(s, p, s.callers[p].original); }
    case Claim(_, _) =>
    case Stamp(_) =>
    case Crash(_) =>
  }

  lemma {:induction false} RunSamePlace(steps: seq<Step>)
    requires PlacesKept(steps)
    ensures SamePlace(Run(steps).entries)
  {
    if steps != [] {
      hide SamePlace, Inv;
      RunSamePlace(steps[..|steps| - 1]);
      EveryRunIsPaired(steps[..|steps| - 1]);
      StepSamePlace(Run(steps[..|steps| - 1]), steps[|steps| - 1]);
    }
  }

  lemma {:induction false} RunTruthful(steps: seq<Step>)
    requires KeysFresh(steps)
    ensures StampsTruthful(Run(steps))
  {
    if steps != [] {
      hide StampsTruthful, Inv;
      RunTruthful(steps[..|steps| - 1]);
      EveryRunIsPaired(steps[..|steps| - 1]);
      StepTruthful(Run(steps[..|steps| - 1]), steps[|steps| - 1]);
    }
  }

  /** Movements whose `reversedBy` is set. */
  function Marked(s: Ledger): set<int> {
    set o | 0 <= o < |s.marks| && s.marks[o] != Free
  }

  /**
   * Reversal cancels. While the catalogue keeps every reversed movement's place, each balance is in
   * every state of every run the sum over the movements that are neither reversals nor taken back by
   * one. With no claim left pending, and no reversal posted under a key already used, those are the
   * movements whose `reversedBy` is null.
   */
  lemma {:induction false} ReversalCancels(steps: seq<Step>, g: Grain, cls: MovementClass)
    requires PlacesKept(steps)
    ensures var s := Run(steps);
            && Units(Movements(s.entries), g, cls) == Standing(s.entries, Taken(s.entries), g, cls)
            && (KeysFresh(steps) && Pending !in s.marks ==>
                  Units(Movements(s.entries), g, cls) == Standing(s.entries, Marked(s), g, cls))
  {
    var s := Run(steps);
    EveryRunIsPaired(steps);
    RunSamePlace(steps);
    LedgerIsWhatStands(s.entries, g, cls);
    if KeysFresh(steps) && Pending !in s.marks {
      RunTruthful(steps);
      MarkedIsTaken(s);
      StandingSame(s.entries, Taken(s.entries), Marked(s), g, cls);
    }
  }

  lemma {:induction false} MarkedIsTaken(s: Ledger)
    requires Inv(s) && StampsTruthful(s) && Pending !in s.marks
    ensures forall i :: 0 <= i < |s.entries| ==> (i in Taken(s.entries) <==> i in Marked(s))
  {
    hide SoundEntry, IsContra, Cancels, Taken;
    forall i | 0 <= i < |s.entries| ensures i in Taken(s.entries) <==> i in Marked(s) {
      TakenIs(s.entries, i);
      assert s.marks[i] in s.marks;
      if HasContra(s.entries, i) {
        var c :| Cancels(s.entries, c, i);
      }
    }
  }

  /**
   * A completed reversal takes effect exactly when its key is new: under a key already used the
   * posting is a replay, and the original is stamped as reversed with nothing to take it back.
   */
  lemma {:induction false} ReusedKeyStampsOnly(s: Ledger, p: nat, key: string, now: int, cat: Catalogue)
    requires Inv(s) && p in s.callers && s.callers[p].Claimed? && Trim(key) != ""
    requires Prepared([ContraLine(s.entries[s.callers[p].original], s.callers[p].original)], true, None, now, cat).Ok?
    ensures var o, t := s.callers[p].original, Next(Next(s, Contra(p, key, now, cat)), Stamp(p));
            && o < |t.marks| && t.marks[o].By?
            && (HasContra(t.entries, o) <==> Trim(key) !in s.batches)
            && (Trim(key) in s.batches ==> t.entries == s.entries)
  {
    hide Prepared, SoundEntry, Entering, Trim, Released;
    var o := s.callers[p].original;
    assert MarkedPending(s, o);
    var r := Prepared([ContraLine(s.entries[o], o)], true, None, now, cat);
    ContraIs(s.entries[o], o, now, cat);
    EnteringExtends(s, key, r.value);
    var t := Next(Next(s, Contra(p, key, now, cat)), Stamp(p));
    if Trim(key) !in s.batches {
      assert Cancels(t.entries, |s.entries|, o);
    } else {
      forall c ensures !Cancels(t.entries, c, o) {}
    }
  }

  /** A posting of its own enters whole when the ledger takes it, and otherwise changes nothing. */
  lemma {:induction false} PostEntersExactlyWhen(s: Ledger, key: string, lines: seq<Request>, effective: Option<Moment>, now: int,
                                                 cat: Catalogue)
    requires |s.marks| == |s.entries|
    ensures var t, r := Next(s, Post(key, lines, effective, now, cat)), Prepared(lines, false, effective, now, cat);
            && (Trim(key) != "" && 1 <= |lines| <= 5000 && Trim(key) !in s.batches && r.Ok? ==>
                  && t.entries == s.entries + r.value && t.batches == s.batches[Trim(key) := |s.entries|] && t.callers == s.callers
                  && |t.marks| == |t.entries| && forall i :: |s.entries| <= i < |t.marks| ==> t.marks[i] == Free)
            && (Trim(key) == "" || lines == [] || |lines| >= 5001 || Trim(key) in s.batches || r.Err? ==> t == s)
  {
    hide Prepared, Trim;
  }

  /**
   * A reversal left alone, under a new key and with the movement's place still in use, appends the opposite movement
   * at that place and stamps the original with it.
   */
  lemma {:induction false} AloneTakesBack(s: Ledger, p: nat, o: nat, key: string, now: int, cat: Catalogue)
    requires Inv(s) && p !in s.callers && o < |s.entries| && !IsContra(s.entries[o]) && s.marks[o] == Free
    requires Trim(key) != "" && Trim(key) !in s.batches
    requires var e := s.entries[o]; var at := e.movement.grain.location;
             KeepsPlace(e, cat) && e.movement.grain.sku != "" && at in cat.active && cat.active[at]
    ensures var e, t, n := s.entries[o], Next(Next(Next(s, Claim(p, o)), Contra(p, key, now, cat)), Stamp(p)), |s.entries|;
            && |t.entries| == n + 1 && t.entries[..n] == s.entries && IsContra(t.entries[n]) && t.entries[n].meta == Some(o)
            && t.entries[n].movement.grain == e.movement.grain && t.entries[n].movement.cls == e.movement.cls
            && t.entries[n].movement.quantity == -e.movement.quantity
            && t.marks == s.marks[o := By(n)] + [Free] && t.callers == s.callers && t.batches == s.batches[Trim(key) := n]
  {
    hide Trim, SoundEntry, KeepsPlace, IsContra, Next;
    var e, n := s.entries[o], |s.entries|;
    var posted := Next(Next(s, Claim(p, o)), Contra(p, key, now, cat));
    ClaimIsPosted(s, p, o, key, now, cat);
    StampedBy(posted, p, o, n);
    assert posted.entries[..n] == s.entries;
    assert Next(posted, Stamp(p)).marks == s.marks[o := By(n)] + [Free];
  }

  lemma {:induction false} StampedBy(s: Ledger, p: nat, o: nat, c: nat)
    requires p in s.callers && s.callers[p] == Stamping(o, c) && o < |s.marks|
    ensures Next(s, Stamp(p)) == Unclaimed(s, p).(marks := s.marks[o := By(c)])
  {
  }

  lemma {:induction false} ClaimIsPosted(s: Ledger, p: nat, o: nat, key: string, now: int, cat: Catalogue)
    requires Inv(s) && p !in s.callers && o < |s.entries| && !IsContra(s.entries[o]) && s.marks[o] == Free
    requires Trim(key) != "" && Trim(key) !in s.batches
    requires var e := s.entries[o]; var at := e.movement.grain.location;
             KeepsPlace(e, cat) && e.movement.grain.sku != "" && at in cat.active && cat.active[at]
    ensures var e, t, n := s.entries[o], Next(Next(s, Claim(p, o)), Contra(p, key, now, cat)), |s.entries|;
            && |t.entries| == n + 1 && t.entries[..n] == s.entries && IsContra(t.entries[n]) && t.entries[n].meta == Some(o)
            && t.entries[n].movement.grain == e.movement.grain && t.entries[n].movement.cls == e.movement.cls
            && t.entries[n].movement.quantity == -e.movement.quantity
            && t.marks == s.marks[o := Pending] + [Free] && t.callers == s.callers[p := Stamping(o, n)]
            && t.batches == s.batches[Trim(key) := n]
  {
    hide Prepared, Trim, ContraLine, SoundEntry, KeepsPlace, IsContra;
    var e := s.entries[o];
    var claimed := Next(s, Claim(p, o));
    ReleaseUndoesClaim(s, p, o);
    ContraIsTaken(e, o, now, cat);
    ContraIs(e, o, now, cat);
    EnteringExtends(claimed, key, Prepared([ContraLine(e, o)], true, None, now, cat).value);
  }

  /** A movement whose place is still in use can be taken back. */
  lemma {:induction false} ContraIsTaken(e: Entry, o: nat, now: int, cat: Catalogue)
    requires SoundEntry(e) && KeepsPlace(e, cat) && e.movement.grain.sku != ""
    requires var at := e.movement.grain.location; at in cat.active && cat.active[at]
    ensures Prepared([ContraLine(e, o)], true, None, now, cat).Ok?
  {
    hide Trim, Upper, ValidateLine, Resolve, Each;
    var line := ContraLine(e, o);
    ContraChecks(e, o);
    var c := ValidateLine(line, true);
    assert Checks([line], true) == [c];
    EachOne(c);
    CheckedSays(line, true);
    assert Dates([c.value], now, now) == [Result.Ok(now)];
    EachOne(Result.Ok(now));
    assert Resolutions([c.value], [now], cat) == [Resolve(c.value, now, cat)];
    EachOne(Resolve(c.value, now, cat));
    ResolvedExactlyWhen(c.value, now, cat);
    PlaceIsNamed(e.movement.grain.location);
  }

  lemma {:induction false} PlaceIsNamed(location: string)
    ensures location == "" || Trim(location) == "" ==> Cleaned(Some(location)).GetOr("") == ""
    ensures location != "" && IsNormal(location) ==> Cleaned(Some(location)) == Some(location)
  {
    hide Trim, Upper;
  }

  lemma {:induction false} ReleaseUndoesClaim(s: Ledger, p: nat, o: nat)
    requires p !in s.callers && o < |s.entries| == |s.marks| && !IsContra(s.entries[o]) && s.marks[o] == Free
    ensures Next(s, Claim(p, o)) == s.(marks := s.marks[o := Pending], callers := s.callers[p := Claimed(o)])
    ensures Released(Next(s, Claim(p, o)), p, o) == s
  {
    var t := Next(s, Claim(p, o));
    assert Unclaimed(t, p).callers == s.callers;
    assert t.marks[o := Free] == s.marks;
  }

  /** A reversal that is refused, for whatever reason, leaves everything as it was, so it can be tried again. */
  lemma {:induction false} RefusalRestores(s: Ledger, p: nat, o: nat, key: string, now: int, cat: Catalogue)
    requires p !in s.callers && o < |s.entries| == |s.marks| && !IsContra(s.entries[o]) && s.marks[o] == Free
    ensures Next(Next(s, Claim(p, o)), Refuse(p)) == s
    ensures Trim(key) == ""
            || (Trim(key) !in s.batches && Prepared([ContraLine(s.entries[o], o)], true, None, now, cat).Err?)
            ==> Next(Next(s, Claim(p, o)), Contra(p, key, now, cat)) == s
  {
    hide Released, Prepared, ContraLine, Trim;
    ReleaseUndoesClaim(s, p, o);
  }

  function Continued(s: Ledger, steps: seq<Step>): Ledger {
    if steps == [] then s else Next(Continued(s, steps[..|steps| - 1]), steps[|steps| - 1])
  }

  /** What continues a run is a run, and goes on from where it stands. */
  lemma {:induction false} RunContinues(steps: seq<Step>, more: seq<Step>, step: Step)
    ensures Run(steps + more) == Continued(Run(steps), more) && Run(steps + [step]) == Next(Run(steps), step)
    decreases |more|
  {
    hide Next;
    assert (steps + [step])[..|steps|] == steps;
    if more == [] {
      assert steps + more == steps;
    } else {
      var n := |more| - 1;
      RunContinues(steps, more[..n], step);
      assert (steps + more)[..|steps + more| - 1] == steps + more[..n];
    }
  }

  /** A claim whose caller stopped. */
  ghost predicate Abandoned(s: Ledger, o: nat) {
    && o < |s.marks| && s.marks[o] == Pending
    && forall p :: p in s.callers ==> s.callers[p].original != o
  }

  lemma {:induction false} StepAbandoned(s: Ledger, step: Step, o: nat)
    requires |s.marks| == |s.entries| && Abandoned(s, o)
    ensures |Next(s, step).marks| == |Next(s, step).entries| && Abandoned(Next(s, step), o)
  {
    hide Prepared, Trim, ContraLine;
  }

  /** Nothing in the service ever frees it: the movement can neither be reversed nor is it shown as free again. */
  lemma {:induction false} AbandonedForever(s: Ledger, steps: seq<Step>, o: nat)
    requires |s.marks| == |s.entries| && Abandoned(s, o)
    ensures var t := Continued(s, steps);
            |t.marks| == |t.entries| && Abandoned(t, o) && forall p :: Next(t, Claim(p, o)) == t
  {
    if steps != [] {
      AbandonedForever(s, steps[..|steps| - 1], o);
      hide Next, Abandoned;
      StepAbandoned(Continued(s, steps[..|steps| - 1]), steps[|steps| - 1], o);
    }
    StaysClaimed(Continued(s, steps), o);
  }

  lemma {:induction false} StaysClaimed(t: Ledger, o: nat)
    ensures Abandoned(t, o) ==> forall p :: Next(t, Claim(p, o)) == t
  {
  }

  /** A caller that stops between claiming and posting leaves exactly that. */
  lemma {:induction false} StoppingAbandons(s: Ledger, p: nat, o: nat)
    requires Inv(s) && p !in s.callers && o < |s.entries| && !IsContra(s.entries[o]) && s.marks[o] == Free
    ensures Abandoned(Next(Next(s, Claim(p, o)), Crash(p)), o)
  {
    hide SoundEntry, Cancels;
    assert forall q :: q in s.callers ==> MarkedPending(s, s.callers[q].original);
  }
}
