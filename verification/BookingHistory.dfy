/**
 * What really happened to a booking, line by line, and what the audit replay makes of it.
 *
 * A line keeps its identity (its position) through every re-code. The replay of
 * backend/utils/bookingJourney.js only sees codes; `Tracks` says that it nevertheless knows the
 * booking-stage quantity and code of every line.
 */
module BookingHistory {
  import opened Options
  import opened Sums
  import opened BookingReplay

  datatype Fate = Live | DroppedByDesk | DroppedByCustomer

  /**
   * `baseline`: the quantity the customer last asked for. `home`: the code the line was booked under,
   * or the customer last re-coded it to.
   */
  datatype Line = Line(sku: Sku, home: Sku, total: int, baseline: int, deskAdded: bool, fate: Fate) {
    /** What the Change column should say of a line that survives. */
    function TrueChange(): int {
      if deskAdded then total else total - baseline
    }

    function TrueKind(): LineType {
      if deskAdded then Added
      else if sku != home then Recoded
      else if total < baseline then Reduced
      else if total > baseline then Increased
      else Unchanged
    }

    /** Something about the line is not as the customer last asked for it. */
    predicate Differs() {
      deskAdded || sku != home || total != baseline
    }

    function TrueFromSku(): Option<Sku> {
      if !deskAdded && sku != home then Some(home) else None
    }

    predicate DroppedOffer() {
      fate == DroppedByDesk && !deskAdded
    }
  }

  /** A line whose code the report has to show: one that survives, or one the desk took from the customer. */
  predicate Counts(l: Line) {
    l.fate == Live || l.DroppedOffer()
  }

  /** `owner` remembers the last line to carry a code. */
  datatype History = History(lines: seq<Line>, owner: map<Sku, nat>)

  /** The quantities are what the line holds after the edit, confirmed and on indent. */
  datatype Edit =
    | AddLine(sku: Sku, qty: int)
    | DropLine(at: nat)
    | RecodeLine(at: nat, to: Sku, qty: int)
    | SetQuantity(at: nat, qty: int, split: bool)

  datatype Step = Step(actor: Actor, edit: Edit)

  predicate IsLive(h: History, at: nat) {
    at < |h.lines| && h.lines[at].fate == Live
  }

  predicate CanApply(h: History, s: Step) {
    match s.edit
    case AddLine(sku, _) => sku != ""
    case DropLine(at) => IsLive(h, at)
    case RecodeLine(at, to, _) => IsLive(h, at) && to != ""
    case SetQuantity(at, _, _) => IsLive(h, at)
  }

  /** No line but this one survives under the code. */
  predicate NoneLive(h: History, sku: Sku, but: nat) {
    forall j :: 0 <= j < |h.lines| && j != but && h.lines[j].fate == Live ==> h.lines[j].sku != sku
  }

  /** No line the desk took from the customer is filed under the code. */
  predicate NoneFiled(h: History, sku: Sku) {
    forall j :: 0 <= j < |h.lines| && h.lines[j].DroppedOffer() ==> h.lines[j].sku != sku
  }

  /** The line an edit is about, and the code it puts the line under. */
  function LineAt(h: History, e: Edit): nat {
    if e.AddLine? then |h.lines| else e.at
  }

  predicate TakesCode(e: Edit) {
    e.AddLine? || e.RecodeLine?
  }

  function CodeTaken(e: Edit): Sku
    requires TakesCode(e)
  {
    if e.AddLine? then e.sku else e.to
  }

  /**
   * The edit puts no line under a code that a surviving line carries, or under which a line taken from
   * the customer is filed. Codes nobody needs any more may be used again.
   */
  predicate CodeFree(h: History, s: Step) {
    TakesCode(s.edit) ==> NoneLive(h, CodeTaken(s.edit), LineAt(h, s.edit)) && NoneFiled(h, CodeTaken(s.edit))
  }

  function Apply(h: History, s: Step): History
    requires CanApply(h, s)
  {
    match s.edit
    case AddLine(sku, qty) =>
      var byDesk := s.actor == Desk;
      History(h.lines + [Line(sku, sku, qty, if byDesk then 0 else qty, byDesk, Live)],
              h.owner[sku := |h.lines|])
    case DropLine(at) =>
      var fate := if s.actor == Desk then DroppedByDesk else DroppedByCustomer;
      h.(lines := h.lines[at := h.lines[at].(fate := fate)])
    case RecodeLine(at, to, qty) =>
      var l := h.lines[at];
      var recoded := if s.actor == Desk then l.(sku := to, total := qty)
                     else l.(sku := to, home := to, total := qty, baseline := qty);
      History(h.lines[at := recoded], h.owner[to := at])
    case SetQuantity(at, qty, _) =>
      var l := h.lines[at];
      var edited := if s.actor == Desk then l.(total := qty) else l.(total := qty, baseline := qty);
      h.(lines := h.lines[at := edited])
  }

  /** The audit entry of an edit, with `recorded` as the quantity it says the line held before. */
  function LogAs(h: History, s: Step, recorded: int): Entry
    requires CanApply(h, s)
  {
    var before, none := Some(recorded), "";
    Entry(s.actor, match s.edit
      case AddLine(sku, qty) => Change(AddedLine, sku, none, none, Some(0), Some(qty))
      case DropLine(at) => Change(RemovedLine, h.lines[at].sku, none, none, before, Some(0))
      case RecodeLine(at, to, qty) => Change(RecodedLine, to, h.lines[at].sku, to, before, Some(qty))
      case SetQuantity(at, qty, split) =>
        Change(if split then QuantitySplit else QuantityEdit, h.lines[at].sku, none, none, before, Some(qty)))
  }

  function HeldBefore(h: History, s: Step): int
    requires CanApply(h, s)
  {
    if s.edit.AddLine? then 0 else h.lines[s.edit.at].total
  }

  /** A truthful entry records the quantity the line held at that moment. */
  function Log(h: History, s: Step): Entry
    requires CanApply(h, s)
  {
    LogAs(h, s, HeldBefore(h, s))
  }

  /**
   * An edit is about one line, which afterwards holds the quantity and carries the code it names; a customer's own
   * quantity, and code, is what the customer asks for from then on, and a desk's is not.
   */
  lemma {:induction false} EditHolds(h: History, s: Step)
    requires CanApply(h, s)
    ensures var t, at := Apply(h, s), LineAt(h, s.edit);
            && at < |t.lines| == |h.lines| + (if s.edit.AddLine? then 1 else 0)
            && (forall j :: 0 <= j < |h.lines| && j != at ==> t.lines[j] == h.lines[j])
            && var l := t.lines[at];
               && (!s.edit.DropLine? ==> l.fate == Live && l.total == s.edit.qty)
               && (s.edit.DropLine? ==> l == h.lines[at].(fate := if s.actor == Desk then DroppedByDesk else DroppedByCustomer))
               && (TakesCode(s.edit) ==> l.sku == CodeTaken(s.edit))
               && (s.edit.SetQuantity? ==> l.sku == h.lines[at].sku && l.home == h.lines[at].home)
               && (s.actor == Customer && !s.edit.DropLine? ==> l.baseline == s.edit.qty)
               && (s.actor == Customer && TakesCode(s.edit) ==> l.home == l.sku)
               && (s.edit.AddLine? ==> l.home == l.sku && (l.deskAdded <==> s.actor == Desk) && (l.deskAdded ==> l.baseline == 0))
               && (!s.edit.AddLine? ==> l.deskAdded == h.lines[at].deskAdded)
               && (s.actor == Desk && !s.edit.AddLine? ==> l.baseline == h.lines[at].baseline && l.home == h.lines[at].home)
  {
  }

  /** Its entry says what happened, to which code, and how much was held before and after. */
  lemma {:induction false} EntrySays(h: History, s: Step, recorded: int)
    requires CanApply(h, s)
    ensures var e, at := LogAs(h, s, recorded), LineAt(h, s.edit);
            && e.actor == s.actor
            && (e.change.kind == AddedLine <==> s.edit.AddLine?) && (e.change.kind == RemovedLine <==> s.edit.DropLine?)
            && (e.change.kind == RecodedLine <==> s.edit.RecodeLine?)
            && (e.change.kind == QuantitySplit <==> s.edit.SetQuantity? && s.edit.split)
            && (s.edit.DropLine? || s.edit.SetQuantity? ==> e.change.skuCode == h.lines[at].sku)
            && (s.edit.RecodeLine? ==> e.change.fromSku == h.lines[at].sku && e.change.toSku == s.edit.to)
            && (s.edit.AddLine? ==> e.change.skuCode == s.edit.sku)
            && e.change.fromQty == Some(if s.edit.AddLine? then 0 else recorded)
            && e.change.toQty == Some(if s.edit.DropLine? then 0 else s.edit.qty)
            && (recorded == HeldBefore(h, s) && !s.edit.AddLine? ==> e.change.fromQty == Some(h.lines[at].total))
  {
  }

  // ---------------------------------------------------------------------------------------
  // What the replay has to know
  // ---------------------------------------------------------------------------------------

  ghost predicate OwnsItsCode(h: History, j: nat)
    requires j < |h.lines|
  {
    h.lines[j].sku in h.owner && h.owner[h.lines[j].sku] == j && h.lines[j].sku != "" && h.lines[j].home != ""
  }

  ghost predicate Sound(h: History) {
    && (forall j :: 0 <= j < |h.lines| && Counts(h.lines[j]) ==> OwnsItsCode(h, j))
    && (forall k :: k in h.owner ==> h.owner[k] < |h.lines|)
  }

  ghost predicate KnowsLine(l: Line, origin: map<Sku, Origin>) {
    if l.deskAdded then l.sku in origin && origin[l.sku].addedByDesk
    else if l.sku in origin then
      && !origin[l.sku].addedByDesk
      && origin[l.sku].qty == l.baseline
      && (origin[l.sku].fromSku == Some(l.home) || (origin[l.sku].fromSku == None && l.home == l.sku))
    else l.total == l.baseline && l.home == l.sku
  }

  ghost predicate RemovalOf(h: History, x: Removal)
    requires Sound(h)
  {
    x.skuCode in h.owner && var l := h.lines[h.owner[x.skuCode]];
    l.DroppedOffer() && l.sku == x.skuCode && l.baseline == x.qty
  }

  ghost predicate Listed(removed: seq<Removal>, sku: Sku) {
    IndexOf(removed, sku) < |removed|
  }

  ghost predicate KnowsRemovals(h: History, removed: seq<Removal>)
    requires Sound(h)
  {
    && ListedOnce(removed)
    && (forall i :: 0 <= i < |removed| ==> RemovalOf(h, removed[i]))
    && (forall j :: 0 <= j < |h.lines| && h.lines[j].DroppedOffer() ==> Listed(removed, h.lines[j].sku))
  }

  ghost predicate Tracks(h: History, st: Replayed) {
    && Sound(h)
    && st.origin.Keys <= h.owner.Keys && (forall k :: k in st.origin ==> st.origin[k].fromSku != Some(""))
    && (forall j :: 0 <= j < |h.lines| && h.lines[j].fate == Live ==> KnowsLine(h.lines[j], st.origin))
    && KnowsRemovals(h, st.removed)
  }

  /**
   * What a customer's re-code finds stored under the new code. It keeps who added the line and the
   * code the line came from, which were never this line's own unless nothing else was stored there.
   */
  predicate Inherits(st: Replayed, to: Sku, deskAdded: bool) {
    var stored := if to in st.origin then st.origin[to] else Origin(0, false, None);
    stored.addedByDesk == deskAdded && (deskAdded || stored.fromSku == None || stored.fromSku == Some(to))
  }

  /** A customer's addition or re-code does not inherit an entry of another origin. */
  predicate Traceable(h: History, st: Replayed, s: Step)
    requires CanApply(h, s)
  {
    s.actor == Customer && TakesCode(s.edit) ==>
      Inherits(st, CodeTaken(s.edit), s.edit.RecodeLine? && h.lines[s.edit.at].deskAdded)
  }

  /** The edits the replay can follow. */
  predicate Followed(h: History, st: Replayed, s: Step)
    requires CanApply(h, s)
  {
    CodeFree(h, s) && Traceable(h, st, s)
  }

  // ---------------------------------------------------------------------------------------
  // One edit
  // ---------------------------------------------------------------------------------------

  lemma {:induction false} ListedIf(removed: seq<Removal>, sku: Sku, i: nat)
    requires i < |removed| && removed[i].skuCode == sku
    ensures Listed(removed, sku)
  {
  }

  lemma {:induction false} ListedThrough(removed: seq<Removal>, sku: Sku, x: Removal)
    requires Listed(removed, sku)
    ensures Listed(removed + [x], sku)
  {
    ListedIf(removed + [x], sku, IndexOf(removed, sku));
  }

  lemma {:induction false} SoundAfter(h: History, s: Step)
    requires Sound(h) && CanApply(h, s)
    ensures Sound(Apply(h, s)) <==> CodeFree(h, s)
  {
    var h' := Apply(h, s);
    var at := LineAt(h, s.edit);
    if CodeFree(h, s) {
      forall j | 0 <= j < |h'.lines| && Counts(h'.lines[j]) ensures OwnsItsCode(h', j) {
        if j < |h.lines| {
          assert OwnsItsCode(h, j);
        }
      }
    } else {
      var j :| 0 <= j < |h.lines| && j != at && Counts(h.lines[j]) && h.lines[j].sku == CodeTaken(s.edit);
      assert h'.lines[j] == h.lines[j] && !OwnsItsCode(h', j);
    }
  }

  /** Removals survive any edit that leaves the dropped offers alone. */
  lemma {:induction false} RemovalsKept(h: History, s: Step, removed: seq<Removal>)
    requires Sound(h) && CanApply(h, s) && CodeFree(h, s) && Sound(Apply(h, s)) && KnowsRemovals(h, removed)
    requires s.edit.DropLine? && s.actor == Desk ==> h.lines[s.edit.at].deskAdded
    ensures KnowsRemovals(Apply(h, s), removed)
  {
    var h' := Apply(h, s);
    forall i | 0 <= i < |removed| ensures RemovalOf(h', removed[i]) {
      assert RemovalOf(h, removed[i]);
    }
    forall j | 0 <= j < |h'.lines| && h'.lines[j].DroppedOffer() ensures Listed(removed, h'.lines[j].sku) {
      assert j < |h.lines| && h'.lines[j] == h.lines[j];
    }
  }

  lemma {:induction false} LiveCodeNotListed(h: History, at: nat, removed: seq<Removal>)
    requires Sound(h) && IsLive(h, at) && KnowsRemovals(h, removed)
    ensures !Listed(removed, h.lines[at].sku)
  {
    var i := IndexOf(removed, h.lines[at].sku);
    assert OwnsItsCode(h, at);
    assert i < |removed| ==> RemovalOf(h, removed[i]);
  }

  lemma {:induction false} RemovalAdded(h: History, at: nat, removed: seq<Removal>)
    requires Sound(h) && IsLive(h, at) && KnowsRemovals(h, removed) && !h.lines[at].deskAdded
    requires Sound(Apply(h, Step(Desk, DropLine(at))))
    ensures var l := h.lines[at];
            KnowsRemovals(Apply(h, Step(Desk, DropLine(at))), removed + [Removal(l.sku, l.baseline)])
  {
    var h', l := Apply(h, Step(Desk, DropLine(at))), h.lines[at];
    var after := removed + [Removal(l.sku, l.baseline)];
    LiveCodeNotListed(h, at, removed);
    assert OwnsItsCode(h, at);
    forall i | 0 <= i < |after| ensures RemovalOf(h', after[i]) {
      if i < |removed| {
        assert RemovalOf(h, removed[i]);
      }
    }
    forall j | 0 <= j < |h'.lines| && h'.lines[j].DroppedOffer() ensures Listed(after, h'.lines[j].sku) {
      if j == at {
        ListedIf(after, l.sku, |removed|);
      } else {
        ListedThrough(removed, h'.lines[j].sku, Removal(l.sku, l.baseline));
      }
    }
  }

  lemma {:induction false} NothingRemoved(h: History, st: Replayed, s: Step)
    requires Tracks(h, st) && CanApply(h, s) && (TakesCode(s.edit) ==> NoneFiled(h, CodeTaken(s.edit)))
    requires s.edit.DropLine? && s.actor == Desk ==> h.lines[s.edit.at].deskAdded
    ensures ReplayEntry(st, Log(h, s)).removed == st.removed
  {
    if s.edit.AddLine? {
      var i := IndexOf(st.removed, s.edit.sku);
      assert i < |st.removed| ==> RemovalOf(h, st.removed[i]);
    }
    if s.edit.DropLine? {
      assert KnowsLine(h.lines[s.edit.at], st.origin);
    }
  }

  lemma {:induction false} OriginsNamed(h: History, st: Replayed, s: Step)
    requires Tracks(h, st) && CanApply(h, s)
    ensures var o := ReplayEntry(st, Log(h, s)).origin;
            o.Keys <= Apply(h, s).owner.Keys && forall k :: k in o ==> o[k].fromSku != Some("")
  {
    if !s.edit.AddLine? {
      assert OwnsItsCode(h, s.edit.at);
    }
  }

  lemma {:induction false} EditedLineKnown(h: History, st: Replayed, s: Step)
    requires Tracks(h, st) && CanApply(h, s) && !s.edit.DropLine?
    ensures KnowsLine(Apply(h, s).lines[LineAt(h, s.edit)], ReplayEntry(st, Log(h, s)).origin) <==> Traceable(h, st, s)
  {
    if !s.edit.AddLine? { assert OwnsItsCode(h, s.edit.at) && KnowsLine(h.lines[s.edit.at], st.origin); }
  }

  lemma {:induction false} OtherLineKnown(h: History, st: Replayed, s: Step, j: nat)
    requires Tracks(h, st) && CanApply(h, s) && IsLive(h, j) && j != LineAt(h, s.edit)
    requires TakesCode(s.edit) ==> h.lines[j].sku != CodeTaken(s.edit)
    ensures KnowsLine(Apply(h, s).lines[j], ReplayEntry(st, Log(h, s)).origin)
  {
    assert OwnsItsCode(h, j) && KnowsLine(h.lines[j], st.origin);
    if !s.edit.AddLine? {
      assert OwnsItsCode(h, s.edit.at);
    }
  }

  /**
   * A truthful edit keeps the replay in step with the history exactly when it takes no code that a
   * surviving or a removed line needs, and is no customer's re-code or addition under a code where
   * something of another origin is stored.
   */
  lemma {:induction false} StepTracks(h: History, st: Replayed, s: Step)
    requires Tracks(h, st) && CanApply(h, s)
    ensures Tracks(Apply(h, s), ReplayEntry(st, Log(h, s))) <==> Followed(h, st, s)
  {
    SoundAfter(h, s);
    var h', st' := Apply(h, s), ReplayEntry(st, Log(h, s));
    if CodeFree(h, s) {
      RemovalsFollow(h, st, s);
      OriginsNamed(h, st, s);
      hide ReplayEntry, KnowsLine, KnowsRemovals, Traceable, Log;
      if s.edit.DropLine? { NoCodeTaken(h, st, s); } else { EditedLineKnown(h, st, s); }
      forall j | 0 <= j < |h'.lines| && h'.lines[j].fate == Live && j != LineAt(h, s.edit) ensures KnowsLine(h'.lines[j], st'.origin) {
        OtherLineKnown(h, st, s, j);
      }
    }
  }

  lemma {:induction false} RemovalsFollow(h: History, st: Replayed, s: Step)
    requires Tracks(h, st) && CanApply(h, s) && CodeFree(h, s) && Sound(Apply(h, s))
    ensures KnowsRemovals(Apply(h, s), ReplayEntry(st, Log(h, s)).removed)
  {
    if s.edit.DropLine? && s.actor == Desk && !h.lines[s.edit.at].deskAdded {
      LiveCodeNotListed(h, s.edit.at, st.removed);
      assert KnowsLine(h.lines[s.edit.at], st.origin);
      RemovalAdded(h, s.edit.at, st.removed);
    } else {
      RemovalsKept(h, s, st.removed);
      NothingRemoved(h, st, s);
    }
  }

  lemma {:induction false} NoCodeTaken(h: History, st: Replayed, s: Step)
    requires CanApply(h, s) && !TakesCode(s.edit)
    ensures Traceable(h, st, s)
  {
  }

  /**
   * An entry that misstates the quantity of a line never seen before is caught by nothing: the
   * replay stays right exactly when the recorded quantity is the line's own.
   */
  lemma {:induction false} FirstEntryMustBeTruthful(h: History, st: Replayed, s: Step, recorded: int)
    requires Tracks(h, st) && CanApply(h, s) && s.actor == Desk && !s.edit.AddLine?
    requires h.lines[s.edit.at].sku !in st.origin
    ensures Tracks(Apply(h, s), ReplayEntry(st, LogAs(h, s, recorded))) <==>
            recorded == h.lines[s.edit.at].total && CodeFree(h, s)
  {
    var at := s.edit.at;
    var l := h.lines[at];
    assert OwnsItsCode(h, at) && KnowsLine(l, st.origin);
    if recorded == l.total {
      StepTracks(h, st, s);
    } else {
      var h', st' := Apply(h, s), ReplayEntry(st, LogAs(h, s, recorded));
      if s.edit.DropLine? {
        SoundAfter(h, s);
        LiveCodeNotListed(h, at, st.removed);
        assert !RemovalOf(h', Removal(l.sku, recorded));
        assert st'.removed[|st.removed|] == Removal(l.sku, recorded);
      } else {
        assert !KnowsLine(h'.lines[at], st'.origin);
      }
    }
  }

  /** The quantity the order desk writes into an entry (modules/sales/sales.controller.js, runUpdateItems). */
  function RecordedByDesk(e: Edit, confirmedQty: int, pendingQty: int): int {
    if e.SetQuantity? then confirmedQty + pendingQty else confirmedQty
  }

  /**
   * So a first removal or re-code of a line is reported right exactly when the line had nothing on
   * indent; a first quantity edit always is.
   */
  lemma {:induction false} DeskEntriesTruthful(h: History, st: Replayed, s: Step, confirmedQty: int, pendingQty: int)
    requires Tracks(h, st) && CanApply(h, s) && s.actor == Desk && !s.edit.AddLine?
    requires h.lines[s.edit.at].sku !in st.origin && h.lines[s.edit.at].total == confirmedQty + pendingQty
    ensures Tracks(Apply(h, s), ReplayEntry(st, LogAs(h, s, RecordedByDesk(s.edit, confirmedQty, pendingQty))))
            <==> (s.edit.SetQuantity? || pendingQty == 0) && CodeFree(h, s)
  {
    FirstEntryMustBeTruthful(h, st, s, RecordedByDesk(s.edit, confirmedQty, pendingQty));
  }

  // ---------------------------------------------------------------------------------------
  // Whole histories
  // ---------------------------------------------------------------------------------------

  /** A booking as it was placed: no edits yet, every line with a code of its own. */
  ghost predicate JustBooked(h: History) {
    && Sound(h)
    && forall j :: 0 <= j < |h.lines| ==>
         var l := h.lines[j];
         l.fate == Live && !l.deskAdded && l.home == l.sku && l.baseline == l.total
  }

  /** Edits that can be made one after another. */
  predicate Runs(h: History, steps: seq<Step>)
    decreases |steps|
  {
    steps == [] || (CanApply(h, steps[0]) && Runs(Apply(h, steps[0]), steps[1..]))
  }

  function Final(h: History, steps: seq<Step>): History
    requires Runs(h, steps)
    decreases |steps|
  {
    if steps == [] then h else Final(Apply(h, steps[0]), steps[1..])
  }

  function Trail(h: History, steps: seq<Step>): seq<Entry>
    requires Runs(h, steps)
    decreases |steps|
  {
    if steps == [] then [] else [Log(h, steps[0])] + Trail(Apply(h, steps[0]), steps[1..])
  }

  /** The replay, from what it knows so far, can follow every one of the edits. */
  predicate AllFollowed(h: History, st: Replayed, steps: seq<Step>)
    requires Runs(h, steps)
    decreases |steps|
  {
    steps == [] ||
    (Followed(h, st, steps[0]) && AllFollowed(Apply(h, steps[0]), ReplayEntry(st, Log(h, steps[0])), steps[1..]))
  }

  predicate AllCodesFree(h: History, steps: seq<Step>)
    requires Runs(h, steps)
    decreases |steps|
  {
    steps == [] || (CodeFree(h, steps[0]) && AllCodesFree(Apply(h, steps[0]), steps[1..]))
  }

  /** What the booking form lets a customer do: change quantities of lines that are there. */
  predicate ByTheForm(steps: seq<Step>) {
    forall i :: 0 <= i < |steps| && steps[i].actor == Customer ==> steps[i].edit.SetQuantity?
  }

  lemma {:induction false} FormIsFollowed(h: History, st: Replayed, steps: seq<Step>)
    requires Runs(h, steps) && ByTheForm(steps) && AllCodesFree(h, steps)
    ensures AllFollowed(h, st, steps)
    decreases |steps|
  {
    hide Apply, Log, ReplayEntry, CanApply, CodeFree;
    if steps != [] {
      assert ByTheForm(steps[1..]);
      NotReinherited(h, st, steps[0]);
      FormIsFollowed(Apply(h, steps[0]), ReplayEntry(st, Log(h, steps[0])), steps[1..]);
    }
  }

  lemma {:induction false} NotReinherited(h: History, st: Replayed, s: Step)
    requires CanApply(h, s) && (s.actor == Customer ==> s.edit.SetQuantity?)
    ensures Traceable(h, st, s)
  {
  }

  lemma {:induction false} TracksFrom(h: History, seen: seq<Entry>, steps: seq<Step>)
    requires Tracks(h, Replay(seen)) && Runs(h, steps) && AllFollowed(h, Replay(seen), steps)
    ensures Tracks(Final(h, steps), Replay(seen + Trail(h, steps)))
    decreases |steps|
  {
    hide Tracks, ReplayEntry, Apply, Log, CanApply, Followed;
    if steps == [] {
      assert seen + [] == seen;
    } else {
      var e := Log(h, steps[0]);
      StepTracks(h, Replay(seen), steps[0]);
      assert (seen + [e])[..|seen|] == seen;
      TracksFrom(Apply(h, steps[0]), seen + [e], steps[1..]);
      assert seen + Trail(h, steps) == (seen + [e]) + Trail(Apply(h, steps[0]), steps[1..]);
    }
  }

  /** The replay of a truthful trail it can follow knows every line of the booking it came from. */
  lemma {:induction false} ReplayTracks(h: History, steps: seq<Step>)
    requires JustBooked(h) && Runs(h, steps) && AllFollowed(h, NOTHING, steps)
    ensures Tracks(Final(h, steps), Replay(Trail(h, steps)))
  {
    assert Tracks(h, Replay([])) by {
      assert KnowsRemovals(h, []);
    }
    TracksFrom(h, [], steps);
    assert [] + Trail(h, steps) == Trail(h, steps);
  }

  // ---------------------------------------------------------------------------------------
  // The report
  // ---------------------------------------------------------------------------------------

  /** Order row `rows[i]` is the surviving line `at[i]`, confirmed stock and open indent together its total. */
  ghost predicate RowMatches(h: History, r: Row, at: nat, indent: map<Sku, int>) {
    && IsLive(h, at)
    && r.skuCode == h.lines[at].sku
    && (if r.skuCode in indent then r.confirmedQty + indent[r.skuCode] else r.confirmedQty) == h.lines[at].total
       // no customer line is ever written with bookedQty 0
    && (!h.lines[at].deskAdded ==> r.bookedQty != 0 || r.confirmedQty <= 0)
  }

  ghost predicate RowsMatch(h: History, rows: seq<Row>, at: seq<nat>, indent: map<Sku, int>) {
    && |at| == |rows|
    && Distinct(at)
    && (forall i :: 0 <= i < |rows| ==> RowMatches(h, rows[i], at[i], indent))
    && (forall j: nat :: IsLive(h, j) ==> j in at)
  }

  /** The report line says of the line what its history says. */
  ghost predicate SaysTrue(o: ReportLine, l: Line) {
    o.change == l.TrueChange() && o.kind == l.TrueKind() && o.fromSku == l.TrueFromSku() && o.onPo == l.total
  }

  /** The columns taken over from the order row and the open indent. */
  predicate CarriesRow(o: ReportLine, r: Row, indent: map<Sku, int>) {
    && o.skuCode == r.skuCode && o.msilCode == r.msilCode && o.booked == r.confirmedQty
    && (r.skuCode in indent ==> o.indent == indent[r.skuCode]) && (r.skuCode !in indent ==> o.indent == 0)
  }

  /** A line the replay knows is reported with its true change, kind and first code. */
  lemma {:induction false} KnownIsReported(h: History, origin: map<Sku, Origin>, r: Row, at: nat, indent: map<Sku, int>)
    requires RowMatches(h, r, at, indent) && KnowsLine(h.lines[at], origin) && h.lines[at].home != ""
    ensures SaysTrue(LineOf(r, indent, origin), h.lines[at]) && CarriesRow(LineOf(r, indent, origin), r, indent)
  {
  }

  lemma {:induction false} LineReported(h: History, st: Replayed, r: Row, at: nat, indent: map<Sku, int>)
    requires Tracks(h, st) && RowMatches(h, r, at, indent)
    ensures SaysTrue(LineOf(r, indent, st.origin), h.lines[at]) && CarriesRow(LineOf(r, indent, st.origin), r, indent)
  {
    assert KnowsLine(h.lines[at], st.origin) && OwnsItsCode(h, at);
    KnownIsReported(h, st.origin, r, at, indent);
  }

  /** Whatever stock and indent make up the totals, every surviving line is reported truly. */
  ghost predicate SurvivorsTrue(h: History, st: Replayed) {
    forall r, at: nat, indent :: RowMatches(h, r, at, indent) ==> SaysTrue(LineOf(r, indent, st.origin), h.lines[at])
  }

  /** The removal appears in the report: no surviving line carries its code. */
  predicate Shown(h: History, sku: Sku) {
    forall j :: 0 <= j < |h.lines| && h.lines[j].fate == Live ==> h.lines[j].sku != sku
  }

  ghost predicate IsOffer(h: History, x: Removal) {
    exists j :: 0 <= j < |h.lines| && h.lines[j].DroppedOffer() && x == Removal(h.lines[j].sku, h.lines[j].baseline)
  }

  /** The lines reported as removed are the lines the desk took from the customer, with what was asked of each. */
  ghost predicate RemovalsTrue(h: History, removed: seq<Removal>) {
    && (forall j :: 0 <= j < |h.lines| && h.lines[j].DroppedOffer() ==>
          Removal(h.lines[j].sku, h.lines[j].baseline) in removed && Shown(h, h.lines[j].sku))
    && (forall i :: 0 <= i < |removed| && Shown(h, removed[i].skuCode) ==> IsOffer(h, removed[i]))
    && (forall i, j :: 0 <= i < j < |h.lines| && h.lines[i].DroppedOffer() && h.lines[j].DroppedOffer() ==>
          h.lines[i].sku != h.lines[j].sku)
    && ListedOnce(removed)
  }

  ghost predicate ReportsTruly(h: History, st: Replayed) {
    SurvivorsTrue(h, st) && RemovalsTrue(h, st.removed)
  }

  lemma {:induction false} RemovalsReported(h: History, removed: seq<Removal>)
    requires Sound(h) && KnowsRemovals(h, removed)
    ensures RemovalsTrue(h, removed)
  {
    forall j | 0 <= j < |h.lines| && h.lines[j].DroppedOffer()
      ensures Removal(h.lines[j].sku, h.lines[j].baseline) in removed && Shown(h, h.lines[j].sku)
    {
      assert OwnsItsCode(h, j) && Listed(removed, h.lines[j].sku);
      assert RemovalOf(h, removed[IndexOf(removed, h.lines[j].sku)]);
      forall i | 0 <= i < |h.lines| && h.lines[i].fate == Live ensures h.lines[i].sku != h.lines[j].sku {
        assert OwnsItsCode(h, i);
      }
    }
    forall i | 0 <= i < |removed| ensures IsOffer(h, removed[i]) {
      assert RemovalOf(h, removed[i]);
      var l := h.lines[h.owner[removed[i].skuCode]];
      assert removed[i] == Removal(l.sku, l.baseline);
    }
    forall i, j | 0 <= i < j < |h.lines| && h.lines[i].DroppedOffer() && h.lines[j].DroppedOffer()
      ensures h.lines[i].sku != h.lines[j].sku
    {
      assert OwnsItsCode(h, i) && OwnsItsCode(h, j);
    }
  }

  /** What the replay knows, the report says. */
  lemma {:induction false} TrackedIsReported(h: History, st: Replayed)
    requires Tracks(h, st)
    ensures ReportsTruly(h, st)
  {
    RemovalsReported(h, st.removed);
    forall r, at: nat, indent | RowMatches(h, r, at, indent) ensures SaysTrue(LineOf(r, indent, st.origin), h.lines[at]) {
      LineReported(h, st, r, at, indent);
    }
  }

  /** Both were added by the desk, or both were booked under one code with one quantity: the report cannot tell them apart. */
  predicate SameOrigin(a: Line, b: Line) {
    if a.deskAdded then b.deskAdded else !b.deskAdded && a.home == b.home && a.baseline == b.baseline
  }

  /** The line as the edit leaves it. */
  function Arriving(h: History, s: Step): Line
    requires CanApply(h, s) && TakesCode(s.edit)
  {
    Apply(h, s).lines[LineAt(h, s.edit)]
  }

  /** A desk's edit puts a line under a code another surviving line carries, which the report can tell apart from it. */
  predicate Clashes(h: History, s: Step)
    requires CanApply(h, s)
  {
    TakesCode(s.edit) && exists j :: 0 <= j < |h.lines| && j != LineAt(h, s.edit) && h.lines[j].fate == Live
                                     && h.lines[j].sku == CodeTaken(s.edit) && !SameOrigin(Arriving(h, s), h.lines[j])
  }

  /**
   * After a truthful edit the report is true, of surviving and of removed lines, exactly when the edit
   * files no line under the code of a line taken from the customer, clashes with no surviving line, and
   * is no customer's re-code or addition under a code where something of another origin is stored.
   */
  lemma {:induction false} StepReported(h: History, st: Replayed, s: Step)
    requires Tracks(h, st) && CanApply(h, s)
    requires s.actor == Customer && TakesCode(s.edit) ==> NoneLive(h, CodeTaken(s.edit), LineAt(h, s.edit))
    ensures ReportsTruly(Apply(h, s), ReplayEntry(st, Log(h, s))) <==>
            (TakesCode(s.edit) ==> NoneFiled(h, CodeTaken(s.edit))) && !Clashes(h, s) && Traceable(h, st, s)
  {
    hide KnowsLine, Inherits, ReportsTruly, Log, ReplayEntry, Apply, RemovalsTrue, SurvivorsTrue;
    if Followed(h, st, s) {
      StepTracks(h, st, s);
      TrackedIsReported(Apply(h, s), ReplayEntry(st, Log(h, s)));
    } else if TakesCode(s.edit) && !NoneFiled(h, CodeTaken(s.edit)) {
      FiledIsHidden(h, st, s);
    } else if !Traceable(h, st, s) {
      MisreportedAtOnce(h, st, s);
    } else if Clashes(h, s) {
      ClashMisreports(h, st, s);
    } else {
      LooksTheSame(h, st, s);
    }
  }

  lemma {:induction false} FiledIsHidden(h: History, st: Replayed, s: Step)
    requires Sound(h) && CanApply(h, s) && TakesCode(s.edit) && !NoneFiled(h, CodeTaken(s.edit))
    ensures !ReportsTruly(Apply(h, s), ReplayEntry(st, Log(h, s)))
  {
    var h', at := Apply(h, s), LineAt(h, s.edit);
    var j :| 0 <= j < |h.lines| && h.lines[j].DroppedOffer() && h.lines[j].sku == CodeTaken(s.edit);
    assert h'.lines[j] == h.lines[j] && h'.lines[at].sku == CodeTaken(s.edit) && h'.lines[at].fate == Live;
    assert !Shown(h', h'.lines[j].sku);
  }

  /** A row of the line as it stands, all of it confirmed. */
  function RowOf(l: Line): Row {
    Row(l.sku, None, l.total, 1)
  }

  lemma {:induction false} MisreportedAtOnce(h: History, st: Replayed, s: Step)
    requires Tracks(h, st) && CanApply(h, s) && !Traceable(h, st, s)
    ensures var l := Arriving(h, s);
            && RowMatches(Apply(h, s), RowOf(l), LineAt(h, s.edit), map[])
            && !SaysTrue(LineOf(RowOf(l), map[], ReplayEntry(st, Log(h, s)).origin), l)
    ensures !ReportsTruly(Apply(h, s), ReplayEntry(st, Log(h, s)))
  {
    if s.edit.RecodeLine? { assert OwnsItsCode(h, s.edit.at) && KnowsLine(h.lines[s.edit.at], st.origin); }
  }

  /** What a desk's addition or re-code stores: the origin of its line, as the replay knew it. */
  lemma {:induction false} DeskStores(h: History, st: Replayed, s: Step)
    requires Tracks(h, st) && CanApply(h, s) && TakesCode(s.edit) && s.actor == Desk
    ensures var l, o := Arriving(h, s), ReplayEntry(st, Log(h, s)).origin;
            && CodeTaken(s.edit) in o && o[CodeTaken(s.edit)].addedByDesk == l.deskAdded && l.home != ""
            && (!l.deskAdded ==> o[CodeTaken(s.edit)].qty == l.baseline && o[CodeTaken(s.edit)].fromSku == Some(l.home))
  {
    if s.edit.RecodeLine? { assert OwnsItsCode(h, s.edit.at) && KnowsLine(h.lines[s.edit.at], st.origin); }
  }

  lemma {:induction false} ClashMisreports(h: History, st: Replayed, s: Step)
    requires Tracks(h, st) && CanApply(h, s) && s.actor == Desk && Clashes(h, s)
    ensures !ReportsTruly(Apply(h, s), ReplayEntry(st, Log(h, s)))
  {
    var h', o := Apply(h, s), ReplayEntry(st, Log(h, s)).origin;
    var j :| 0 <= j < |h.lines| && j != LineAt(h, s.edit) && h.lines[j].fate == Live
             && h.lines[j].sku == CodeTaken(s.edit) && !SameOrigin(Arriving(h, s), h.lines[j]);
    assert h'.lines[j] == h.lines[j] && OwnsItsCode(h, j);
    DeskStores(h, st, s);
    hide Tracks, ReplayEntry, Log, Apply;
    assert RowMatches(h', RowOf(h'.lines[j]), j, map[]);
    TellsApart(Arriving(h, s), h.lines[j], o);
  }

  lemma {:induction false} TellsApart(a: Line, b: Line, o: map<Sku, Origin>)
    requires b.sku in o && o[b.sku].addedByDesk == a.deskAdded && a.home != "" && b.home != ""
    requires !a.deskAdded ==> o[b.sku].qty == a.baseline && o[b.sku].fromSku == Some(a.home)
    ensures SaysTrue(LineOf(RowOf(b), map[], o), b) <==> SameOrigin(a, b)
  {
  }

  /** Lines of the same origin under one code are both reported truly, whichever the entry belonged to. */
  lemma {:induction false} LooksTheSame(h: History, st: Replayed, s: Step)
    requires Tracks(h, st) && CanApply(h, s) && s.actor == Desk && TakesCode(s.edit)
    requires NoneFiled(h, CodeTaken(s.edit)) && !Clashes(h, s)
    ensures ReportsTruly(Apply(h, s), ReplayEntry(st, Log(h, s)))
  {
    var h', st' := Apply(h, s), ReplayEntry(st, Log(h, s));
    DeskStores(h, st, s);
    EditedLineKnown(h, st, s);
    NothingRemoved(h, st, s);
    NoOfferCovered(h, st, s);
    hide ReplayEntry, Log, RemovalsTrue;
    forall j: nat | IsLive(h', j) ensures KnowsLine(h'.lines[j], st'.origin) && h'.lines[j].home != "" {
      if j != LineAt(h, s.edit) {
        assert OwnsItsCode(h, j);
        if h.lines[j].sku == CodeTaken(s.edit) {
          assert SameOrigin(Arriving(h, s), h.lines[j]);
        } else {
          OtherLineKnown(h, st, s, j);
        }
      }
    }
    forall r, at: nat, indent | RowMatches(h', r, at, indent) ensures SaysTrue(LineOf(r, indent, st'.origin), h'.lines[at]) {
      KnownIsReported(h', st'.origin, r, at, indent);
    }
  }

  lemma {:induction false} NoOfferCovered(h: History, st: Replayed, s: Step)
    requires Tracks(h, st) && CanApply(h, s) && TakesCode(s.edit) && NoneFiled(h, CodeTaken(s.edit))
    ensures RemovalsTrue(Apply(h, s), st.removed)
  {
    RemovalsReported(h, st.removed);
    var h' := Apply(h, s);
    forall j | 0 <= j < |h'.lines| && h'.lines[j].DroppedOffer()
      ensures Removal(h'.lines[j].sku, h'.lines[j].baseline) in st.removed && Shown(h', h'.lines[j].sku)
    {
      assert h'.lines[j] == h.lines[j] && Shown(h, h.lines[j].sku);
    }
    forall i | 0 <= i < |st.removed| ensures IsOffer(h', st.removed[i]) {
      assert RemovalOf(h, st.removed[i]);
      var j := h.owner[st.removed[i].skuCode];
      assert h'.lines[j] == h.lines[j];
    }
  }

  /** The report of any truthful trail the replay can follow states the true history of every surviving line. */
  lemma {:induction false} ReportRefinesHistory(h: History, steps: seq<Step>, rows: seq<Row>, at: seq<nat>, indent: map<Sku, int>)
    requires JustBooked(h) && Runs(h, steps) && AllFollowed(h, NOTHING, steps)
    requires RowsMatch(Final(h, steps), rows, at, indent)
    ensures var lines := LinesOf(rows, indent, Replay(Trail(h, steps)).origin);
            forall i :: 0 <= i < |rows| ==>
                          SaysTrue(lines[i], Final(h, steps).lines[at[i]]) && CarriesRow(lines[i], rows[i], indent)
  {
    ReplayTracks(h, steps);
    forall i | 0 <= i < |rows| {
      LineReported(Final(h, steps), Replay(Trail(h, steps)), rows[i], at[i], indent);
    }
  }

  /**
   * Trails whose customers only change quantities, and whose entries all record the line's whole quantity,
   * are of that kind as long as no code is taken that is still needed. (What the controller records instead
   * is the subject of DeskTrails.)
   */
  lemma {:induction false} FormTrailsAreTrue(h: History, steps: seq<Step>, rows: seq<Row>, at: seq<nat>, indent: map<Sku, int>)
    requires JustBooked(h) && Runs(h, steps) && ByTheForm(steps) && AllCodesFree(h, steps)
    requires RowsMatch(Final(h, steps), rows, at, indent)
    ensures var lines := LinesOf(rows, indent, Replay(Trail(h, steps)).origin);
            forall i :: 0 <= i < |rows| ==> SaysTrue(lines[i], Final(h, steps).lines[at[i]])
  {
    FormIsFollowed(h, NOTHING, steps);
    ReportRefinesHistory(h, steps, rows, at, indent);
  }

  /**
   * A trail the form cannot write, but the replay would take: the desk re-codes W to X, the customer X
   * to Y and Y back to X. The line is X by the customer's own wish, yet the report has it come from W.
   */
  lemma {:induction false} StaleCodeMisreports(b: int, p: int, q: int, t: int)
    ensures var h := History([Line("W", "W", b, b, false, Live)], map["W" := 0]);
            var steps := [Step(Desk, RecodeLine(0, "X", p)), Step(Customer, RecodeLine(0, "Y", q)), Step(Customer, RecodeLine(0, "X", t))];
            && JustBooked(h) && Runs(h, steps) && Final(h, steps).lines == [Line("X", "X", t, t, false, Live)]
            && LineOf(Row("X", None, t, 1), map[], Replay(Trail(h, steps)).origin)
               == ReportLine("X", None, Some("W"), t, t, 0, 0, Recoded)
  {
    var h := History([Line("W", "W", b, b, false, Live)], map["W" := 0]);
    var s1, s2, s3 := Step(Desk, RecodeLine(0, "X", p)), Step(Customer, RecodeLine(0, "Y", q)), Step(Customer, RecodeLine(0, "X", t));
    var steps := [s1, s2, s3];
    var h1 := Apply(h, s1);
    assert h1 == History([Line("X", "W", p, b, false, Live)], map["W" := 0, "X" := 0]);
    var h2 := Apply(h1, s2);
    assert h2 == History([Line("Y", "Y", q, q, false, Live)], map["W" := 0, "X" := 0, "Y" := 0]);
    var h3 := Apply(h2, s3);
    assert h3.lines == [Line("X", "X", t, t, false, Live)];
    var e1, e2, e3 := Log(h, s1), Log(h1, s2), Log(h2, s3);
    StaleOrigin(b, e1, e2, e3);
    assert Sound(h) by { assert OwnsItsCode(h, 0); }
    hide Runs, Trail, Final, Replay, ReplayEntry, Apply, Log, Sound;
    TrailOfThree(h, s1, s2, s3);
    ReplayThree(e1, e2, e3);
  }

  lemma {:induction false} StaleOrigin(b: int, e1: Entry, e2: Entry, e3: Entry)
    requires e1.actor == Desk && e1.change.kind == RecodedLine && e1.change.fromSku == "W" && e1.change.toSku == "X"
    requires e1.change.fromQty == Some(b)
    requires e2.actor == Customer && e2.change.kind == RecodedLine && e2.change.toSku == "Y"
    requires e3.actor == Customer && e3.change.kind == RecodedLine && e3.change.toSku == "X"
    ensures var o := ReplayEntry(ReplayEntry(ReplayEntry(NOTHING, e1), e2), e3).origin;
            "X" in o && o["X"] == Origin(e3.change.toQty.GetOr(0), false, Some("W"))
  {
    var a := ReplayEntry(NOTHING, e1);
    assert a.origin == map["X" := Origin(b, false, Some("W"))];
    var c := ReplayEntry(a, e2);
    assert c.origin["X"] == a.origin["X"];
  }

  lemma {:induction false} TrailOfThree(h: History, s1: Step, s2: Step, s3: Step)
    requires CanApply(h, s1) && CanApply(Apply(h, s1), s2) && CanApply(Apply(Apply(h, s1), s2), s3)
    ensures var h1 := Apply(h, s1);
            var h2 := Apply(h1, s2);
            && Runs(h, [s1, s2, s3]) && Final(h, [s1, s2, s3]) == Apply(h2, s3)
            && Trail(h, [s1, s2, s3]) == [Log(h, s1), Log(h1, s2), Log(h2, s3)]
  {
    hide Apply, Log, CanApply;
    var h1 := Apply(h, s1);
    var h2 := Apply(h1, s2);
    assert [s1, s2, s3][1..] == [s2, s3] && [s2, s3][1..] == [s3] && [s3][1..] == [];
    assert Runs(Apply(h2, s3), []) && Runs(h2, [s3]) && Runs(h1, [s2, s3]) && Runs(h, [s1, s2, s3]);
    assert Final(h2, [s3]) == Apply(h2, s3) && Final(h1, [s2, s3]) == Apply(h2, s3);
    assert Trail(h2, [s3]) == [Log(h2, s3)];
    assert Trail(h1, [s2, s3]) == [Log(h1, s2), Log(h2, s3)];
  }

  lemma {:induction false} ReplayThree(e1: Entry, e2: Entry, e3: Entry)
    ensures Replay([e1, e2, e3]) == ReplayEntry(ReplayEntry(ReplayEntry(NOTHING, e1), e2), e3)
  {
    hide ReplayEntry;
    assert [e1, e2, e3][..2] == [e1, e2] && [e1, e2][..1] == [e1] && [e1][..0] == [];
    assert Replay([e1]) == ReplayEntry(NOTHING, e1);
    assert Replay([e1, e2]) == ReplayEntry(Replay([e1]), e2);
  }

  // ---------------------------------------------------------------------------------------
  // Conservation
  // ---------------------------------------------------------------------------------------

  /** What line `j` contributes to the Change total. */
  function Contribution(l: Line): int {
    if l.fate == Live then l.TrueChange() else if l.DroppedOffer() then -l.baseline else 0
  }

  function Contributions(h: History): (w: seq<int>)
    ensures |w| == |h.lines|
  {
    seq(|h.lines|, j requires 0 <= j < |h.lines| => Contribution(h.lines[j]))
  }

  /** Units the booking holds now, over the lines that survive. */
  function HeldNow(lines: seq<Line>): int {
    if lines == [] then 0
    else
      var l := lines[|lines| - 1];
      HeldNow(lines[..|lines| - 1]) + if l.fate == Live then l.total else 0
  }

  /** Units the customer last asked for, over the lines the customer did not drop. */
  function AskedFor(lines: seq<Line>): int {
    if lines == [] then 0
    else
      var l := lines[|lines| - 1];
      AskedFor(lines[..|lines| - 1]) + if !l.deskAdded && l.fate != DroppedByCustomer then l.baseline else 0
  }

  lemma {:induction false} ContributionsAddUp(h: History)
    ensures Sum(Contributions(h)) == HeldNow(h.lines) - AskedFor(h.lines)
    decreases |h.lines|
  {
    if h.lines != [] {
      var n := |h.lines| - 1;
      var h' := h.(lines := h.lines[..n]);
      assert Contributions(h)[..n] == Contributions(h');
      ContributionsAddUp(h');
    }
  }

  function OwnersOf(h: History, removed: seq<Removal>): (r: seq<nat>)
    requires forall i :: 0 <= i < |removed| ==> removed[i].skuCode in h.owner
    ensures |r| == |removed|
  {
    seq(|removed|, i requires 0 <= i < |removed| => h.owner[removed[i].skuCode])
  }

  lemma {:induction false} RemovalCodesDistinct(h: History, rows: seq<Row>, at: seq<nat>, indent: map<Sku, int>, x: Removal)
    requires Sound(h) && RowsMatch(h, rows, at, indent) && RemovalOf(h, x)
    ensures forall i :: 0 <= i < |rows| ==> rows[i].skuCode != x.skuCode
  {
    forall i | 0 <= i < |rows| ensures rows[i].skuCode != x.skuCode {
      assert RowMatches(h, rows[i], at[i], indent) && OwnsItsCode(h, at[i]);
    }
  }

  /** A removed line shows what was asked for as taken away, nothing booked, and what its code still has on indent. */
  predicate SaysRemoved(o: ReportLine, x: Removal, indent: map<Sku, int>) {
    && o.skuCode == x.skuCode && o.kind == Removed && o.onPo == x.qty && o.change == -x.qty && o.booked == 0
    && o.msilCode == None && o.fromSku == None
    && (x.skuCode in indent ==> o.indent == indent[x.skuCode]) && (x.skuCode !in indent ==> o.indent == 0)
  }

  lemma {:induction false} AllRemovalsReported(h: History, rows: seq<Row>, at: seq<nat>, indent: map<Sku, int>, removed: seq<Removal>)
    requires Sound(h) && RowsMatch(h, rows, at, indent)
    requires forall i :: 0 <= i < |removed| ==> RemovalOf(h, removed[i])
    ensures |RemovedLinesOf(removed, rows, indent)| == |removed|
    ensures forall i :: 0 <= i < |removed| ==> SaysRemoved(RemovedLinesOf(removed, rows, indent)[i], removed[i], indent)
  {
    hide RowsMatch, RemovalOf, Sound;
    if removed != [] {
      var n := |removed| - 1;
      RemovalCodesDistinct(h, rows, at, indent, removed[n]);
      AllRemovalsReported(h, rows, at, indent, removed[..n]);
    }
  }

  lemma {:induction false} OwnersDistinct(h: History, removed: seq<Removal>)
    requires Sound(h) && KnowsRemovals(h, removed)
    requires forall i :: 0 <= i < |removed| ==> removed[i].skuCode in h.owner
    ensures Distinct(OwnersOf(h, removed))
    ensures forall i :: 0 <= i < |removed| ==> OwnersOf(h, removed)[i] < |h.lines| && h.lines[OwnersOf(h, removed)[i]].DroppedOffer()
    ensures forall j: nat :: j < |h.lines| && h.lines[j].DroppedOffer() ==> j in OwnersOf(h, removed)
  {
    var r := OwnersOf(h, removed);
    forall i, j | 0 <= i < j < |r| ensures r[i] != r[j] {
      assert RemovalOf(h, removed[i]) && RemovalOf(h, removed[j]);
    }
    forall i | 0 <= i < |removed| ensures r[i] < |h.lines| && h.lines[r[i]].DroppedOffer() {
      assert RemovalOf(h, removed[i]);
    }
    forall j: nat | j < |h.lines| && h.lines[j].DroppedOffer() ensures j in r {
      assert Listed(removed, h.lines[j].sku) && OwnsItsCode(h, j);
      assert r[IndexOf(removed, h.lines[j].sku)] == j;
    }
  }

  /** The rows and the removals are visited once each; nothing else contributes. */
  lemma {:induction false} VisitsAll(h: History, rows: seq<Row>, at: seq<nat>, indent: map<Sku, int>, removed: seq<Removal>)
    requires Sound(h) && KnowsRemovals(h, removed) && RowsMatch(h, rows, at, indent)
    requires forall i :: 0 <= i < |removed| ==> removed[i].skuCode in h.owner
    ensures var all := at + OwnersOf(h, removed);
            && (forall i :: 0 <= i < |all| ==> all[i] < |h.lines|)
            && Sum(Pick(Contributions(h), all)) == HeldNow(h.lines) - AskedFor(h.lines)
  {
    var gone := OwnersOf(h, removed);
    var w, all := Contributions(h), at + gone;
    OwnersDistinct(h, removed);
    forall i | 0 <= i < |at| ensures IsLive(h, at[i]) {
      assert RowMatches(h, rows[i], at[i], indent);
    }
    forall j: nat | j < |w| && j !in all ensures w[j] == 0 {
      assert j !in at && j !in gone;
      assert !IsLive(h, j) && !h.lines[j].DroppedOffer();
    }
    assert Distinct(all);
    SumOfPicked(w, all);
    ContributionsAddUp(h);
  }

  lemma {:induction false} RowsContribute(h: History, st: Replayed, rows: seq<Row>, at: seq<nat>, indent: map<Sku, int>)
    requires Tracks(h, st) && RowsMatch(h, rows, at, indent)
    ensures forall i :: 0 <= i < |at| ==> at[i] < |h.lines|
    ensures Column(LinesOf(rows, indent, st.origin), CHANGE) == Pick(Contributions(h), at)
  {
    forall i | 0 <= i < |at|
      ensures at[i] < |h.lines| && LineOf(rows[i], indent, st.origin).change == Contribution(h.lines[at[i]])
    {
      assert RowMatches(h, rows[i], at[i], indent);
      LineReported(h, st, rows[i], at[i], indent);
    }
  }

  lemma {:induction false} RemovalContributes(h: History, x: Removal)
    requires Sound(h) && RemovalOf(h, x)
    ensures x.skuCode in h.owner && h.owner[x.skuCode] < |h.lines|
    ensures Contributions(h)[h.owner[x.skuCode]] == -x.qty
  {
  }

  lemma {:induction false} RemovalsContribute(h: History, rows: seq<Row>, at: seq<nat>, indent: map<Sku, int>, removed: seq<Removal>)
    requires Sound(h) && KnowsRemovals(h, removed) && RowsMatch(h, rows, at, indent)
    ensures forall i :: 0 <= i < |removed| ==> removed[i].skuCode in h.owner
    ensures forall i :: 0 <= i < |removed| ==> OwnersOf(h, removed)[i] < |h.lines|
    ensures Column(RemovedLinesOf(removed, rows, indent), CHANGE) == Pick(Contributions(h), OwnersOf(h, removed))
  {
    AllRemovalsReported(h, rows, at, indent, removed);
    var lines := RemovedLinesOf(removed, rows, indent);
    forall i | 0 <= i < |removed|
      ensures removed[i].skuCode in h.owner && h.owner[removed[i].skuCode] < |h.lines|
      ensures Contributions(h)[h.owner[removed[i].skuCode]] == lines[i].change
    {
      RemovalContributes(h, removed[i]);
    }
    hide RowsMatch, RemovedLinesOf, KnowsRemovals, Sound, Contributions, RemovalOf;
    assert OwnersOf(h, removed) == seq(|removed|, i requires 0 <= i < |removed| => h.owner[removed[i].skuCode]);
  }

  /** `totalChange` is what the booking holds now less what the customer asked for, dropped lines included. */
  lemma {:induction false} TotalChangeOf(h: History, st: Replayed, rows: seq<Row>, at: seq<nat>, indent: map<Sku, int>)
    requires Tracks(h, st) && RowsMatch(h, rows, at, indent)
    ensures Sum(Column(LinesOf(rows, indent, st.origin) + RemovedLinesOf(st.removed, rows, indent), CHANGE))
            == HeldNow(h.lines) - AskedFor(h.lines)
  {
    RowsContribute(h, st, rows, at, indent);
    RemovalsContribute(h, rows, at, indent, st.removed);
    VisitsAll(h, rows, at, indent, st.removed);
    var w, gone := Contributions(h), OwnersOf(h, st.removed);
    var a, b := LinesOf(rows, indent, st.origin), RemovedLinesOf(st.removed, rows, indent);
    hide Tracks, RowsMatch, LinesOf, RemovedLinesOf, Contributions, OwnersOf, HeldNow, AskedFor, Column, Pick, Sum;
    ColumnConcat(a, b);
    PickConcat(w, at, gone);
  }

  lemma {:induction false} ColumnConcat(a: seq<ReportLine>, b: seq<ReportLine>)
    ensures Column(a + b, CHANGE) == Column(a, CHANGE) + Column(b, CHANGE)
  {
  }

  lemma {:induction false} PickConcat(w: seq<int>, a: seq<nat>, b: seq<nat>)
    requires forall i :: 0 <= i < |a| ==> a[i] < |w|
    requires forall i :: 0 <= i < |b| ==> b[i] < |w|
    ensures forall i :: 0 <= i < |a + b| ==> (a + b)[i] < |w|
    ensures Pick(w, a + b) == Pick(w, a) + Pick(w, b)
  {
  }

  /** What the report's `changed` says. */
  ghost predicate SomeChange(lines: seq<ReportLine>) {
    exists i :: 0 <= i < |lines| && lines[i].kind != Unchanged
  }

  /** A surviving line was added, re-coded, or holds other than was asked for; or an offer was dropped. */
  ghost predicate SomethingDiffers(lines: seq<Line>) {
    exists j :: 0 <= j < |lines| && if lines[j].fate == Live then lines[j].Differs() else lines[j].DroppedOffer()
  }

  lemma {:induction false} SomeChangeConcat(a: seq<ReportLine>, b: seq<ReportLine>)
    ensures SomeChange(a + b) <==> SomeChange(a) || SomeChange(b)
  {
    var lines := a + b;
    if SomeChange(a) { var i :| 0 <= i < |a| && a[i].kind != Unchanged; assert lines[i].kind != Unchanged; }
    if SomeChange(b) { var i :| 0 <= i < |b| && b[i].kind != Unchanged; assert lines[|a| + i].kind != Unchanged; }
  }

  lemma {:induction false} SurvivorsChanged(h: History, st: Replayed, rows: seq<Row>, at: seq<nat>, indent: map<Sku, int>)
    requires Tracks(h, st) && RowsMatch(h, rows, at, indent)
    ensures SomeChange(LinesOf(rows, indent, st.origin)) <==> exists j: nat :: IsLive(h, j) && h.lines[j].Differs()
  {
    var a := LinesOf(rows, indent, st.origin);
    forall i | 0 <= i < |rows| ensures IsLive(h, at[i]) && (a[i].kind != Unchanged <==> h.lines[at[i]].Differs()) {
      assert RowMatches(h, rows[i], at[i], indent);
      LineReported(h, st, rows[i], at[i], indent);
    }
    hide Tracks, LinesOf, RowMatches;
    if j: nat :| IsLive(h, j) && h.lines[j].Differs() {
      var i :| 0 <= i < |at| && at[i] == j;
      assert a[i].kind != Unchanged;
    }
  }

  lemma {:induction false} RemovalsChanged(h: History, st: Replayed, rows: seq<Row>, at: seq<nat>, indent: map<Sku, int>)
    requires Tracks(h, st) && RowsMatch(h, rows, at, indent)
    ensures SomeChange(RemovedLinesOf(st.removed, rows, indent)) <==> exists j: nat :: j < |h.lines| && h.lines[j].DroppedOffer()
  {
    var b := RemovedLinesOf(st.removed, rows, indent);
    AllRemovalsReported(h, rows, at, indent, st.removed);
    hide RemovedLinesOf, RowsMatch;
    if j: nat :| j < |h.lines| && h.lines[j].DroppedOffer() {
      assert Listed(st.removed, h.lines[j].sku);
      assert SaysRemoved(b[IndexOf(st.removed, h.lines[j].sku)], st.removed[IndexOf(st.removed, h.lines[j].sku)], indent);
    }
    if i :| 0 <= i < |b| && b[i].kind != Unchanged {
      assert RemovalOf(h, st.removed[i]);
      assert h.lines[h.owner[st.removed[i].skuCode]].DroppedOffer();
    }
  }

  /** The report is marked as changed exactly when a surviving line differs from what was asked for, or an offer was dropped. */
  lemma {:induction false} ChangedExactlyWhen(h: History, st: Replayed, rows: seq<Row>, at: seq<nat>, indent: map<Sku, int>)
    requires Tracks(h, st) && RowsMatch(h, rows, at, indent)
    ensures var lines := LinesOf(rows, indent, st.origin) + RemovedLinesOf(st.removed, rows, indent);
            SomeChange(lines) <==> SomethingDiffers(h.lines)
  {
    SurvivorsChanged(h, st, rows, at, indent);
    RemovalsChanged(h, st, rows, at, indent);
    SomeChangeConcat(LinesOf(rows, indent, st.origin), RemovedLinesOf(st.removed, rows, indent));
    hide Tracks, RowsMatch, LinesOf, RemovedLinesOf, SomeChange;
    if j: nat :| IsLive(h, j) && h.lines[j].Differs() { assert SomethingDiffers(h.lines); }
    if j: nat :| j < |h.lines| && h.lines[j].DroppedOffer() { assert SomethingDiffers(h.lines); }
    if SomethingDiffers(h.lines) {
      var j :| 0 <= j < |h.lines| && if h.lines[j].fate == Live then h.lines[j].Differs() else h.lines[j].DroppedOffer();
      assert IsLive(h, j) || h.lines[j].DroppedOffer();
    }
  }

  /** So it is on every truthful trail the replay can follow. */
  lemma {:induction false} TrailChangedExactlyWhen(h: History, steps: seq<Step>, rows: seq<Row>, at: seq<nat>, indent: map<Sku, int>)
    requires JustBooked(h) && Runs(h, steps) && AllFollowed(h, NOTHING, steps)
    requires RowsMatch(Final(h, steps), rows, at, indent)
    ensures var st, now := Replay(Trail(h, steps)), Final(h, steps).lines;
            SomeChange(LinesOf(rows, indent, st.origin) + RemovedLinesOf(st.removed, rows, indent)) <==> SomethingDiffers(now)
  {
    ReplayTracks(h, steps);
    ChangedExactlyWhen(Final(h, steps), Replay(Trail(h, steps)), rows, at, indent);
  }

  predicate DeskOnly(steps: seq<Step>) {
    forall i :: 0 <= i < |steps| ==> steps[i].actor == Desk
  }

  lemma {:induction false} AskedForUpdated(lines: seq<Line>, at: nat, l: Line)
    requires at < |lines| && l.baseline == lines[at].baseline && l.deskAdded == lines[at].deskAdded
    requires (l.fate == DroppedByCustomer) == (lines[at].fate == DroppedByCustomer)
    ensures AskedFor(lines[at := l]) == AskedFor(lines)
    decreases |lines|
  {
    var n := |lines| - 1;
    if at == n {
      assert lines[at := l][..n] == lines[..n];
    } else {
      assert lines[at := l][..n] == lines[..n][at := l];
      AskedForUpdated(lines[..n], at, l);
    }
  }

  /** No edit of the desk moves what the customer asked for. */
  lemma {:induction false} DeskStepKeepsAskedFor(h: History, s: Step)
    requires CanApply(h, s) && s.actor == Desk
    ensures AskedFor(Apply(h, s).lines) == AskedFor(h.lines)
  {
    var h' := Apply(h, s);
    if s.edit.AddLine? {
      assert h'.lines[..|h.lines|] == h.lines;
    } else {
      AskedForUpdated(h.lines, s.edit.at, h'.lines[s.edit.at]);
    }
  }

  lemma {:induction false} DeskKeepsAskedFor(h: History, steps: seq<Step>)
    requires Runs(h, steps) && DeskOnly(steps)
    ensures AskedFor(Final(h, steps).lines) == AskedFor(h.lines)
    decreases |steps|
  {
    if steps != [] {
      DeskStepKeepsAskedFor(h, steps[0]);
      assert DeskOnly(steps[1..]);
      DeskKeepsAskedFor(Apply(h, steps[0]), steps[1..]);
    }
  }

  lemma {:induction false} AskedForAtBooking(lines: seq<Line>)
    requires forall j :: 0 <= j < |lines| ==> lines[j].fate == Live && !lines[j].deskAdded && lines[j].baseline == lines[j].total
    ensures AskedFor(lines) == HeldNow(lines)
  {
    if lines != [] {
      AskedForAtBooking(lines[..|lines| - 1]);
    }
  }

  /** Desk-only trails: the Change total is the units held now less the units booked. */
  lemma {:induction false} ChangeConserved(h: History, steps: seq<Step>, rows: seq<Row>, at: seq<nat>, indent: map<Sku, int>)
    requires JustBooked(h) && Runs(h, steps) && DeskOnly(steps) && AllCodesFree(h, steps)
    requires RowsMatch(Final(h, steps), rows, at, indent)
    ensures var st := Replay(Trail(h, steps));
            Sum(Column(LinesOf(rows, indent, st.origin) + RemovedLinesOf(st.removed, rows, indent), CHANGE))
            == HeldNow(Final(h, steps).lines) - HeldNow(h.lines)
  {
    FormIsFollowed(h, NOTHING, steps);
    ReplayTracks(h, steps);
    TotalChangeOf(Final(h, steps), Replay(Trail(h, steps)), rows, at, indent);
    DeskKeepsAskedFor(h, steps);
    AskedForAtBooking(h.lines);
  }

  /** No code is reported twice, so none appears both as surviving and as removed. */
  lemma {:induction false} CodesReportedOnce(h: History, steps: seq<Step>, rows: seq<Row>, at: seq<nat>, indent: map<Sku, int>)
    requires JustBooked(h) && Runs(h, steps) && AllFollowed(h, NOTHING, steps)
    requires RowsMatch(Final(h, steps), rows, at, indent)
    ensures var st := Replay(Trail(h, steps));
            var lines := LinesOf(rows, indent, st.origin) + RemovedLinesOf(st.removed, rows, indent);
            forall i, j :: 0 <= i < j < |lines| ==> lines[i].skuCode != lines[j].skuCode
  {
    ReplayTracks(h, steps);
    CodesDistinct(Final(h, steps), Replay(Trail(h, steps)), rows, at, indent);
  }

  lemma {:induction false} RowCodesDistinct(h: History, rows: seq<Row>, at: seq<nat>, indent: map<Sku, int>)
    requires Sound(h) && RowsMatch(h, rows, at, indent)
    ensures forall i, j :: 0 <= i < j < |rows| ==> rows[i].skuCode != rows[j].skuCode
  {
    forall i, j | 0 <= i < j < |rows| ensures rows[i].skuCode != rows[j].skuCode {
      assert RowMatches(h, rows[i], at[i], indent) && OwnsItsCode(h, at[i]);
      assert RowMatches(h, rows[j], at[j], indent) && OwnsItsCode(h, at[j]);
      assert at[i] != at[j];
    }
  }

  lemma {:induction false} CodesDistinct(h: History, st: Replayed, rows: seq<Row>, at: seq<nat>, indent: map<Sku, int>)
    requires Tracks(h, st) && RowsMatch(h, rows, at, indent)
    ensures var lines := LinesOf(rows, indent, st.origin) + RemovedLinesOf(st.removed, rows, indent);
            forall i, j :: 0 <= i < j < |lines| ==> lines[i].skuCode != lines[j].skuCode
  {
    AllRemovalsReported(h, rows, at, indent, st.removed);
    RowCodesDistinct(h, rows, at, indent);
    var a, b := LinesOf(rows, indent, st.origin), RemovedLinesOf(st.removed, rows, indent);
    forall i | 0 <= i < |a| ensures a[i].skuCode == rows[i].skuCode {}
    forall i | 0 <= i < |b| ensures b[i].skuCode == st.removed[i].skuCode {}
    forall i, j | 0 <= i < |a| && 0 <= j < |b| ensures a[i].skuCode != b[j].skuCode {
      RemovalCodesDistinct(h, rows, at, indent, st.removed[j]);
    }
    ConcatDistinct(a, b);
  }

  lemma {:induction false} ConcatDistinct(a: seq<ReportLine>, b: seq<ReportLine>)
    requires forall i, j :: 0 <= i < j < |a| ==> a[i].skuCode != a[j].skuCode
    requires forall i, j :: 0 <= i < j < |b| ==> b[i].skuCode != b[j].skuCode
    requires forall i, j :: 0 <= i < |a| && 0 <= j < |b| ==> a[i].skuCode != b[j].skuCode
    ensures forall i, j :: 0 <= i < j < |a + b| ==> (a + b)[i].skuCode != (a + b)[j].skuCode
  {
  }

  // ---------------------------------------------------------------------------------------
  // Stock arriving against an indent, and reuse of a code
  // ---------------------------------------------------------------------------------------

  /**
   * Moving `d` units of a line from its open indent to its confirmed stock changes neither total,
   * change nor kind, unless it makes a never-edited line without a booked quantity start or stop
   * holding stock.
   */
  lemma {:induction false} ArrivalIsNoChange(r: Row, indent: map<Sku, int>, origin: map<Sku, Origin>, d: int)
    ensures var before := LineOf(r, indent, origin);
            var after := LineOf(r.(confirmedQty := r.confirmedQty + d),
                                indent[r.skuCode := QtyOf(indent, r.skuCode) - d], origin);
            && after.onPo == before.onPo
            && (after.change == before.change && after.kind == before.kind && after.fromSku == before.fromSku
                <==> r.skuCode in origin || r.bookedQty != 0 || (r.confirmedQty > 0 <==> r.confirmedQty + d > 0))
  {
  }

  /**
   * A desk that gives two lines each other's codes in one save: the second re-code picks up the entry
   * the first one has just stored. The second line is then reported truly exactly when the two cannot be
   * told apart, and the first one as a line that was never edited.
   */
  lemma {:induction false} SwapReportedExactlyWhen(h: History, st: Replayed, i: nat, j: nat, q: int, r: int)
    requires Tracks(h, st) && IsLive(h, i) && IsLive(h, j) && i != j
    ensures var s1 := Step(Desk, RecodeLine(i, h.lines[j].sku, q));
            var h1 := Apply(h, s1);
            var s2 := Step(Desk, RecodeLine(j, h.lines[i].sku, r));
            var h2, o := Apply(h1, s2), ReplayEntry(ReplayEntry(st, Log(h, s1)), Log(h1, s2)).origin;
            var first, second := h2.lines[i], h2.lines[j];
            && first == h.lines[i].(sku := h.lines[j].sku, total := q) && second == h.lines[j].(sku := h.lines[i].sku, total := r)
            && RowMatches(h2, RowOf(first), i, map[]) && RowMatches(h2, RowOf(second), j, map[])
            && (SaysTrue(LineOf(RowOf(second), map[], o), second) <==> SameOrigin(first, second))
            && LineOf(RowOf(first), map[], o) == ReportLine(first.sku, None, None, q, q, 0, 0, Unchanged)
            && (SaysTrue(LineOf(RowOf(first), map[], o), first) <==> !first.deskAdded && q == first.baseline && first.sku == first.home)
  {
    assert OwnsItsCode(h, i) && OwnsItsCode(h, j) && h.lines[i].sku != h.lines[j].sku;
    var s1 := Step(Desk, RecodeLine(i, h.lines[j].sku, q));
    var h1, st1 := Apply(h, s1), ReplayEntry(st, Log(h, s1));
    var s2 := Step(Desk, RecodeLine(j, h.lines[i].sku, r));
    DeskStores(h, st, s1);
    var x, y := h.lines[i].sku, h.lines[j].sku;
    hide Tracks, KnowsLine;
    var o := ReplayEntry(st1, Log(h1, s2)).origin;
    assert y !in o && x in o && o[x] == st1.origin[y];
    TellsApart(h1.lines[i], Apply(h1, s2).lines[j], o);
  }

  /** Lines A with 10 and B with 20 swap codes and keep their quantities: one is reported as grown, the other as unchanged. */
  lemma {:induction false} SwapMisreports()
    ensures var e1 := Entry(Desk, Change(RecodedLine, "B", "A", "B", Some(10), Some(10)));
            var e2 := Entry(Desk, Change(RecodedLine, "A", "B", "A", Some(20), Some(20)));
            LinesOf([Row("B", None, 10, 10), Row("A", None, 20, 20)], map[], Replay([e1, e2]).origin)
            == [ReportLine("B", None, None, 10, 10, 0, 0, Unchanged), ReportLine("A", None, None, 20, 20, 0, 10, Increased)]
  {
    var e1 := Entry(Desk, Change(RecodedLine, "B", "A", "B", Some(10), Some(10)));
    var e2 := Entry(Desk, Change(RecodedLine, "A", "B", "A", Some(20), Some(20)));
    assert [e1, e2][..1] == [e1] && [e1][..0] == [];
    assert Replay([e1]).origin == map["B" := Origin(10, false, Some("A"))];
    assert Replay([e1, e2]).origin == map["A" := Origin(10, false, Some("A"))];
  }

  /**
   * A code that is still needed: the desk drops A (10 booked) and adds A again with 4. Truthful
   * entries, yet the report says +4 where the customer lost 6.
   */
  lemma {:induction false} ReusedCodeMisleads()
    ensures var trail := [Entry(Desk, Change(RemovedLine, "A", "", "", Some(10), Some(0))),
                          Entry(Desk, Change(AddedLine, "A", "", "", Some(0), Some(4)))];
            var st := Replay(trail);
            var rows := [Row("A", None, 4, 0)];
            LinesOf(rows, map[], st.origin) + RemovedLinesOf(st.removed, rows, map[])
            == [ReportLine("A", None, None, 4, 4, 0, 4, Added)]
  {
    var e0 := Entry(Desk, Change(RemovedLine, "A", "", "", Some(10), Some(0)));
    var e1 := Entry(Desk, Change(AddedLine, "A", "", "", Some(0), Some(4)));
    assert [e0, e1][..1] == [e0] && [e0][..0] == [];
    assert Replay([e0]) == Replayed(map[], [Removal("A", 10)]);
    assert DeleteRemoval([Removal("A", 10)], "A") == [];
    assert Replay([e0, e1]) == Replayed(map["A" := Origin(0, true, None)], []);
  }
}
