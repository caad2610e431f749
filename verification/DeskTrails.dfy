/**
 * The trails the sales desk's controller writes (backend/modules/sales/sales.controller.js,
 * runUpdateItems) and what the report makes of them. For a quantity edit the controller records what the
 * line held, confirmed and on indent; for a removal or a re-code only the confirmed part. The first
 * entry about a line is what the replay takes for the quantity it was booked with.
 */
module DeskTrails {
  import opened Options
  import opened Sums
  import opened BookingReplay
  import opened BookingHistory

  /** An edit, with the part of its line that is confirmed at that moment. */
  datatype Move = Move(step: Step, confirmed: int)

  /** The entry the controller writes. */
  function Written(h: History, m: Move): Entry
    requires CanApply(h, m.step)
  {
    LogAs(h, m.step, RecordedByDesk(m.step.edit, m.confirmed, HeldBefore(h, m.step) - m.confirmed))
  }

  /** The controller lets customers change quantities only; and the edit takes no code that is still needed. */
  predicate Fits(h: History, m: Move) {
    CanApply(h, m.step) && CodeFree(h, m.step) && (m.step.actor == Customer ==> m.step.edit.SetQuantity?)
  }

  predicate Possible(h: History, moves: seq<Move>)
    decreases |moves|, 0
  {
    moves == [] || (Possible(h, moves[..|moves| - 1]) && Fits(End(h, moves[..|moves| - 1]), moves[|moves| - 1]))
  }

  function End(h: History, moves: seq<Move>): History
    requires Possible(h, moves)
    decreases |moves|, 1
  {
    if moves == [] then h else Apply(End(h, moves[..|moves| - 1]), moves[|moves| - 1].step)
  }

  function WrittenTrail(h: History, moves: seq<Move>): seq<Entry>
    requires Possible(h, moves)
  {
    if moves == [] then []
    else WrittenTrail(h, moves[..|moves| - 1]) + [Written(End(h, moves[..|moves| - 1]), moves[|moves| - 1])]
  }

  function Known(h: History, moves: seq<Move>): Replayed
    requires Possible(h, moves)
  {
    Replay(WrittenTrail(h, moves))
  }

  lemma {:induction false} KnownNext(h: History, moves: seq<Move>)
    requires moves != [] && Possible(h, moves)
    ensures var front, m := moves[..|moves| - 1], moves[|moves| - 1];
            Known(h, moves) == ReplayEntry(Known(h, front), Written(End(h, front), m))
  {
    var front, m := moves[..|moves| - 1], moves[|moves| - 1];
    var trail := WrittenTrail(h, front);
    assert (trail + [Written(End(h, front), m)])[..|trail|] == trail;
  }

  // ---------------------------------------------------------------------------------------
  // What the first entry about a line says
  // ---------------------------------------------------------------------------------------

  predicate Touches(m: Move, j: nat) {
    !m.step.edit.AddLine? && m.step.edit.at == j
  }

  predicate Untouched(moves: seq<Move>, j: nat) {
    forall i :: 0 <= i < |moves| ==> !Touches(moves[i], j)
  }

  /** A removal or re-code by the desk, which records only what is confirmed. */
  predicate RecordsPart(m: Move) {
    m.step.actor == Desk && (m.step.edit.DropLine? || m.step.edit.RecodeLine?)
  }

  /** The first edit of a booked line found units on indent and did not record them. */
  predicate FirstFindsIndent(h: History, moves: seq<Move>, k: nat, j: nat)
    requires k < |moves| && j < |h.lines|
  {
    Touches(moves[k], j) && Untouched(moves[..k], j) && RecordsPart(moves[k]) && moves[k].confirmed != h.lines[j].total
  }

  predicate ResetAfter(moves: seq<Move>, k: nat, j: nat) {
    exists i :: k < i < |moves| && Touches(moves[i], j) && moves[i].step.actor == Customer
  }

  /** And the customer has not set its quantity since. */
  predicate Misstated(h: History, moves: seq<Move>, j: nat) {
    j < |h.lines| && exists k :: 0 <= k < |moves| && FirstFindsIndent(h, moves, k, j) && !ResetAfter(moves, k, j)
  }

  /** How much less than the customer asked for the replay takes line `j` to have been booked with. */
  function Unrecorded(h: History, moves: seq<Move>, j: nat): int {
    if moves == [] || j >= |h.lines| then 0
    else
      var front, m := moves[..|moves| - 1], moves[|moves| - 1];
      if !Touches(m, j) then Unrecorded(h, front, j)
      else if m.step.actor == Customer then 0
      else if Untouched(front, j) && RecordsPart(m) then h.lines[j].total - m.confirmed
      else Unrecorded(h, front, j)
  }

  lemma {:induction false} NothingUnrecorded(h: History, moves: seq<Move>, j: nat)
    requires Untouched(moves, j)
    ensures Unrecorded(h, moves, j) == 0
  {
    if moves != [] {
      assert !Touches(moves[|moves| - 1], j);
      assert Untouched(moves[..|moves| - 1], j);
      if j < |h.lines| { NothingUnrecorded(h, moves[..|moves| - 1], j); }
    }
  }

  /** The closed form of the recursion. */
  lemma {:induction false} MisstatedIs(h: History, moves: seq<Move>, j: nat)
    ensures Unrecorded(h, moves, j) != 0 <==> Misstated(h, moves, j)
  {
    if moves != [] && j < |h.lines| {
      var n := |moves| - 1;
      var front, m := moves[..n], moves[n];
      MisstatedIs(h, front, j);
      MisstatedGrows(h, moves, j);
      if Untouched(front, j) { NothingUnrecorded(h, front, j); }
      hide Misstated, Untouched;
    }
  }

  lemma {:induction false} MisstatedGrows(h: History, moves: seq<Move>, j: nat)
    requires moves != [] && j < |h.lines|
    ensures var front, m := moves[..|moves| - 1], moves[|moves| - 1];
            Misstated(h, moves, j) <==>
            if !Touches(m, j) then Misstated(h, front, j)
            else if m.step.actor == Customer then false
            else if Untouched(front, j) then RecordsPart(m) && m.confirmed != h.lines[j].total
            else Misstated(h, front, j)
  {
    var n := |moves| - 1;
    var front, m := moves[..n], moves[n];
    forall k: nat | k < n
      ensures FirstFindsIndent(h, moves, k, j) <==> FirstFindsIndent(h, front, k, j)
      ensures ResetAfter(moves, k, j) <==> ResetAfter(front, k, j) || (Touches(m, j) && m.step.actor == Customer)
    {
      assert moves[..k] == front[..k];
      ResetGrows(moves, k, j);
    }
    assert moves[..n] == front;
    assert !ResetAfter(moves, n, j);
    hide ResetAfter, RecordsPart;
    if Misstated(h, moves, j) {
      var k :| 0 <= k < |moves| && FirstFindsIndent(h, moves, k, j) && !ResetAfter(moves, k, j);
      if k < n { assert Touches(front[k], j); }
    }
    if Misstated(h, front, j) {
      var k :| 0 <= k < |front| && FirstFindsIndent(h, front, k, j) && !ResetAfter(front, k, j);
      assert Touches(front[k], j) && FirstFindsIndent(h, moves, k, j);
    }
    if Touches(m, j) && Untouched(front, j) && RecordsPart(m) && m.confirmed != h.lines[j].total {
      assert FirstFindsIndent(h, moves, n, j);
    }
  }

  lemma {:induction false} ResetGrows(moves: seq<Move>, k: nat, j: nat)
    requires k < |moves| - 1
    ensures var front, m := moves[..|moves| - 1], moves[|moves| - 1];
            ResetAfter(moves, k, j) <==> ResetAfter(front, k, j) || (Touches(m, j) && m.step.actor == Customer)
  {
    var front := moves[..|moves| - 1];
    if ResetAfter(moves, k, j) {
      var i :| k < i < |moves| && Touches(moves[i], j) && moves[i].step.actor == Customer;
      if i < |front| { assert front[i] == moves[i]; }
    }
    if ResetAfter(front, k, j) {
      var i :| k < i < |front| && Touches(front[i], j) && front[i].step.actor == Customer;
      assert moves[i] == front[i];
    }
  }

  // ---------------------------------------------------------------------------------------
  // The history the replay takes it to be
  // ---------------------------------------------------------------------------------------

  /** The entry is the first about its line and records only a part: the line looks as if it had been booked with that. */
  predicate TakenForPart(g: History, st: Replayed, m: Move) {
    RecordsPart(m) && IsLive(g, m.step.edit.at) && g.lines[m.step.edit.at].sku !in st.origin
  }

  function Taken(g: History, st: Replayed, m: Move): History {
    if TakenForPart(g, st, m) then
      var at := m.step.edit.at;
      g.(lines := g.lines[at := g.lines[at].(total := m.confirmed, baseline := m.confirmed)])
    else g
  }

  /** The history of which the controller's trail is a truthful one. */
  function Believed(h: History, moves: seq<Move>): History
    requires Possible(h, moves)
  {
    if moves == [] then h
    else
      var front, m := moves[..|moves| - 1], moves[|moves| - 1];
      var g := Taken(Believed(h, front), Known(h, front), m);
      if CanApply(g, m.step) then Apply(g, m.step) else g
  }

  /** The same lines under the same codes, which may differ in what was asked for. */
  ghost predicate Alike(h: History, g: History) {
    && |g.lines| == |h.lines| && g.owner == h.owner
    && forall j :: 0 <= j < |h.lines| ==> AlikeLine(h.lines[j], g.lines[j])
  }

  ghost predicate AlikeLine(a: Line, b: Line) {
    b.sku == a.sku && b.home == a.home && b.deskAdded == a.deskAdded && b.fate == a.fate
    && (a.fate == Live ==> b.total == a.total)
  }

  lemma {:induction false} TakenTracks(g: History, st: Replayed, m: Move)
    requires Tracks(g, st)
    ensures Tracks(Taken(g, st, m), st)
  {
    if TakenForPart(g, st, m) {
      var at := m.step.edit.at;
      var t := Taken(g, st, m);
      assert OwnsItsCode(g, at) && KnowsLine(g.lines[at], st.origin);
      forall j | 0 <= j < |t.lines| && Counts(t.lines[j]) ensures OwnsItsCode(t, j) { assert OwnsItsCode(g, j); }
      forall i | 0 <= i < |st.removed| ensures RemovalOf(t, st.removed[i]) { assert RemovalOf(g, st.removed[i]); }
      forall j | 0 <= j < |t.lines| && t.lines[j].fate == Live && j != at ensures KnowsLine(t.lines[j], st.origin) {
        assert KnowsLine(g.lines[j], st.origin);
      }
    }
  }

  lemma {:induction false} AlikeFits(h: History, g: History, st: Replayed, m: Move)
    requires Alike(h, g) && Fits(h, m)
    ensures var t := Taken(g, st, m);
            && CanApply(t, m.step) && CodeFree(t, m.step) && CanApply(g, m.step)
  {
    var t := Taken(g, st, m);
    forall j | 0 <= j < |t.lines|
      ensures t.lines[j].sku == h.lines[j].sku && t.lines[j].fate == h.lines[j].fate && t.lines[j].deskAdded == h.lines[j].deskAdded
    {
      assert AlikeLine(h.lines[j], g.lines[j]);
    }
  }

  /** About a line the replay knows, it does not look at the quantity an entry of the desk says the line held. */
  lemma {:induction false} RecordedIgnored(st: Replayed, h: History, s: Step, x: int, y: int)
    requires CanApply(h, s) && s.actor == Desk && (s.edit.DropLine? || s.edit.RecodeLine?)
    requires h.lines[s.edit.at].sku in st.origin
    ensures ReplayEntry(st, LogAs(h, s, x)) == ReplayEntry(st, LogAs(h, s, y))
  {
  }

  /** Nor, about any line, at the quantity it says the line holds now. */
  lemma {:induction false} NewQuantityIgnored(st: Replayed, c: Change, x: Option<int>)
    ensures ReplayByDesk(st, c.(toQty := x)) == ReplayByDesk(st, c)
  {
  }

  /** The controller's entry does what the truthful entry of the believed history does. */
  lemma {:induction false} WrittenIsBelieved(h: History, g: History, st: Replayed, m: Move)
    requires Alike(h, g) && Fits(h, m) && CanApply(Taken(g, st, m), m.step)
    ensures ReplayEntry(st, Written(h, m)) == ReplayEntry(st, Log(Taken(g, st, m), m.step))
  {
    var t := Taken(g, st, m);
    if !m.step.edit.AddLine? {
      var at := m.step.edit.at;
      assert AlikeLine(h.lines[at], g.lines[at]);
      if RecordsPart(m) && !TakenForPart(g, st, m) {
        assert Written(h, m) == LogAs(g, m.step, m.confirmed);
        RecordedIgnored(st, g, m.step, m.confirmed, g.lines[at].total);
      } else {
        assert Written(h, m) == Log(t, m.step);
      }
    }
  }

  lemma {:induction false} AlikeNext(h: History, g: History, st: Replayed, m: Move)
    requires Alike(h, g) && Fits(h, m) && CanApply(Taken(g, st, m), m.step)
    ensures Alike(Apply(h, m.step), Apply(Taken(g, st, m), m.step))
  {
    var h', g' := Apply(h, m.step), Apply(Taken(g, st, m), m.step);
    forall j | 0 <= j < |h'.lines| ensures AlikeLine(h'.lines[j], g'.lines[j]) {
      if j < |h.lines| { assert AlikeLine(h.lines[j], g.lines[j]); }
    }
  }

  /** The replay of the controller's trail knows the believed history, and its lines are the real ones. */
  lemma {:induction false} BelievedIsTracked(h: History, moves: seq<Move>)
    requires JustBooked(h) && Possible(h, moves)
    ensures Tracks(Believed(h, moves), Known(h, moves)) && Alike(End(h, moves), Believed(h, moves))
  {
    if moves == [] {
      assert KnowsRemovals(h, []);
    } else {
      var front, m := moves[..|moves| - 1], moves[|moves| - 1];
      BelievedIsTracked(h, front);
      var g, st := Believed(h, front), Known(h, front);
      hide Tracks, Alike, Apply, Written, Log, ReplayEntry, Known, Followed, Replay, WrittenTrail;
      KnownNext(h, moves);
      AlikeFits(End(h, front), g, st, m);
      TakenTracks(g, st, m);
      StepTracks(Taken(g, st, m), st, m.step);
      FormFollowed(Taken(g, st, m), st, m);
      WrittenIsBelieved(End(h, front), g, st, m);
      AlikeNext(End(h, front), g, st, m);
    }
  }

  lemma {:induction false} FormFollowed(t: History, st: Replayed, m: Move)
    requires CanApply(t, m.step) && CodeFree(t, m.step) && (m.step.actor == Customer ==> m.step.edit.SetQuantity?)
    ensures Followed(t, st, m.step)
  {
  }

  // ---------------------------------------------------------------------------------------
  // How far it is from the real one
  // ---------------------------------------------------------------------------------------

  /** The replay has seen a surviving line exactly when it was edited or added. */
  ghost predicate SeenIffTouched(h: History, moves: seq<Move>, cur: History, st: Replayed, j: nat)
    requires j < |cur.lines|
  {
    && (cur.lines[j].fate == Live ==> (cur.lines[j].sku in st.origin <==> j >= |h.lines| || !Untouched(moves, j)))
    && (j < |h.lines| && Untouched(moves, j) ==> cur.lines[j] == h.lines[j])
  }

  ghost predicate AllSeenIffTouched(h: History, moves: seq<Move>, cur: History, st: Replayed) {
    |cur.lines| >= |h.lines| && forall j: nat :: j < |cur.lines| ==> SeenIffTouched(h, moves, cur, st, j)
  }

  lemma {:induction false} UntouchedSnoc(moves: seq<Move>, j: nat)
    requires moves != []
    ensures Untouched(moves, j) <==> Untouched(moves[..|moves| - 1], j) && !Touches(moves[|moves| - 1], j)
  {
    var front := moves[..|moves| - 1];
    if Untouched(moves, j) {
      forall i | 0 <= i < |front| ensures !Touches(front[i], j) { assert front[i] == moves[i]; }
    }
    if Untouched(front, j) && !Touches(moves[|moves| - 1], j) {
      forall i | 0 <= i < |moves| ensures !Touches(moves[i], j) { assert i < |front| ==> front[i] == moves[i]; }
    }
  }

  lemma {:induction false} SeenNext(h: History, moves: seq<Move>, cur: History, st: Replayed)
    requires moves != [] && AllSeenIffTouched(h, moves[..|moves| - 1], cur, st) && Fits(cur, moves[|moves| - 1])
    requires Sound(cur)
    ensures var m := moves[|moves| - 1];
            AllSeenIffTouched(h, moves, Apply(cur, m.step), ReplayEntry(st, Written(cur, m)))
  {
    var front, m := moves[..|moves| - 1], moves[|moves| - 1];
    var after, st' := Apply(cur, m.step), ReplayEntry(st, Written(cur, m));
    forall j: nat | j < |after.lines| ensures SeenIffTouched(h, moves, after, st', j) {
      UntouchedSnoc(moves, j);
      if j < |cur.lines| {
        assert SeenIffTouched(h, front, cur, st, j);
        if Counts(cur.lines[j]) { assert OwnsItsCode(cur, j); }
      }
      if !m.step.edit.AddLine? { assert OwnsItsCode(cur, m.step.edit.at); }
      hide Sound, Untouched, AllSeenIffTouched;
    }
  }

  lemma {:induction false} AlikeSound(h: History, g: History)
    requires Alike(h, g) && Sound(g)
    ensures Sound(h)
  {
    forall j | 0 <= j < |h.lines| && Counts(h.lines[j]) ensures OwnsItsCode(h, j) {
      assert AlikeLine(h.lines[j], g.lines[j]) && OwnsItsCode(g, j);
    }
  }

  lemma {:induction false} SeenAlways(h: History, moves: seq<Move>)
    requires JustBooked(h) && Possible(h, moves)
    ensures AllSeenIffTouched(h, moves, End(h, moves), Known(h, moves))
  {
    if moves != [] {
      var front := moves[..|moves| - 1];
      SeenAlways(h, front);
      BelievedIsTracked(h, front);
      AlikeSound(End(h, front), Believed(h, front));
      KnownNext(h, moves);
      hide Tracks, Alike, Apply, Written, ReplayEntry, Known, AllSeenIffTouched, Sound;
      SeenNext(h, moves, End(h, front), Known(h, front));
    }
  }

  /** What the replay takes a line to have been booked with falls short by what its first entry left out. */
  lemma {:induction false} BelievedShort(h: History, moves: seq<Move>, j: nat)
    requires JustBooked(h) && Possible(h, moves) && j < |End(h, moves).lines|
    ensures j < |Believed(h, moves).lines|
    ensures Believed(h, moves).lines[j].baseline == End(h, moves).lines[j].baseline - Unrecorded(h, moves, j)
  {
    BelievedIsTracked(h, moves);
    if moves != [] {
      var front, m := moves[..|moves| - 1], moves[|moves| - 1];
      BelievedIsTracked(h, front);
      SeenAlways(h, front);
      var cur, g, st := End(h, front), Believed(h, front), Known(h, front);
      AlikeFits(cur, g, st, m);
      if j < |cur.lines| {
        BelievedShort(h, front, j);
        assert SeenIffTouched(h, front, cur, st, j) && AlikeLine(cur.lines[j], g.lines[j]);
        if Untouched(front, j) { NothingUnrecorded(h, front, j); }
        hide Tracks, Alike, Known, AllSeenIffTouched, Untouched, Believed, End, Possible;
        BaselineNext(h, moves, cur, g, st, j);
        assert Believed(h, moves) == Apply(Taken(g, st, m), m.step) by { BelievedNext(h, moves); }
        assert End(h, moves) == Apply(cur, m.step) by { BelievedNext(h, moves); }
      } else {
        AddedBaseline(h, moves, cur, g, st, j);
      }
    }
  }

  lemma {:induction false} BelievedNext(h: History, moves: seq<Move>)
    requires moves != [] && Possible(h, moves)
    ensures var front, m := moves[..|moves| - 1], moves[|moves| - 1];
            && End(h, moves) == Apply(End(h, front), m.step)
            && var t := Taken(Believed(h, front), Known(h, front), m);
               CanApply(t, m.step) ==> Believed(h, moves) == Apply(t, m.step)
  {
  }

  lemma {:induction false} AddedBaseline(h: History, moves: seq<Move>, cur: History, g: History, st: Replayed, j: nat)
    requires moves != [] && |cur.lines| >= |h.lines| && j >= |cur.lines| && Alike(cur, g)
    requires var m := moves[|moves| - 1];
             && Fits(cur, m) && CanApply(Taken(g, st, m), m.step) && j < |Apply(cur, m.step).lines|
    ensures var m := moves[|moves| - 1];
            && j < |Apply(Taken(g, st, m), m.step).lines| && Unrecorded(h, moves, j) == 0
            && Apply(Taken(g, st, m), m.step).lines[j].baseline == Apply(cur, m.step).lines[j].baseline
  {
  }

  lemma {:induction false} BaselineNext(h: History, moves: seq<Move>, cur: History, g: History, st: Replayed, j: nat)
    requires moves != [] && j < |cur.lines| == |g.lines| && AlikeLine(cur.lines[j], g.lines[j])
    requires var front, m := moves[..|moves| - 1], moves[|moves| - 1];
             && Fits(cur, m) && CanApply(Taken(g, st, m), m.step) && SeenIffTouched(h, front, cur, st, j)
             && g.lines[j].baseline == cur.lines[j].baseline - Unrecorded(h, front, j)
             && (Untouched(front, j) ==> Unrecorded(h, front, j) == 0)
             && (j < |h.lines| && Untouched(front, j) ==> h.lines[j].baseline == h.lines[j].total)
    ensures var m := moves[|moves| - 1];
            && j < |Apply(Taken(g, st, m), m.step).lines| && j < |Apply(cur, m.step).lines|
            && Apply(Taken(g, st, m), m.step).lines[j].baseline == Apply(cur, m.step).lines[j].baseline - Unrecorded(h, moves, j)
  {
    hide Untouched, CodeFree;
  }

  // ---------------------------------------------------------------------------------------
  // The report
  // ---------------------------------------------------------------------------------------

  lemma {:induction false} AlikeRow(h: History, g: History, r: Row, at: nat, indent: map<Sku, int>)
    requires Alike(h, g) && RowMatches(h, r, at, indent)
    ensures RowMatches(g, r, at, indent)
  {
    assert AlikeLine(h.lines[at], g.lines[at]);
  }

  lemma {:induction false} AddedStaysAdded(h: History, moves: seq<Move>, j: nat)
    requires JustBooked(h) && Possible(h, moves) && j < |End(h, moves).lines|
    ensures |End(h, moves).lines| >= |h.lines|
    ensures End(h, moves).lines[j].deskAdded <==> j >= |h.lines|
    ensures End(h, moves).lines[j].fate != DroppedByCustomer
  {
    if moves != [] {
      var front, m := moves[..|moves| - 1], moves[|moves| - 1];
      var cur := End(h, front);
      if cur.lines != [] { AddedStaysAdded(h, front, 0); } else { NoLines(h, front); }
      if j < |cur.lines| { AddedStaysAdded(h, front, j); }
      hide JustBooked, Possible;
    }
  }

  lemma {:induction false} NoLines(h: History, moves: seq<Move>)
    requires Possible(h, moves)
    ensures |End(h, moves).lines| >= |h.lines|
  {
    if moves != [] { NoLines(h, moves[..|moves| - 1]); }
  }

  /**
   * In every run of the controller: a surviving line is reported truly exactly when the first edit to
   * touch it was no re-code by the desk that found units on indent, or the customer has set its quantity
   * since. What the report overstates are those units.
   */
  lemma {:induction false} SurvivorTrueExactlyWhen(h: History, moves: seq<Move>, r: Row, at: nat, indent: map<Sku, int>)
    requires JustBooked(h) && Possible(h, moves) && RowMatches(End(h, moves), r, at, indent)
    ensures var o, l := LineOf(r, indent, Known(h, moves).origin), End(h, moves).lines[at];
            && (SaysTrue(o, l) <==> !Misstated(h, moves, at))
            && o.change == l.TrueChange() + Unrecorded(h, moves, at) && o.fromSku == l.TrueFromSku() && o.onPo == l.total
  {
    var cur, g, st := End(h, moves), Believed(h, moves), Known(h, moves);
    BelievedIsTracked(h, moves);
    BelievedShort(h, moves, at);
    MisstatedIs(h, moves, at);
    AddedStaysAdded(h, moves, at);
    AlikeRow(cur, g, r, at, indent);
    LineReported(g, st, r, at, indent);
    assert AlikeLine(cur.lines[at], g.lines[at]);
    hide JustBooked, Possible, Tracks, Alike, RowMatches, LineOf, Misstated;
    Compare(LineOf(r, indent, st.origin), cur.lines[at], g.lines[at], Unrecorded(h, moves, at));
  }

  lemma {:induction false} Compare(o: ReportLine, l: Line, believed: Line, short: int)
    requires SaysTrue(o, believed) && AlikeLine(l, believed) && l.fate == Live
    requires believed.baseline == l.baseline - short && (l.deskAdded ==> short == 0)
    ensures (SaysTrue(o, l) <==> short == 0)
            && o.change == l.TrueChange() + short && o.fromSku == l.TrueFromSku() && o.onPo == l.total
  {
  }

  /** And a line the desk took from the customer is reported, once, with what was asked for exactly when the same holds. */
  lemma {:induction false} RemovalTrueExactlyWhen(h: History, moves: seq<Move>, j: nat)
    requires JustBooked(h) && Possible(h, moves) && j < |End(h, moves).lines| && End(h, moves).lines[j].DroppedOffer()
    ensures var l, removed := End(h, moves).lines[j], Known(h, moves).removed;
            && Shown(End(h, moves), l.sku) && ListedOnce(removed)
            && Removal(l.sku, l.baseline - Unrecorded(h, moves, j)) in removed
            && (Removal(l.sku, l.baseline) in removed <==> !Misstated(h, moves, j))
  {
    hide JustBooked, Possible, End, Believed, Known, Tracks, Alike, Misstated, Unrecorded, Shown, ListedOnce, SurvivorsTrue, RemovalsTrue;
    var cur, g, st := End(h, moves), Believed(h, moves), Known(h, moves);
    BelievedIsTracked(h, moves);
    BelievedShort(h, moves, j);
    MisstatedIs(h, moves, j);
    TrackedIsReported(g, st);
    OfferReported(cur, g, st.removed, j);
  }

  lemma {:induction false} OfferReported(h: History, g: History, removed: seq<Removal>, j: nat)
    requires Alike(h, g) && RemovalsTrue(g, removed) && j < |h.lines| && h.lines[j].DroppedOffer()
    ensures j < |g.lines| && Shown(h, h.lines[j].sku) && ListedOnce(removed)
    ensures Removal(h.lines[j].sku, g.lines[j].baseline) in removed
    ensures Removal(h.lines[j].sku, h.lines[j].baseline) in removed <==> h.lines[j].baseline == g.lines[j].baseline
  {
    assert AlikeLine(h.lines[j], g.lines[j]);
    forall i | 0 <= i < |h.lines| && h.lines[i].fate == Live ensures h.lines[i].sku != h.lines[j].sku {
      assert AlikeLine(h.lines[i], g.lines[i]);
    }
    OnlyEntry(removed, Removal(g.lines[j].sku, g.lines[j].baseline), h.lines[j].baseline);
  }

  lemma {:induction false} OnlyEntry(removed: seq<Removal>, x: Removal, qty: int)
    requires ListedOnce(removed) && x in removed
    ensures Removal(x.skuCode, qty) in removed <==> qty == x.qty
  {
  }

  // ---------------------------------------------------------------------------------------
  // The total
  // ---------------------------------------------------------------------------------------

  /** What the entries left out, line by line. */
  function UnrecordedAll(h: History, moves: seq<Move>, n: nat): (w: seq<int>)
    ensures |w| == n
  {
    seq(n, j requires 0 <= j < n => Unrecorded(h, moves, j))
  }

  lemma {:induction false} AskedShort(a: seq<Line>, b: seq<Line>, w: seq<int>)
    requires |a| == |b| == |w|
    requires forall j :: 0 <= j < |a| ==> AlikeLine(a[j], b[j]) && b[j].baseline == a[j].baseline - w[j]
    requires forall j :: 0 <= j < |a| ==> a[j].fate != DroppedByCustomer && (a[j].deskAdded ==> w[j] == 0)
    ensures HeldNow(b) == HeldNow(a) && AskedFor(b) == AskedFor(a) - Sum(w)
  {
    if a != [] {
      var n := |a| - 1;
      AskedShort(a[..n], b[..n], w[..n]);
      assert AlikeLine(a[n], b[n]);
    }
  }

  lemma {:induction false} RowsAlike(h: History, g: History, rows: seq<Row>, at: seq<nat>, indent: map<Sku, int>)
    requires Alike(h, g) && RowsMatch(h, rows, at, indent)
    ensures RowsMatch(g, rows, at, indent)
  {
    forall i | 0 <= i < |rows| ensures RowMatches(g, rows[i], at[i], indent) { AlikeRow(h, g, rows[i], at[i], indent); }
    forall j: nat | IsLive(g, j) ensures j in at { assert AlikeLine(h.lines[j], g.lines[j]) && IsLive(h, j); }
  }

  /** The Change total of a controller's trail: what the booking holds, less what was asked for, plus what the entries left out. */
  lemma {:induction false} TotalChangeWritten(h: History, moves: seq<Move>, rows: seq<Row>, at: seq<nat>, indent: map<Sku, int>)
    requires JustBooked(h) && Possible(h, moves) && RowsMatch(End(h, moves), rows, at, indent)
    ensures var st, lines := Known(h, moves), End(h, moves).lines;
            Sum(Column(LinesOf(rows, indent, st.origin) + RemovedLinesOf(st.removed, rows, indent), CHANGE))
            == HeldNow(lines) - AskedFor(lines) + Sum(UnrecordedAll(h, moves, |lines|))
  {
    var cur, g, st := End(h, moves), Believed(h, moves), Known(h, moves);
    BelievedIsTracked(h, moves);
    RowsAlike(cur, g, rows, at, indent);
    TotalChangeOf(g, st, rows, at, indent);
    var w := UnrecordedAll(h, moves, |cur.lines|);
    forall j | 0 <= j < |cur.lines|
      ensures AlikeLine(cur.lines[j], g.lines[j]) && g.lines[j].baseline == cur.lines[j].baseline - w[j]
      ensures cur.lines[j].fate != DroppedByCustomer && (cur.lines[j].deskAdded ==> w[j] == 0)
    {
      BelievedShort(h, moves, j);
      AddedStaysAdded(h, moves, j);
    }
    AskedShort(cur.lines, g.lines, w);
  }

  lemma {:induction false} DeskKeepsAsked(h: History, moves: seq<Move>)
    requires Possible(h, moves) && forall k :: 0 <= k < |moves| ==> moves[k].step.actor == Desk
    ensures AskedFor(End(h, moves).lines) == AskedFor(h.lines)
  {
    if moves != [] {
      DeskKeepsAsked(h, moves[..|moves| - 1]);
      DeskStepKeepsAskedFor(End(h, moves[..|moves| - 1]), moves[|moves| - 1].step);
    }
  }

  /** With edits of the desk only: the units held now less the units booked, plus what the entries left out. */
  lemma {:induction false} DeskOnlyTotal(h: History, moves: seq<Move>, rows: seq<Row>, at: seq<nat>, indent: map<Sku, int>)
    requires JustBooked(h) && Possible(h, moves) && RowsMatch(End(h, moves), rows, at, indent)
    requires forall k :: 0 <= k < |moves| ==> moves[k].step.actor == Desk
    ensures var st, lines := Known(h, moves), End(h, moves).lines;
            Sum(Column(LinesOf(rows, indent, st.origin) + RemovedLinesOf(st.removed, rows, indent), CHANGE))
            == HeldNow(lines) - HeldNow(h.lines) + Sum(UnrecordedAll(h, moves, |lines|))
  {
    TotalChangeWritten(h, moves, rows, at, indent);
    DeskKeepsAsked(h, moves);
    AskedForAtBooking(h.lines);
  }

  /** No line is confirmed beyond what it holds. */
  predicate SplitsWithin(h: History, moves: seq<Move>) {
    forall k, j :: 0 <= k < |moves| && 0 <= j < |h.lines| && Touches(moves[k], j) && Untouched(moves[..k], j) ==>
                     moves[k].confirmed <= h.lines[j].total
  }

  lemma {:induction false} NeverNegative(h: History, moves: seq<Move>, j: nat)
    requires SplitsWithin(h, moves)
    ensures Unrecorded(h, moves, j) >= 0
  {
    if moves != [] && j < |h.lines| {
      var n := |moves| - 1;
      var front := moves[..n];
      assert moves[..n] == front;
      forall k, i: nat | 0 <= k < |front| && i < |h.lines| && Touches(front[k], i) && Untouched(front[..k], i)
        ensures front[k].confirmed <= h.lines[i].total
      {
        assert front[k] == moves[k] && front[..k] == moves[..k];
      }
      assert SplitsWithin(h, front);
      NeverNegative(h, front, j);
      hide Untouched;
    }
  }

  lemma {:induction false} NoneLeftOut(w: seq<int>)
    requires forall j :: 0 <= j < |w| ==> w[j] >= 0
    ensures Sum(w) >= 0 && (Sum(w) == 0 <==> forall j :: 0 <= j < |w| ==> w[j] == 0)
  {
    if w != [] {
      var n := |w| - 1;
      NoneLeftOut(w[..n]);
      assert forall j :: 0 <= j < n ==> w[..n][j] == w[j];
    }
  }

  /** So the total is right exactly when no line is misstated. */
  lemma {:induction false} TotalTrueExactlyWhen(h: History, moves: seq<Move>, rows: seq<Row>, at: seq<nat>, indent: map<Sku, int>)
    requires JustBooked(h) && Possible(h, moves) && RowsMatch(End(h, moves), rows, at, indent) && SplitsWithin(h, moves)
    ensures var st, lines := Known(h, moves), End(h, moves).lines;
            var total := Sum(Column(LinesOf(rows, indent, st.origin) + RemovedLinesOf(st.removed, rows, indent), CHANGE));
            && total >= HeldNow(lines) - AskedFor(lines)
            && (total == HeldNow(lines) - AskedFor(lines) <==> forall j: nat :: !Misstated(h, moves, j))
  {
    TotalChangeWritten(h, moves, rows, at, indent);
    var n := |End(h, moves).lines|;
    var w := UnrecordedAll(h, moves, n);
    NoLines(h, moves);
    hide Possible, JustBooked, RowsMatch, Misstated;
    forall j: nat ensures Unrecorded(h, moves, j) >= 0 && (Unrecorded(h, moves, j) != 0 <==> Misstated(h, moves, j)) {
      NeverNegative(h, moves, j);
      MisstatedIs(h, moves, j);
    }
    NoneLeftOut(w);
    if forall j :: 0 <= j < |w| ==> w[j] == 0 {
      forall j: nat ensures !Misstated(h, moves, j) {
        if j < n { assert w[j] == 0; }
      }
    } else {
      var j :| 0 <= j < |w| && w[j] != 0;
      assert Misstated(h, moves, j);
    }
  }

  /** Line A, 5 confirmed and 10 on indent, re-coded to B by the desk with its 15 units: reported as 10 more. */
  lemma {:induction false} IndentedRecodeMisreports()
    ensures var h := History([Line("A", "A", 15, 15, false, Live)], map["A" := 0]);
            var moves := [Move(Step(Desk, RecodeLine(0, "B", 15)), 5)];
            && JustBooked(h) && Possible(h, moves) && Misstated(h, moves, 0)
            && LineOf(Row("B", None, 15, 15), map[], Known(h, moves).origin)
               == ReportLine("B", None, Some("A"), 15, 15, 0, 10, Recoded)
  {
    var h := History([Line("A", "A", 15, 15, false, Live)], map["A" := 0]);
    var m := Move(Step(Desk, RecodeLine(0, "B", 15)), 5);
    assert OwnsItsCode(h, 0);
    assert [m][..0] == [] && Possible(h, []) && Possible(h, [m]);
    assert FirstFindsIndent(h, [m], 0, 0);
    KnownNext(h, [m]);
    assert Known(h, []) == NOTHING;
    assert Known(h, [m]).origin == map["B" := Origin(5, false, Some("A"))];
  }
}
