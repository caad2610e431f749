/**
 * The change column of the booking mails: the audit trail of a booking is replayed forward to
 * recover what the sales desk changed (backend/utils/bookingJourney.js, buildChangeSummary).
 *
 * The first part is the replay and the report as the code computes them. The second part is a
 * history of the booking's lines that knows each line by identity; the theorems say when the
 * replay, which only sees SKU codes, recovers that history.
 */
module BookingReplay {
  import opened Options
  import opened Sums

  type Sku = string

  // ---------------------------------------------------------------------------------------
  // The audit trail
  // ---------------------------------------------------------------------------------------

  datatype Actor = Desk | Customer

  datatype ChangeKind = AddedLine | RemovedLine | RecodedLine | QuantityEdit | QuantitySplit

  datatype Change = Change(kind: ChangeKind, skuCode: Sku, fromSku: Sku, toSku: Sku,
                           fromQty: Option<int>, toQty: Option<int>)

  datatype EditLog = EditLog(actor: Actor, changes: seq<Change>)

  /** One change together with who made it: the logs flattened in order. */
  datatype Entry = Entry(actor: Actor, change: Change)

  function Tagged(actor: Actor, changes: seq<Change>): (r: seq<Entry>)
    ensures |r| == |changes|
  {
    seq(|changes|, i requires 0 <= i < |changes| => Entry(actor, changes[i]))
  }

  function Entries(logs: seq<EditLog>): seq<Entry> {
    if logs == [] then []
    else
      var last := logs[|logs| - 1];
      Entries(logs[..|logs| - 1]) + Tagged(last.actor, last.changes)
  }

  // ---------------------------------------------------------------------------------------
  // The replay
  // ---------------------------------------------------------------------------------------

  datatype Origin = Origin(qty: int, addedByDesk: bool, fromSku: Option<Sku>)

  /** An entry of the `removed` map. The map is iterated, so its insertion order is kept. */
  datatype Removal = Removal(skuCode: Sku, qty: int)

  function IndexOf(removed: seq<Removal>, sku: Sku): (i: nat)
    ensures i <= |removed|
    ensures i < |removed| ==> removed[i].skuCode == sku
    ensures forall j :: 0 <= j < i ==> removed[j].skuCode != sku
  {
    if removed == [] then 0
    else if removed[0].skuCode == sku then 0
    else 1 + IndexOf(removed[1..], sku)
  }

  function SetRemoval(removed: seq<Removal>, sku: Sku, qty: int): seq<Removal> {
    var i := IndexOf(removed, sku);
    if i < |removed| then removed[i := Removal(sku, qty)] else removed + [Removal(sku, qty)]
  }

  function DeleteRemoval(removed: seq<Removal>, sku: Sku): seq<Removal> {
    var i := IndexOf(removed, sku);
    if i < |removed| then removed[..i] + removed[i + 1..] else removed
  }

  datatype Replayed = Replayed(origin: map<Sku, Origin>, removed: seq<Removal>)

  const NOTHING := Replayed(map[], [])

  function ReplayByCustomer(st: Replayed, c: Change): Replayed {
    if c.kind == RemovedLine then st.(origin := st.origin - {c.skuCode})
    else
      var sku := if c.kind == RecodedLine then c.toSku else c.skuCode;
      var addedByDesk := sku in st.origin && st.origin[sku].addedByDesk;
      var fromSku := if sku in st.origin then st.origin[sku].fromSku else None;
      st.(origin := st.origin[sku := Origin(c.toQty.GetOr(0), addedByDesk, fromSku)])
  }

  function ReplayByDesk(st: Replayed, c: Change): Replayed {
    match c.kind
    case AddedLine =>
      Replayed(st.origin[c.skuCode := Origin(0, true, None)], DeleteRemoval(st.removed, c.skuCode))
    case RemovedLine =>
      var known := c.skuCode in st.origin;
      var removed :=
        if known && st.origin[c.skuCode].addedByDesk then st.removed
        else SetRemoval(st.removed, c.skuCode, if known then st.origin[c.skuCode].qty else c.fromQty.GetOr(0));
      Replayed(st.origin - {c.skuCode}, removed)
    case RecodedLine =>
      var prior := if c.fromSku in st.origin then st.origin[c.fromSku]
                   else Origin(c.fromQty.GetOr(0), false, Some(c.fromSku));
      var carried := prior.(fromSku := Some(prior.fromSku.GetOr(c.fromSku)));
      st.(origin := (st.origin - {c.fromSku})[c.toSku := carried])
    case _ =>
      if c.skuCode in st.origin then st
      else st.(origin := st.origin[c.skuCode := Origin(c.fromQty.GetOr(0), false, None)])
  }

  function ReplayEntry(st: Replayed, e: Entry): Replayed {
    if e.actor == Customer then ReplayByCustomer(st, e.change) else ReplayByDesk(st, e.change)
  }

  function Replay(entries: seq<Entry>): Replayed {
    if entries == [] then NOTHING
    else ReplayEntry(Replay(entries[..|entries| - 1]), entries[|entries| - 1])
  }

  // ---------------------------------------------------------------------------------------
  // The report
  // ---------------------------------------------------------------------------------------

  /** An order row as the report reads it; absent numbers read as zero. */
  datatype Row = Row(skuCode: Sku, msilCode: Option<string>, confirmedQty: int, bookedQty: int)

  datatype LineType = Added | Removed | Recoded | Increased | Reduced | Unchanged

  datatype ReportLine = ReportLine(skuCode: Sku, msilCode: Option<string>, fromSku: Option<Sku>,
                                   onPo: int, booked: int, indent: int, change: int, kind: LineType)

  datatype Summary = Summary(lines: seq<ReportLine>, changed: bool, totalOnPo: int, totalBooked: int,
                             totalChange: int, totalIndent: int)

  function QtyOf(indent: map<Sku, int>, sku: Sku): int {
    if sku in indent then indent[sku] else 0
  }

  function BySign(change: int): LineType {
    if change > 0 then Increased else if change < 0 then Reduced else Unchanged
  }

  function LineOf(r: Row, indent: map<Sku, int>, origin: map<Sku, Origin>): ReportLine {
    var open := QtyOf(indent, r.skuCode);
    var total := r.confirmedQty + open;
    var base := ReportLine(r.skuCode, r.msilCode, None, total, r.confirmedQty, open, 0, Unchanged);
    if r.skuCode !in origin then
      if r.bookedQty == 0 && r.confirmedQty > 0 then base.(change := total, kind := Added) else base
    else
      var o := origin[r.skuCode];
      if o.addedByDesk then base.(change := total, kind := Added)
      else
        var change := total - o.qty;
        // An empty code is falsy in the source and never reported.
        if o.fromSku.Some? && o.fromSku.value != "" && o.fromSku.value != r.skuCode then
          base.(fromSku := o.fromSku, change := change, kind := Recoded)
        else base.(change := change, kind := BySign(change))
  }

  function RemovedLineOf(x: Removal, indent: map<Sku, int>): ReportLine {
    ReportLine(x.skuCode, None, None, x.qty, 0, QtyOf(indent, x.skuCode), -x.qty, Removed)
  }

  function LinesOf(rows: seq<Row>, indent: map<Sku, int>, origin: map<Sku, Origin>): (r: seq<ReportLine>)
    ensures |r| == |rows|
  {
    seq(|rows|, i requires 0 <= i < |rows| => LineOf(rows[i], indent, origin))
  }

  ghost predicate Surviving(rows: seq<Row>, sku: Sku) {
    exists i :: 0 <= i < |rows| && rows[i].skuCode == sku
  }

  ghost function RemovedLinesOf(removed: seq<Removal>, rows: seq<Row>, indent: map<Sku, int>): seq<ReportLine> {
    if removed == [] then []
    else
      var n := |removed| - 1;
      RemovedLinesOf(removed[..n], rows, indent)
      + if Surviving(rows, removed[n].skuCode) then [] else [RemovedLineOf(removed[n], indent)]
  }

  function Column(lines: seq<ReportLine>, f: ReportLine -> int): (r: seq<int>)
    ensures |r| == |lines|
  {
    seq(|lines|, i requires 0 <= i < |lines| => f(lines[i]))
  }

  const CHANGE := (l: ReportLine) => l.change
  const ON_PO := (l: ReportLine) => l.onPo
  const BOOKED := (l: ReportLine) => l.booked
  const INDENT := (l: ReportLine) => l.indent

  lemma {:induction false} ColumnSnoc(lines: seq<ReportLine>, i: nat, f: ReportLine -> int)
    requires i < |lines|
    ensures Sum(Column(lines[..i + 1], f)) == Sum(Column(lines[..i], f)) + f(lines[i])
  {
    assert Column(lines[..i + 1], f)[..i] == Column(lines[..i], f);
  }

  /** Every code but this one holds what it held. */
  ghost predicate OnlyAt(before: map<Sku, Origin>, after: map<Sku, Origin>, sku: Sku) {
    && after.Keys + {sku} == before.Keys + {sku}
    && forall k :: k in before && k != sku ==> after[k] == before[k]
  }

  /** The code a line came from, as the report will give it: the first one on record, or this one. */
  function FirstCode(origin: map<Sku, Origin>, sku: Sku): Sku {
    if sku in origin then origin[sku].fromSku.GetOr(sku) else sku
  }

  /** The quantity a line is measured from: what is on record, or what the entry says it held. */
  function BaselineOf(origin: map<Sku, Origin>, sku: Sku, fromQty: Option<int>): int {
    if sku in origin then origin[sku].qty else fromQty.GetOr(0)
  }

  /**
   * One change of a customer's own edit, against the mutable `origin` map: one code is forgotten or
   * measured afresh; who added its line and where the line came from stay as they are on record.
   */
  method CustomerChange(origin: map<Sku, Origin>, c: Change) returns (o: map<Sku, Origin>)
    ensures var sku := if c.kind == RecodedLine then c.toSku else c.skuCode;
            && OnlyAt(origin, o, sku) && (sku in o <==> c.kind != RemovedLine)
            && (sku in o ==> && o[sku].qty == c.toQty.GetOr(0) && FirstCode(o, sku) == FirstCode(origin, sku)
                             && (o[sku].addedByDesk <==> sku in origin && origin[sku].addedByDesk))
    ensures forall removed :: Replayed(o, removed) == ReplayByCustomer(Replayed(origin, removed), c)
  {
    o := origin;
    if c.kind == RemovedLine {
      o := o - {c.skuCode};
      return;
    }
    var sku := if c.kind == RecodedLine then c.toSku else c.skuCode;
    if sku in o {
      o := o[sku := Origin(c.toQty.GetOr(0), o[sku].addedByDesk, o[sku].fromSku)];
    } else {
      o := o[sku := Origin(c.toQty.GetOr(0), false, None)];
    }
  }

  ghost predicate ListedOnce(removed: seq<Removal>) {
    forall i, j :: 0 <= i < j < |removed| ==> removed[i].skuCode != removed[j].skuCode
  }

  lemma {:induction false} RemovalDeleted(removed: seq<Removal>, sku: Sku)
    ensures forall x :: x in removed && x.skuCode != sku ==> x in DeleteRemoval(removed, sku)
    ensures ListedOnce(removed) ==> forall x :: x in DeleteRemoval(removed, sku) ==> x.skuCode != sku
  {
    var i := IndexOf(removed, sku);
    var r := DeleteRemoval(removed, sku);
    forall x | x in removed && x.skuCode != sku ensures x in r {
      var j :| 0 <= j < |removed| && removed[j] == x;
      assert if j < i then r[j] == x else i == |removed| || r[j - 1] == x;
    }
  }

  lemma {:induction false} RemovalSet(removed: seq<Removal>, sku: Sku, qty: int)
    ensures Removal(sku, qty) in SetRemoval(removed, sku, qty)
    ensures forall x :: x in removed && x.skuCode != sku ==> x in SetRemoval(removed, sku, qty)
  {
    var i := IndexOf(removed, sku);
    var r := SetRemoval(removed, sku, qty);
    assert r[i] == Removal(sku, qty);
    forall x | x in removed && x.skuCode != sku ensures x in r {
      var j :| 0 <= j < |removed| && removed[j] == x;
      assert r[j] == x;
    }
  }

  /**
   * One change made at the sales desk. A line added has no baseline of its own and is no removal any
   * more; a line removed is listed with its baseline unless the desk had added it; a re-code carries
   * baseline, adder and first code over to the new code and forgets the old; a first quantity edit
   * sets the baseline and a later one leaves it.
   */
  method DeskChange(origin: map<Sku, Origin>, removed: seq<Removal>, c: Change)
    returns (o: map<Sku, Origin>, r: seq<Removal>)
    ensures c.kind == AddedLine ==> OnlyAt(origin, o, c.skuCode) && c.skuCode in o && o[c.skuCode].addedByDesk
    ensures c.kind == AddedLine && ListedOnce(removed) ==> forall x :: x in r ==> x.skuCode != c.skuCode
    ensures c.kind == RemovedLine ==> OnlyAt(origin, o, c.skuCode) && c.skuCode !in o
    ensures c.kind == RemovedLine ==>
              if c.skuCode in origin && origin[c.skuCode].addedByDesk then r == removed
              else Removal(c.skuCode, BaselineOf(origin, c.skuCode, c.fromQty)) in r
    ensures c.kind == RecodedLine ==>
              && c.toSku in o && (c.fromSku != c.toSku ==> c.fromSku !in o)
              && o[c.toSku].qty == BaselineOf(origin, c.fromSku, c.fromQty)
              && FirstCode(o, c.toSku) == FirstCode(origin, c.fromSku)
              && (o[c.toSku].addedByDesk <==> c.fromSku in origin && origin[c.fromSku].addedByDesk)
              && forall k :: k != c.fromSku && k != c.toSku ==> (k in o <==> k in origin) && (k in o ==> o[k] == origin[k])
    ensures c.kind == QuantityEdit || c.kind == QuantitySplit ==>
              && c.skuCode in o && o[c.skuCode].qty == BaselineOf(origin, c.skuCode, c.fromQty)
              && OnlyAt(origin, o, c.skuCode) && (c.skuCode in origin ==> o == origin)
    ensures forall x :: x in removed && x.skuCode != c.skuCode ==> x in r
    ensures c.kind != AddedLine && c.kind != RemovedLine ==> r == removed
    ensures Replayed(o, r) == ReplayByDesk(Replayed(origin, removed), c)
  {
    o, r := origin, removed;
    RemovalSet(removed, c.skuCode, BaselineOf(origin, c.skuCode, c.fromQty));
    if c.kind == AddedLine {
      RemovalDeleted(removed, c.skuCode);
      o := o[c.skuCode := Origin(0, true, None)];
      r := DeleteRemoval(r, c.skuCode);
    } else if c.kind == RemovedLine {
      if c.skuCode !in o {
        r := SetRemoval(r, c.skuCode, c.fromQty.GetOr(0));
      } else if !o[c.skuCode].addedByDesk {
        r := SetRemoval(r, c.skuCode, o[c.skuCode].qty);
      }
      o := o - {c.skuCode};
    } else if c.kind == RecodedLine {
      var prior := if c.fromSku in o then o[c.fromSku]
                   else Origin(c.fromQty.GetOr(0), false, Some(c.fromSku));
      o := o - {c.fromSku};
      o := o[c.toSku := prior.(fromSku := Some(prior.fromSku.GetOr(c.fromSku)))];
    } else if c.skuCode !in o {
      o := o[c.skuCode := Origin(c.fromQty.GetOr(0), false, None)];
    }
  }

  lemma {:induction false} ReplaySnoc(before: seq<Entry>, actor: Actor, changes: seq<Change>, j: nat)
    requires j < |changes|
    ensures Replay(before + Tagged(actor, changes[..j + 1]))
            == ReplayEntry(Replay(before + Tagged(actor, changes[..j])), Entry(actor, changes[j]))
  {
    hide ReplayEntry;
    var upTo := before + Tagged(actor, changes[..j + 1]);
    assert upTo[..|upTo| - 1] == before + Tagged(actor, changes[..j]);
    assert upTo[|upTo| - 1] == Entry(actor, changes[j]);
  }

  /** The inner loop: the changes of one log entry. */
  method ReplayLog(log: EditLog, ghost before: seq<Entry>, o: map<Sku, Origin>, r: seq<Removal>)
    returns (origin: map<Sku, Origin>, removed: seq<Removal>)
    requires Replayed(o, r) == Replay(before)
    ensures Replayed(origin, removed) == Replay(before + Tagged(log.actor, log.changes))
  {
    hide ReplayByDesk, ReplayByCustomer, Replay;
    origin, removed := o, r;
    assert before + Tagged(log.actor, log.changes[..0]) == before;
    for j := 0 to |log.changes|
      invariant Replayed(origin, removed) == Replay(before + Tagged(log.actor, log.changes[..j]))
    {
      ReplaySnoc(before, log.actor, log.changes, j);
      if log.actor == Customer {
        origin := CustomerChange(origin, log.changes[j]);
      } else {
        origin, removed := DeskChange(origin, removed, log.changes[j]);
      }
    }
    assert log.changes[..|log.changes|] == log.changes;
  }

  /** The replay loop over the audit trail. */
  method ReplayLogs(editLogs: seq<EditLog>) returns (origin: map<Sku, Origin>, removed: seq<Removal>)
    ensures Replayed(origin, removed) == Replay(Entries(editLogs))
  {
    origin, removed := map[], [];
    for i := 0 to |editLogs|
      invariant Replayed(origin, removed) == Replay(Entries(editLogs[..i]))
    {
      origin, removed := ReplayLog(editLogs[i], Entries(editLogs[..i]), origin, removed);
      assert editLogs[..i + 1][..i] == editLogs[..i];
    }
    assert editLogs[..|editLogs|] == editLogs;
  }

  /** The table rows: surviving lines first, then what the desk removed. */
  method ReportLines(rows: seq<Row>, indent: map<Sku, int>, st: Replayed) returns (lines: seq<ReportLine>)
    ensures lines == LinesOf(rows, indent, st.origin) + RemovedLinesOf(st.removed, rows, indent)
  {
    hide LineOf, RemovedLineOf;
    lines := [];
    for i := 0 to |rows|
      invariant lines == LinesOf(rows[..i], indent, st.origin)
    {
      assert rows[..i + 1][..i] == rows[..i];
      lines := lines + [LineOf(rows[i], indent, st.origin)];
    }
    assert rows[..|rows|] == rows;
    var currentSkus := set i | 0 <= i < |rows| :: rows[i].skuCode;
    for i := 0 to |st.removed|
      invariant lines == LinesOf(rows, indent, st.origin) + RemovedLinesOf(st.removed[..i], rows, indent)
    {
      assert st.removed[..i + 1][..i] == st.removed[..i];
      if st.removed[i].skuCode !in currentSkus {
        lines := lines + [RemovedLineOf(st.removed[i], indent)];
      }
    }
    assert st.removed[..|st.removed|] == st.removed;
  }

  /** `sum(key)`: one column added up over the table. */
  method Total(lines: seq<ReportLine>, f: ReportLine -> int) returns (n: int)
    ensures n == Sum(Column(lines, f))
  {
    n := 0;
    for i := 0 to |lines|
      invariant n == Sum(Column(lines[..i], f))
    {
      ColumnSnoc(lines, i, f);
      n := n + f(lines[i]);
    }
    assert lines[..|lines|] == lines;
  }

  method AnyChanged(lines: seq<ReportLine>) returns (changed: bool)
    ensures changed <==> exists i :: 0 <= i < |lines| && lines[i].kind != Unchanged
  {
    for i := 0 to |lines|
      invariant forall k :: 0 <= k < i ==> lines[k].kind == Unchanged
    {
      if lines[i].kind != Unchanged {
        return true;
      }
    }
    return false;
  }

  /** The columns of the table, added up. */
  ghost predicate AddsUp(s: Summary) {
    && s.totalChange == Sum(seq(|s.lines|, i requires 0 <= i < |s.lines| => s.lines[i].change))
    && s.totalOnPo == Sum(seq(|s.lines|, i requires 0 <= i < |s.lines| => s.lines[i].onPo))
    && s.totalBooked == Sum(seq(|s.lines|, i requires 0 <= i < |s.lines| => s.lines[i].booked))
    && s.totalIndent == Sum(seq(|s.lines|, i requires 0 <= i < |s.lines| => s.lines[i].indent))
  }

  lemma {:induction false} ColumnsAddUp(s: Summary)
    requires s.totalChange == Sum(Column(s.lines, CHANGE)) && s.totalOnPo == Sum(Column(s.lines, ON_PO))
    requires s.totalBooked == Sum(Column(s.lines, BOOKED)) && s.totalIndent == Sum(Column(s.lines, INDENT))
    ensures AddsUp(s)
  {
    hide Sum;
    assert Column(s.lines, CHANGE) == seq(|s.lines|, i requires 0 <= i < |s.lines| => s.lines[i].change);
    assert Column(s.lines, ON_PO) == seq(|s.lines|, i requires 0 <= i < |s.lines| => s.lines[i].onPo);
    assert Column(s.lines, BOOKED) == seq(|s.lines|, i requires 0 <= i < |s.lines| => s.lines[i].booked);
    assert Column(s.lines, INDENT) == seq(|s.lines|, i requires 0 <= i < |s.lines| => s.lines[i].indent);
  }

  /**
   * A line no edit has touched shows no change; unless it was never booked and holds stock, which marks a
   * line of the desk whose entry is lost: that is all added.
   */
  lemma {:induction false} UneditedLine(r: Row, indent: map<Sku, int>, origin: map<Sku, Origin>)
    requires r.skuCode !in origin
    ensures var o, total := LineOf(r, indent, origin), r.confirmedQty + if r.skuCode in indent then indent[r.skuCode] else 0;
            && o.onPo == total && o.fromSku == None
            && (if r.bookedQty == 0 && r.confirmedQty > 0 then o.kind == Added && o.change == total
                else o.kind == Unchanged && o.change == 0)
  {
  }

  lemma {:induction false} ShownAreRemovals(removed: seq<Removal>, rows: seq<Row>, indent: map<Sku, int>, i: nat)
    requires i < |RemovedLinesOf(removed, rows, indent)|
    ensures var o := RemovedLinesOf(removed, rows, indent)[i]; !Surviving(rows, o.skuCode) && Removal(o.skuCode, -o.change) in removed
  {
    hide Surviving;
    var n := |removed| - 1;
    if i < |RemovedLinesOf(removed[..n], rows, indent)| { ShownAreRemovals(removed[..n], rows, indent, i); }
  }

  /** A removal is shown exactly when no row carries its code. */
  lemma {:induction false} RemovalShownExactlyWhen(removed: seq<Removal>, rows: seq<Row>, indent: map<Sku, int>, x: Removal)
    requires x in removed
    ensures !Surviving(rows, x.skuCode) <==>
            exists i :: 0 <= i < |RemovedLinesOf(removed, rows, indent)|
                        && RemovedLinesOf(removed, rows, indent)[i] == RemovedLineOf(x, indent)
  {
    hide Surviving;
    var lines := RemovedLinesOf(removed, rows, indent);
    if !Surviving(rows, x.skuCode) { var i := PlaceShown(removed, rows, indent, x); }
    if i :| 0 <= i < |lines| && lines[i] == RemovedLineOf(x, indent) { ShownAreRemovals(removed, rows, indent, i); }
  }

  lemma {:induction false} PlaceShown(removed: seq<Removal>, rows: seq<Row>, indent: map<Sku, int>, x: Removal) returns (i: nat)
    requires x in removed && !Surviving(rows, x.skuCode)
    ensures i < |RemovedLinesOf(removed, rows, indent)| && RemovedLinesOf(removed, rows, indent)[i] == RemovedLineOf(x, indent)
  {
    hide Surviving, RemovedLineOf;
    var n := |removed| - 1;
    if x == removed[n] {
      i := |RemovedLinesOf(removed[..n], rows, indent)|;
    } else {
      i := PlaceShown(removed[..n], rows, indent, x);
    }
  }

  method BuildChangeSummary(editLogs: seq<EditLog>, rows: seq<Row>, indentBySku: map<Sku, int>)
    returns (s: Summary)
    ensures s.lines == var st := Replay(Entries(editLogs));
              LinesOf(rows, indentBySku, st.origin) + RemovedLinesOf(st.removed, rows, indentBySku)
    ensures s.changed <==> exists i :: 0 <= i < |s.lines| && s.lines[i].kind != Unchanged
    ensures AddsUp(s)
  {
    hide Column, Sum, LinesOf, RemovedLinesOf, Replay, Entries, AddsUp;
    var origin, removed := ReplayLogs(editLogs);
    var lines := ReportLines(rows, indentBySku, Replayed(origin, removed));
    var changed := AnyChanged(lines);
    var onPo := Total(lines, ON_PO);
    var booked := Total(lines, BOOKED);
    var change := Total(lines, CHANGE);
    var indent := Total(lines, INDENT);
    s := Summary(lines, changed, onPo, booked, change, indent);
    ColumnsAddUp(s);
  }
}
