/**
 * The life of upcoming stock: lines recorded, edited and closed while the ledger's movements are
 * counted against them, each in one transaction under the SKU's lock
 * (backend/modules/inventory/upcomingStock.service.js, backend/models/UpcomingArrival.js).
 */
module UpcomingRuns {
  import opened Options
  import opened Sums
  import opened Upcoming

  /** One row per ledger movement: how much of it went to which lines. */
  datatype Arrival = Arrival(movement: nat, quantity: nat, applied: nat, allocations: seq<Allocation>)

  datatype State = State(lines: map<nat, Line>, arrivals: seq<Arrival>)

  datatype Step =
    | Record(id: nat, ordered: nat, eta: Option<int>, now: int)
    | Edit(id: nat, ordered: nat, eta: Option<int>)
    | Close(id: nat, delete: bool)
    | CountIn(movement: nat, quantity: nat, at: int, order: seq<nat>)

  function LinesAt(lines: map<nat, Line>, order: seq<nat>): (r: seq<Line>)
    requires forall i :: 0 <= i < |order| ==> order[i] in lines
    ensures |r| == |order| && forall i :: 0 <= i < |r| ==> r[i] == lines[order[i]]
  {
    seq(|order|, i requires 0 <= i < |order| => lines[order[i]])
  }

  /** The open lines, each once, earliest expected arrival first. */
  ghost predicate OpenInOrder(lines: map<nat, Line>, order: seq<nat>) {
    && Distinct(order) && (forall i :: 0 <= i < |order| ==> order[i] in lines)
    && (forall id :: id in lines && IsOpen(lines[id]) <==> id in order)
    && Sorted(LinesAt(lines, order))
  }

  function WriteBack(lines: map<nat, Line>, changed: seq<Line>): map<nat, Line> {
    if changed == [] then lines
    else
      var l := changed[|changed| - 1];
      WriteBack(lines, changed[..|changed| - 1])[l.id := l]
  }

  ghost predicate Counted(s: State, movement: nat) {
    exists k :: 0 <= k < |s.arrivals| && s.arrivals[k].movement == movement
  }

  function Arriving(s: State, movement: nat, quantity: nat, at: int, order: seq<nat>): State
    requires forall i :: 0 <= i < |order| ==> order[i] in s.lines
  {
    var open := LinesAt(s.lines, order);
    var arrival := Arrival(movement, quantity, Min(quantity, RoomBefore(open, at, |open|)), Allocations(open, quantity, at, |open|));
    State(WriteBack(s.lines, Filled(open, quantity, at)), s.arrivals + [arrival])
  }

  ghost function Next(s: State, step: Step): State {
    match step
    case Record(id, ordered, eta, now) =>
      if id in s.lines || ordered == 0 then s
      else s.(lines := s.lines[id := Line(id, eta, now, ordered, 0, 0, false, false, Open)])
    case Edit(id, ordered, eta) =>
      if id !in s.lines || !IsOpen(s.lines[id]) || ordered == 0 || ordered < s.lines[id].received then s
      else
        var l := s.lines[id].(ordered := ordered, eta := eta);
        s.(lines := s.lines[id := l.(status := StatusOf(l))])
    case Close(id, delete) =>
      if id !in s.lines || !IsOpen(s.lines[id]) then s
      else
        var l := s.lines[id];
        s.(lines := s.lines[id := l.(cancelledQty := l.cancelledQty + Outstanding(l), cancelled := true, deleted := delete,
                                     status := if delete then Deleted else Cancelled)])
    case CountIn(movement, quantity, at, order) =>
      if Counted(s, movement) || !OpenInOrder(s.lines, order) then s else Arriving(s, movement, quantity, at, order)
  }

  ghost function Run(steps: seq<Step>): State {
    if steps == [] then State(map[], []) else Next(Run(steps[..|steps| - 1]), steps[|steps| - 1])
  }

  /** A run goes on from where it stands. */
  lemma {:induction false} RunGoesOn(steps: seq<Step>, step: Step)
    ensures Run(steps + [step]) == Next(Run(steps), step)
  {
    hide Next;
    assert (steps + [step])[..|steps|] == steps;
  }

  // ---------------------------------------------------------------------------------------
  // Conservation
  // ---------------------------------------------------------------------------------------

  function AllocatedTo(allocations: seq<Allocation>, id: nat): nat {
    if allocations == [] then 0
    else
      var a := allocations[|allocations| - 1];
      AllocatedTo(allocations[..|allocations| - 1], id) + if a.shipment == id then a.qty else 0
  }

  function Allocated(allocations: seq<Allocation>): nat {
    if allocations == [] then 0
    else Allocated(allocations[..|allocations| - 1]) + allocations[|allocations| - 1].qty
  }

  function ArrivedFor(arrivals: seq<Arrival>, id: nat): nat {
    if arrivals == [] then 0
    else ArrivedFor(arrivals[..|arrivals| - 1], id) + AllocatedTo(arrivals[|arrivals| - 1].allocations, id)
  }

  /** What a line's status says of it. */
  predicate StatusSays(l: Line) {
    match l.status
    case Open => !l.deleted && !l.cancelled && l.received == 0 && l.cancelledQty == 0 < l.ordered
    case PartiallyReceived => !l.deleted && !l.cancelled && l.cancelledQty == 0 < l.received < l.ordered
    case Received => !l.deleted && !l.cancelled && l.received + l.cancelledQty == l.ordered
    case Cancelled => l.cancelled && !l.deleted && l.received + l.cancelledQty == l.ordered
    case Deleted => l.cancelled && l.deleted && l.received + l.cancelledQty == l.ordered
  }

  /** A line's quantities fit its order and its status describes them. */
  ghost predicate LineOk(id: nat, l: Line) {
    l.id == id && l.received + l.cancelledQty <= l.ordered && StatusSays(l)
  }

  ghost predicate Inv(s: State) {
    && (forall id :: id in s.lines ==> LineOk(id, s.lines[id]))
    && (forall id :: ArrivedFor(s.arrivals, id) == if id in s.lines then s.lines[id].received else 0)
    && (forall i, j :: 0 <= i < j < |s.arrivals| ==> s.arrivals[i].movement != s.arrivals[j].movement)
    && (forall i :: 0 <= i < |s.arrivals| ==>
          s.arrivals[i].applied == Allocated(s.arrivals[i].allocations) <= s.arrivals[i].quantity)
  }

  lemma {:induction false} WriteBackIs(lines: map<nat, Line>, changed: seq<Line>, id: nat)
    requires forall i, j :: 0 <= i < j < |changed| ==> changed[i].id != changed[j].id
    ensures (forall i :: 0 <= i < |changed| ==> changed[i].id != id) ==>
              (id in WriteBack(lines, changed) <==> id in lines) && (id in lines ==> WriteBack(lines, changed)[id] == lines[id])
    ensures forall i :: 0 <= i < |changed| && changed[i].id == id ==>
              id in WriteBack(lines, changed) && WriteBack(lines, changed)[id] == changed[i]
  {
    if changed != [] {
      WriteBackIs(lines, changed[..|changed| - 1], id);
    }
  }

  lemma {:induction false} AllocationsTo(lines: seq<Line>, q: nat, at: int, n: nat, id: nat)
    requires n <= |lines| && forall i, j :: 0 <= i < j < |lines| ==> lines[i].id != lines[j].id
    ensures (forall i :: 0 <= i < n ==> lines[i].id != id) ==> AllocatedTo(Allocations(lines, q, at, n), id) == 0
    ensures forall i :: 0 <= i < n && lines[i].id == id ==> AllocatedTo(Allocations(lines, q, at, n), id) == Take(lines, q, at, i)
  {
    hide Take;
    if n > 0 {
      AllocationsTo(lines, q, at, n - 1, id);
      var t := Take(lines, q, at, n - 1);
      var front := Allocations(lines, q, at, n - 1);
      AllocatedSnoc(front, Allocation(lines[n - 1].id, t), id);
    }
  }

  lemma {:induction false} AllocatedSnoc(front: seq<Allocation>, a: Allocation, id: nat)
    ensures AllocatedTo(front + [a], id) == AllocatedTo(front, id) + (if a.shipment == id then a.qty else 0)
    ensures Allocated(front + [a]) == Allocated(front) + a.qty
  {
    assert (front + [a])[..|front|] == front;
  }

  lemma {:induction false} AllocatedIs(lines: seq<Line>, q: nat, at: int, n: nat)
    requires n <= |lines|
    ensures Allocated(Allocations(lines, q, at, n)) == Min(q, RoomBefore(lines, at, n))
  {
    hide Take;
    if n > 0 {
      AllocatedIs(lines, q, at, n - 1);
      AllocatedSnoc(Allocations(lines, q, at, n - 1), Allocation(lines[n - 1].id, Take(lines, q, at, n - 1)), 0);
      TakeStep(lines, q, at, n - 1, Max(0, q - RoomBefore(lines, at, n - 1)));
    }
  }

  lemma {:induction false} ReceiveKeeps(l: Line, id: nat, take: nat)
    requires LineOk(id, l) && take <= Outstanding(l)
    ensures LineOk(id, Receive(l, take)) && Receive(l, take).received == l.received + take
  {
  }

  lemma {:induction false} TakeFits(lines: seq<Line>, q: nat, at: int, i: nat)
    requires i < |lines|
    ensures Take(lines, q, at, i) <= Outstanding(lines[i])
  {
  }

  lemma {:induction false} FilledOk(open: seq<Line>, q: nat, at: int, i: nat)
    requires i < |open| && LineOk(open[i].id, open[i])
    ensures var f := Filled(open, q, at)[i];
            f.id == open[i].id && LineOk(f.id, f) && f.received == open[i].received + Take(open, q, at, i)
  {
    hide Take, LineOk;
    TakeFits(open, q, at, i);
    ReceiveKeeps(open[i], open[i].id, Take(open, q, at, i));
    assert LineOk(open[i].id, Receive(open[i], Take(open, q, at, i)));
    SameId(open[i].id, Filled(open, q, at)[i]);
  }

  lemma {:induction false} SameId(id: nat, l: Line)
    requires LineOk(id, l)
    ensures l.id == id
  {
  }

  lemma {:induction false} OpenIds(lines: map<nat, Line>, order: seq<nat>)
    requires OpenInOrder(lines, order) && forall id :: id in lines ==> LineOk(id, lines[id])
    ensures var open := LinesAt(lines, order);
            && (forall i :: 0 <= i < |open| ==> open[i].id == order[i] && LineOk(open[i].id, open[i]))
            && (forall i, j :: 0 <= i < j < |open| ==> open[i].id != open[j].id)
  {
    hide Sorted, IsOpen, StatusOf, Outstanding;
  }

  lemma {:induction false} ArrivedSnoc(arrivals: seq<Arrival>, a: Arrival, id: nat)
    ensures ArrivedFor(arrivals + [a], id) == ArrivedFor(arrivals, id) + AllocatedTo(a.allocations, id)
  {
    assert (arrivals + [a])[..|arrivals|] == arrivals;
  }

  /** What a receipt over lines with distinct ids does to the line at i, and to any line not among them. */
  lemma {:induction false} WrittenLine(lines: map<nat, Line>, open: seq<Line>, q: nat, at: int, id: nat)
    requires forall i :: 0 <= i < |open| ==> LineOk(open[i].id, open[i])
    requires forall i, j :: 0 <= i < j < |open| ==> open[i].id != open[j].id
    ensures var t, got := WriteBack(lines, Filled(open, q, at)), AllocatedTo(Allocations(open, q, at, |open|), id);
            && ((forall i :: 0 <= i < |open| ==> open[i].id != id) ==>
                  got == 0 && (id in t <==> id in lines) && (id in lines ==> t[id] == lines[id]))
            && (forall i :: 0 <= i < |open| && open[i].id == id ==>
                  id in t && LineOk(id, t[id]) && t[id].received == open[i].received + got)
  {
    hide Take, LineOk, WriteBack, Allocations, AllocatedTo;
    var filled := Filled(open, q, at);
    forall i | 0 <= i < |open|
      ensures filled[i].id == open[i].id && LineOk(filled[i].id, filled[i])
      ensures filled[i].received == open[i].received + Take(open, q, at, i)
    {
      FilledOk(open, q, at, i);
    }
    WriteBackIs(lines, filled, id);
    AllocationsTo(open, q, at, |open|, id);
  }

  /** What counting one movement does to one line. */
  lemma {:induction false} LineAfter(s: State, movement: nat, quantity: nat, at: int, order: seq<nat>, id: nat)
    requires Inv(s) && OpenInOrder(s.lines, order)
    ensures var t := Arriving(s, movement, quantity, at, order);
            && (id in t.lines <==> id in s.lines)
            && (id in t.lines ==> LineOk(id, t.lines[id]))
            && ArrivedFor(t.arrivals, id) == if id in t.lines then t.lines[id].received else 0
  {
    hide LineOk, ArrivedFor, Sorted, Arriving;
    var open := LinesAt(s.lines, order);
    OpenIds(s.lines, order);
    assert id in order ==> exists i :: 0 <= i < |open| && open[i].id == id && open[i] == s.lines[id];
    assert id in order ==> id in s.lines;
    var t := Arriving(s, movement, quantity, at, order);
    hide Inv, OpenInOrder;
    ArrivingIs(s, movement, quantity, at, order, id);
    WrittenLine(s.lines, open, quantity, at, id);
  }

  lemma {:induction false} ArrivingIs(s: State, movement: nat, quantity: nat, at: int, order: seq<nat>, id: nat)
    requires forall i :: 0 <= i < |order| ==> order[i] in s.lines
    ensures var open, t := LinesAt(s.lines, order), Arriving(s, movement, quantity, at, order);
            && t.lines == WriteBack(s.lines, Filled(open, quantity, at))
            && ArrivedFor(t.arrivals, id) == ArrivedFor(s.arrivals, id) + AllocatedTo(Allocations(open, quantity, at, |open|), id)
  {
    hide Filled, RoomBefore, WriteBack, Allocations, AllocatedTo;
    var t := Arriving(s, movement, quantity, at, order);
    ArrivedSnoc(s.arrivals, t.arrivals[|s.arrivals|], id);
  }

  lemma {:induction false} CountInKeeps(s: State, movement: nat, quantity: nat, at: int, order: seq<nat>)
    requires Inv(s) && OpenInOrder(s.lines, order) && !Counted(s, movement)
    ensures Inv(Arriving(s, movement, quantity, at, order))
  {
    hide LineOk, ArrivedFor, WriteBack, Filled, RoomBefore, Sorted;
    var t := Arriving(s, movement, quantity, at, order);
    forall id ensures && (id in t.lines ==> LineOk(id, t.lines[id]))
                      && ArrivedFor(t.arrivals, id) == if id in t.lines then t.lines[id].received else 0
    {
      LineAfter(s, movement, quantity, at, order, id);
    }
    AllocatedIs(LinesAt(s.lines, order), quantity, at, |order|);
  }

  lemma {:induction false} StepKeeps(s: State, step: Step)
    requires Inv(s)
    ensures Inv(Next(s, step))
  {
    hide ArrivedFor, Arriving, OpenInOrder;
    if step.CountIn? && !Counted(s, step.movement) && OpenInOrder(s.lines, step.order) {
      CountInKeeps(s, step.movement, step.quantity, step.at, step.order);
    }
  }

  /**
   * In every run each movement is counted once, each arrival went to lines unit by unit and never
   * beyond its quantity, each line has received exactly what the arrivals allocated to it, its
   * quantities stay within its order, and its status says what they say.
   */
  lemma {:induction false} ArrivalsConserved(steps: seq<Step>)
    ensures var s := Run(steps);
            && Inv(s) && forall id :: id in s.lines ==> s.lines[id].received == ArrivedFor(s.arrivals, id)
  {
    if steps != [] {
      ArrivalsConserved(steps[..|steps| - 1]);
      StepKeeps(Run(steps[..|steps| - 1]), steps[|steps| - 1]);
    }
  }

  /** Looking at a movement again, as the lookback does, changes nothing. */
  lemma {:induction false} CountedOnce(s: State, movement: nat, quantity: nat, at: int, order: seq<nat>, again: seq<nat>)
    ensures var t := Next(s, CountIn(movement, quantity, at, order));
            OpenInOrder(s.lines, order) ==> Next(t, CountIn(movement, quantity, at, again)) == t
  {
    hide OpenInOrder, WriteBack, Filled;
    var t := Next(s, CountIn(movement, quantity, at, order));
    if OpenInOrder(s.lines, order) && !Counted(s, movement) {
      assert t.arrivals[|s.arrivals|].movement == movement;
    }
  }

  // ---------------------------------------------------------------------------------------
  // Who gets the units
  // ---------------------------------------------------------------------------------------

  /** The line waits for stock, and was on record when the stock arrived. */
  predicate Waits(l: Line, at: int) {
    (l.status == Open || l.status == PartiallyReceived) && l.created <= at
  }

  predicate Full(l: Line) {
    l.received + l.cancelledQty == l.ordered
  }

  /** An earlier expected date, or a date at all; for the same expectation, on record earlier; for the same moment, the id. */
  predicate DueBefore(a: Line, b: Line) {
    || (a.eta.Some? && b.eta.None?)
    || (a.eta.Some? && b.eta.Some? && a.eta.value < b.eta.value)
    || (a.eta == b.eta && (a.created < b.created || (a.created == b.created && a.id < b.id)))
  }

  lemma {:induction false} PlaceOf(s: State, order: seq<nat>, id: nat) returns (i: nat)
    requires Inv(s) && OpenInOrder(s.lines, order) && id in s.lines
    requires s.lines[id].status == Open || s.lines[id].status == PartiallyReceived
    ensures i < |order| && order[i] == id && LinesAt(s.lines, order)[i] == s.lines[id] && s.lines[id].id == id
  {
    hide Sorted;
    assert IsOpen(s.lines[id]) && id in order;
    i :| 0 <= i < |order| && order[i] == id;
  }

  lemma {:induction false} NotInOrder(lines: map<nat, Line>, order: seq<nat>, id: nat)
    requires OpenInOrder(lines, order) && id in lines && lines[id].status != Open && lines[id].status != PartiallyReceived
    ensures id !in order
  {
  }

  /** The line as the loop leaves it. */
  lemma {:induction false} LineBecomes(s: State, movement: nat, quantity: nat, at: int, order: seq<nat>, id: nat)
    requires Inv(s) && OpenInOrder(s.lines, order) && id in s.lines
    ensures var t, open := Arriving(s, movement, quantity, at, order), LinesAt(s.lines, order);
            && id in t.lines && (id !in order ==> t.lines[id] == s.lines[id])
            && forall i: nat :: i < |order| && order[i] == id ==>
                 t.lines[id] == Filled(open, quantity, at)[i] == Receive(s.lines[id], Take(open, quantity, at, i))
  {
    hide Sorted, Take, Receive, StatusSays, ArrivedFor, RoomBefore, Allocations;
    var open := LinesAt(s.lines, order);
    OpenIds(s.lines, order);
    var filled := Filled(open, quantity, at);
    forall i | 0 <= i < |open| ensures filled[i].id == open[i].id == order[i] { FilledOk(open, quantity, at, i); }
    hide Inv, Filled;
    WriteBackIs(s.lines, filled, id);
  }

  /** Counting a movement gives a line that waits some units, and does nothing to any other. */
  lemma {:induction false} OnlyWaitingLinesReceive(s: State, movement: nat, quantity: nat, at: int, order: seq<nat>, id: nat)
    requires Inv(s) && OpenInOrder(s.lines, order) && !Counted(s, movement) && id in s.lines
    ensures var t := Next(s, CountIn(movement, quantity, at, order));
            && id in t.lines && t.lines[id] == s.lines[id].(received := t.lines[id].received, status := t.lines[id].status)
            && t.lines[id].received >= s.lines[id].received
            && (!Waits(s.lines[id], at) || t.lines[id].received == s.lines[id].received ==> t.lines[id] == s.lines[id])
  {
    hide Inv, OpenInOrder, StatusOf, RoomBefore, Arriving;
    LineBecomes(s, movement, quantity, at, order, id);
    if s.lines[id].status == Open || s.lines[id].status == PartiallyReceived {
      var i := PlaceOf(s, order, id);
    } else {
      NotInOrder(s.lines, order, id);
    }
  }

  /**
   * And units go to a line only when every waiting line due before it is full: one expected earlier, one
   * with a date before one without, and of the same expectation the one on record first.
   */
  lemma {:induction false} EarliestDueFirst(s: State, movement: nat, quantity: nat, at: int, order: seq<nat>, first: nat, later: nat)
    requires Inv(s) && OpenInOrder(s.lines, order) && !Counted(s, movement) && first in s.lines && later in s.lines
    requires Waits(s.lines[first], at) && DueBefore(s.lines[first], s.lines[later])
    ensures var t := Next(s, CountIn(movement, quantity, at, order));
            && first in t.lines && later in t.lines
            && (t.lines[later].received > s.lines[later].received ==> Full(t.lines[first]))
  {
    hide Inv, StatusOf, RoomBefore, Arriving, StatusSays;
    var open := LinesAt(s.lines, order);
    hide OpenInOrder;
    LineBecomes(s, movement, quantity, at, order, first);
    LineBecomes(s, movement, quantity, at, order, later);
    OnlyWaitingLinesReceive(s, movement, quantity, at, order, later);
    if Waits(s.lines[later], at) {
      var i := PlaceOf(s, order, first);
      var j := PlaceOf(s, order, later);
      InOrder(s.lines, order, i, j);
      if Take(open, quantity, at, j) > 0 {
        EarlierLinesAreFull(open, quantity, at, j, i);
        FullIs(s, movement, quantity, at, order, first);
      }
    }
  }

  lemma {:induction false} InOrder(lines: map<nat, Line>, order: seq<nat>, i: nat, j: nat)
    requires OpenInOrder(lines, order) && i < |order| && j < |order| && DueBefore(lines[order[i]], lines[order[j]])
    ensures i < j
  {
    var open := LinesAt(lines, order);
    assert j < i ==> Before(open[j], open[i]);
  }

  lemma {:induction false} FullIs(s: State, movement: nat, quantity: nat, at: int, order: seq<nat>, id: nat)
    requires Inv(s) && OpenInOrder(s.lines, order) && !Counted(s, movement)
    ensures var t := Arriving(s, movement, quantity, at, order);
            id in t.lines && Outstanding(t.lines[id]) == 0 ==> Full(t.lines[id])
  {
    hide OpenInOrder, Arriving, ArrivedFor, StatusSays;
    CountInKeeps(s, movement, quantity, at, order);
  }

  /** Nothing is held back: when part of a movement went nowhere, no line that waited for it is left short. */
  lemma {:induction false} NothingHeldBack(s: State, movement: nat, quantity: nat, at: int, order: seq<nat>, id: nat)
    requires Inv(s) && OpenInOrder(s.lines, order) && !Counted(s, movement) && id in s.lines && Waits(s.lines[id], at)
    ensures var t := Next(s, CountIn(movement, quantity, at, order));
            && |t.arrivals| == |s.arrivals| + 1 && t.arrivals[|s.arrivals|].quantity == quantity && id in t.lines
            && (t.arrivals[|s.arrivals|].applied < quantity ==> Full(t.lines[id]))
  {
    hide Inv, StatusSays, StatusOf, Receive, RoomBefore, Filled;
    var open := LinesAt(s.lines, order);
    hide OpenInOrder;
    LineBecomes(s, movement, quantity, at, order, id);
    FullIs(s, movement, quantity, at, order, id);
    AppliedIs(s, movement, quantity, at, order);
    var i := PlaceOf(s, order, id);
    if Min(quantity, RoomBefore(open, at, |open|)) < quantity { LastTakesAll(open, quantity, at, i); }
  }

  lemma {:induction false} AppliedIs(s: State, movement: nat, quantity: nat, at: int, order: seq<nat>)
    requires OpenInOrder(s.lines, order) && !Counted(s, movement)
    ensures var t, open := Next(s, CountIn(movement, quantity, at, order)), LinesAt(s.lines, order);
            && t == Arriving(s, movement, quantity, at, order) && |t.arrivals| == |s.arrivals| + 1
            && t.arrivals[|s.arrivals|].quantity == quantity
            && t.arrivals[|s.arrivals|].applied == Min(quantity, RoomBefore(open, at, |open|))
  {
    hide RoomBefore, Sorted;
  }

  lemma {:induction false} LastTakesAll(lines: seq<Line>, q: nat, at: int, i: nat)
    requires i < |lines| && lines[i].created <= at && Min(q, RoomBefore(lines, at, |lines|)) < q
    ensures Outstanding(Filled(lines, q, at)[i]) == 0
  {
    hide Filled, Receive;
    RoomGrows(lines, at, i, |lines|);
    FillLowers(lines, q, at, i);
  }

  // ---------------------------------------------------------------------------------------
  // Lines recorded, edited and closed
  // ---------------------------------------------------------------------------------------

  ghost predicate OnlyLine(s: State, t: State, id: nat) {
    && t.arrivals == s.arrivals && t.lines.Keys == s.lines.Keys + {id}
    && forall k :: k in s.lines && k != id ==> t.lines[k] == s.lines[k]
  }

  /** A new line is expected in full, and nothing has come of it. */
  lemma {:induction false} RecordedIsExpected(s: State, id: nat, ordered: nat, eta: Option<int>, now: int)
    requires id !in s.lines && ordered > 0
    ensures var t := Next(s, Record(id, ordered, eta, now));
            && OnlyLine(s, t, id) && Waits(t.lines[id], now) && t.lines[id].eta == eta && t.lines[id].created == now
            && Outstanding(t.lines[id]) == ordered && t.lines[id].received == 0
  {
  }

  /** An edit of a line that waits goes through exactly when it orders something and no less than has come. */
  lemma {:induction false} EditedExactlyWhen(s: State, id: nat, ordered: nat, eta: Option<int>)
    requires Inv(s) && id in s.lines
    ensures var t, l := Next(s, Edit(id, ordered, eta)), s.lines[id];
            if (l.status == Open || l.status == PartiallyReceived) && 0 < ordered && l.received <= ordered then
              && OnlyLine(s, t, id) && t.lines[id].ordered == ordered && t.lines[id].eta == eta
              && t.lines[id] == l.(ordered := ordered, eta := eta, status := t.lines[id].status)
              && Outstanding(t.lines[id]) == ordered - l.received
            else t == s
  {
    hide ArrivedFor;
  }

  /** Closing a line that waits keeps what has come and expects no more. */
  lemma {:induction false} ClosedExactlyWhen(s: State, id: nat, delete: bool)
    requires Inv(s) && id in s.lines
    ensures var t, l := Next(s, Close(id, delete)), s.lines[id];
            if l.status == Open || l.status == PartiallyReceived then
              && OnlyLine(s, t, id) && t.lines[id].received == l.received && Full(t.lines[id])
              && t.lines[id].status == (if delete then Deleted else Cancelled)
              && t.lines[id].ordered == l.ordered && t.lines[id].eta == l.eta && t.lines[id].created == l.created
            else t == s
  {
    hide ArrivedFor;
  }
}
