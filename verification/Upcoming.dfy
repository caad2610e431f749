/**
 * Upcoming stock: shipment lines that receive every increase of stock, earliest expected arrival
 * first (backend/modules/inventory/upcomingStock.service.js, backend/models/UpcomingShipment.js,
 * backend/models/UpcomingArrival.js).
 */
module Upcoming {
  import opened Options
  import opened Sums

  datatype ShipmentStatus = Open | PartiallyReceived | Received | Cancelled | Deleted

  datatype Line = Line(
    id: nat, eta: Option<int>, created: int, ordered: nat, received: nat, cancelledQty: nat,
    cancelled: bool, deleted: bool, status: ShipmentStatus)

  function Min(a: int, b: int): int { if a <= b then a else b }

  function Max(a: int, b: int): int { if a >= b then a else b }

  function Outstanding(l: Line): nat {
    Max(0, l.ordered - l.received - l.cancelledQty)
  }

  function StatusOf(l: Line): ShipmentStatus {
    if l.deleted then Deleted
    else if l.cancelled then Cancelled
    else if Outstanding(l) == 0 then Received
    else if l.received > 0 then PartiallyReceived else Open
  }

  /** A line's status follows from its marks, and else from what it has received of what is still expected. */
  lemma {:induction false} StatusExactlyWhen(l: Line)
    ensures (StatusOf(l) == Deleted <==> l.deleted) && (StatusOf(l) == Cancelled <==> l.cancelled && !l.deleted)
    ensures !l.deleted && !l.cancelled ==>
              && (StatusOf(l) == Received <==> l.received + l.cancelledQty >= l.ordered)
              && (StatusOf(l) == PartiallyReceived <==> 0 < l.received && l.received + l.cancelledQty < l.ordered)
              && (StatusOf(l) == Open <==> 0 == l.received && l.cancelledQty < l.ordered)
  {
  }

  predicate IsOpen(l: Line) {
    l.status == Open || l.status == PartiallyReceived
  }

  // ---------------------------------------------------------------------------------------
  // The order lines are filled in
  // ---------------------------------------------------------------------------------------

  /** byEta: dated lines first, then by creation, then by id. */
  predicate Before(a: Line, b: Line) {
    if a.eta != b.eta then a.eta.Some? && (b.eta.None? || a.eta.value < b.eta.value)
    else if a.created != b.created then a.created < b.created
    else a.id < b.id
  }

  ghost predicate Sorted(lines: seq<Line>) {
    forall i, j :: 0 <= i < j < |lines| ==> Before(lines[i], lines[j])
  }

  lemma {:induction false} BeforeIsTotal(a: Line, b: Line, c: Line)
    ensures !Before(a, a) && (Before(a, b) ==> !Before(b, a))
    ensures a.id != b.id ==> Before(a, b) || Before(b, a)
    ensures Before(a, b) && Before(b, c) ==> Before(a, c)
  {
  }

  /** However the lines come out of the database, sorting them has one result. */
  lemma {:induction false} OneArrangement(s: seq<Line>, t: seq<Line>)
    requires Sorted(s) && Sorted(t) && (forall l :: l in s <==> l in t)
    ensures s == t
  {
    if s == [] {
      assert forall i :: 0 <= i < |t| ==> t[i] in t;
    } else {
      assert s[0] in t;
      assert t[0] in s;
      FirstIsLeast(s, t[0]);
      FirstIsLeast(t, s[0]);
      BeforeIsTotal(s[0], t[0], t[0]);
      SortedTail(s);
      SortedTail(t);
      OneArrangement(s[1..], t[1..]);
      assert s == [s[0]] + s[1..] && t == [t[0]] + t[1..];
    }
  }

  lemma {:induction false} FirstIsLeast(s: seq<Line>, l: Line)
    requires Sorted(s) && l in s
    ensures l == s[0] || Before(s[0], l)
  {
  }

  lemma {:induction false} SortedTail(s: seq<Line>)
    requires s != [] && Sorted(s)
    ensures Sorted(s[1..]) && forall l :: l in s[1..] <==> l in s && l != s[0]
  {
    BeforeIsTotal(s[0], s[0], s[0]);
    assert forall i :: 0 < i < |s| ==> s[i] == s[1..][i - 1] && Before(s[0], s[i]);
  }

  // ---------------------------------------------------------------------------------------
  // One receipt
  // ---------------------------------------------------------------------------------------

  /** What a line can take of a receipt: nothing of stock that came before the line was recorded. */
  function Room(l: Line, at: int): nat {
    if l.created > at then 0 else Outstanding(l)
  }

  function RoomBefore(lines: seq<Line>, at: int, n: nat): nat
    requires n <= |lines|
  {
    if n == 0 then 0 else RoomBefore(lines, at, n - 1) + Room(lines[n - 1], at)
  }

  /** What line i takes: whatever the lines before it leave, as far as it has room. */
  function Take(lines: seq<Line>, q: nat, at: int, i: nat): (t: nat)
    requires i < |lines|
  {
    Min(Room(lines[i], at), Max(0, q - RoomBefore(lines, at, i)))
  }

  function Receive(l: Line, take: nat): Line {
    if take == 0 then l
    else
      var r := l.(received := l.received + take);
      r.(status := StatusOf(r))
  }

  function Filled(lines: seq<Line>, q: nat, at: int): (r: seq<Line>)
    ensures |r| == |lines| && forall i :: 0 <= i < |r| ==> r[i] == Receive(lines[i], Take(lines, q, at, i))
  {
    seq(|lines|, i requires 0 <= i < |lines| => Receive(lines[i], Take(lines, q, at, i)))
  }

  datatype Allocation = Allocation(shipment: nat, qty: nat)

  function Allocations(lines: seq<Line>, q: nat, at: int, n: nat): seq<Allocation>
    requires n <= |lines|
  {
    if n == 0 then []
    else
      var front, t := Allocations(lines, q, at, n - 1), Take(lines, q, at, n - 1);
      if t > 0 then front + [Allocation(lines[n - 1].id, t)] else front
  }

  /** With `left` units still to give, line i takes what it has room for, and the rest goes on. */
  lemma {:induction false} TakeStep(lines: seq<Line>, q: nat, at: int, i: nat, left: nat)
    requires i < |lines| && left == Max(0, q - RoomBefore(lines, at, i))
    ensures Take(lines, q, at, i) == Min(Room(lines[i], at), left)
    ensures Max(0, q - RoomBefore(lines, at, i + 1)) == left - Take(lines, q, at, i)
    ensures Min(q, RoomBefore(lines, at, i + 1)) == Min(q, RoomBefore(lines, at, i)) + Take(lines, q, at, i)
    ensures RoomBefore(lines, at, i + 1) == RoomBefore(lines, at, i) + Room(lines[i], at)
  {
    hide Room;
  }

  /** The source's loop over one movement, filling the lines in place. */
  method ApplyReceipt(lines: array<Line>, quantity: nat, at: int) returns (applied: nat, allocations: seq<Allocation>)
    modifies lines
    ensures lines[..] == Filled(old(lines[..]), quantity, at)
    ensures applied == Min(quantity, RoomBefore(old(lines[..]), at, lines.Length))
    ensures allocations == Allocations(old(lines[..]), quantity, at, lines.Length)
  {
    hide RoomBefore, Take, StatusOf, Filled;
    ghost var was := lines[..];
    var left := quantity;
    assert RoomBefore(was, at, 0) == 0 by { NoRoomYet(was, at); }
    allocations := [];
    var i := 0;
    while i < lines.Length && left > 0
      invariant 0 <= i <= lines.Length
      invariant left == Max(0, quantity - RoomBefore(was, at, i))
      invariant forall j :: 0 <= j < i ==> lines[j] == Receive(was[j], Take(was, quantity, at, j))
      invariant forall j :: i <= j < lines.Length ==> lines[j] == was[j]
      invariant allocations == Allocations(was, quantity, at, i)
    {
      TakeStep(was, quantity, at, i, left);
      var line := lines[i];
      if line.created <= at && Outstanding(line) > 0 {
        var take := Min(Outstanding(line), left);
        line := line.(received := line.received + take);
        line := line.(status := StatusOf(line));
        allocations := allocations + [Allocation(line.id, take)];
        left := left - take;
        lines[i] := line;
      }
      i := i + 1;
    }
    applied := quantity - left;
    NothingLeft(was, quantity, at, i);
    FilledIs(was, quantity, at, lines[..]);
  }

  lemma {:induction false} NoRoomYet(lines: seq<Line>, at: int)
    ensures RoomBefore(lines, at, 0) == 0
  {
  }

  lemma {:induction false} FilledIs(lines: seq<Line>, q: nat, at: int, filled: seq<Line>)
    requires |filled| == |lines| && forall i :: 0 <= i < |lines| ==> filled[i] == Receive(lines[i], Take(lines, q, at, i))
    ensures filled == Filled(lines, q, at)
  {
    hide Receive, Take;
  }

  lemma {:induction false} RoomGrows(lines: seq<Line>, at: int, i: nat, j: nat)
    requires i <= j <= |lines|
    ensures RoomBefore(lines, at, i) <= RoomBefore(lines, at, j)
    ensures i < j ==> RoomBefore(lines, at, i) + Room(lines[i], at) <= RoomBefore(lines, at, j)
  {
    if i + 1 < j {
      RoomGrows(lines, at, i, j - 1);
    }
  }

  lemma {:induction false} NothingLeft(lines: seq<Line>, q: nat, at: int, i: nat)
    requires i <= |lines| && (i == |lines| || q <= RoomBefore(lines, at, i))
    ensures forall j :: i <= j < |lines| ==> Take(lines, q, at, j) == 0
    ensures Allocations(lines, q, at, |lines|) == Allocations(lines, q, at, i)
    ensures i < |lines| ==> q <= RoomBefore(lines, at, |lines|)
    decreases |lines| - i
  {
    if i < |lines| {
      RoomGrows(lines, at, i, i + 1);
      NothingLeft(lines, q, at, i + 1);
      RoomGrows(lines, at, i, |lines|);
    }
  }

  /** Strictly first in, first out: a line that gets units has no eligible line before it left unfilled. */
  lemma {:induction false} EarlierLinesAreFull(lines: seq<Line>, q: nat, at: int, i: nat, j: nat)
    requires j < i < |lines| && Take(lines, q, at, i) > 0 && lines[j].created <= at
    ensures Outstanding(Filled(lines, q, at)[j]) == 0
  {
    RoomGrows(lines, at, j, i);
  }

  /** A receipt lowers what is outstanding on a line by what the line takes, and never raises it. */
  lemma {:induction false} FillLowers(lines: seq<Line>, q: nat, at: int, i: nat)
    requires i < |lines|
    ensures Outstanding(Filled(lines, q, at)[i]) == Outstanding(lines[i]) - Take(lines, q, at, i)
    ensures Room(Filled(lines, q, at)[i], at) == Room(lines[i], at) - Take(lines, q, at, i)
  {
  }

  lemma {:induction false} RoomAfter(lines: seq<Line>, q: nat, at: int, n: nat)
    requires n <= |lines|
    ensures RoomBefore(Filled(lines, q, at), at, n) == RoomBefore(lines, at, n) - Min(q, RoomBefore(lines, at, n))
  {
    hide Filled, Room, Take;
    if n > 0 {
      RoomAfter(lines, q, at, n - 1);
      FillLowers(lines, q, at, n - 1);
      TakeStep(lines, q, at, n - 1, Max(0, q - RoomBefore(lines, at, n - 1)));
    }
  }

  lemma {:induction false} ReceiveTwice(l: Line, a: nat, b: nat)
    ensures Receive(Receive(l, a), b) == Receive(l, a + b)
  {
  }

  /** Splitting a receipt makes no difference. */
  lemma {:induction false} SplitReceipt(lines: seq<Line>, q: nat, r: nat, at: int)
    ensures Filled(Filled(lines, q, at), r, at) == Filled(lines, q + r, at)
  {
    hide Outstanding, Room, Receive, StatusOf, Take;
    var once, twice, whole := Filled(lines, q, at), Filled(Filled(lines, q, at), r, at), Filled(lines, q + r, at);
    forall i | 0 <= i < |lines| ensures twice[i] == whole[i] {
      TakeTwice(lines, q, r, at, i);
      ReceiveTwice(lines[i], Take(lines, q, at, i), Take(once, r, at, i));
    }
    assert twice == whole;
  }

  lemma {:induction false} TakeTwice(lines: seq<Line>, q: nat, r: nat, at: int, i: nat)
    requires i < |lines|
    ensures Take(lines, q, at, i) + Take(Filled(lines, q, at), r, at, i) == Take(lines, q + r, at, i)
  {
    hide Room, Filled, RoomBefore;
    RoomAfter(lines, q, at, i);
    FillLowers(lines, q, at, i);
  }

  /** A receipt at another time does the same as long as the same lines can take of it. */
  lemma {:induction false} SameRoomSameFill(lines: seq<Line>, q: nat, a: int, b: int)
    requires forall i :: 0 <= i < |lines| ==> Room(lines[i], a) == Room(lines[i], b)
    ensures Filled(lines, q, a) == Filled(lines, q, b)
  {
    forall i | 0 <= i < |lines| ensures Filled(lines, q, a)[i] == Filled(lines, q, b)[i] {
      SameRoomBefore(lines, a, b, i);
    }
  }

  lemma {:induction false} SameRoomBefore(lines: seq<Line>, a: int, b: int, n: nat)
    requires n <= |lines| && forall i :: 0 <= i < n ==> Room(lines[i], a) == Room(lines[i], b)
    ensures RoomBefore(lines, a, n) == RoomBefore(lines, b, n)
  {
    if n > 0 {
      SameRoomBefore(lines, a, b, n - 1);
    }
  }

  // ---------------------------------------------------------------------------------------
  // Many receipts
  // ---------------------------------------------------------------------------------------

  datatype Receipt = Receipt(quantity: nat, at: int)

  function FillAll(lines: seq<Line>, rs: seq<Receipt>): (r: seq<Line>)
    ensures |r| == |lines|
  {
    if rs == [] then lines
    else Filled(FillAll(lines, rs[..|rs| - 1]), rs[|rs| - 1].quantity, rs[|rs| - 1].at)
  }

  function Quantities(rs: seq<Receipt>): nat {
    if rs == [] then 0 else Quantities(rs[..|rs| - 1]) + rs[|rs| - 1].quantity
  }

  /** Every line was on record before the stock came. */
  ghost predicate AllRecorded(lines: seq<Line>, rs: seq<Receipt>) {
    forall i, k :: 0 <= i < |lines| && 0 <= k < |rs| ==> lines[i].created <= rs[k].at
  }

  lemma {:induction false} FillsKeepCreation(lines: seq<Line>, rs: seq<Receipt>)
    ensures forall i :: 0 <= i < |lines| ==> FillAll(lines, rs)[i].created == lines[i].created
  {
    if rs != [] {
      FillsKeepCreation(lines, rs[..|rs| - 1]);
    }
  }

  /** Over lines on record throughout, only the total received matters: one receipt of it all. */
  lemma {:induction false} OnlyTheTotalMatters(lines: seq<Line>, rs: seq<Receipt>, at: int)
    requires AllRecorded(lines, rs) && forall i :: 0 <= i < |lines| ==> lines[i].created <= at
    ensures FillAll(lines, rs) == Filled(lines, Quantities(rs), at)
  {
    hide Take, Outstanding, StatusOf;
    if rs == [] {
      forall i | 0 <= i < |lines| ensures Filled(lines, 0, at)[i] == lines[i] { NothingTaken(lines, at, i); }
    } else {
      var n := |rs| - 1;
      OnlyTheTotalMatters(lines, rs[..n], at);
      FillsKeepCreation(lines, rs[..n]);
      SameRoomSameFill(FillAll(lines, rs[..n]), rs[n].quantity, rs[n].at, at);
      SplitReceipt(lines, Quantities(rs[..n]), rs[n].quantity, at);
    }
  }

  lemma {:induction false} NothingTaken(lines: seq<Line>, at: int, i: nat)
    requires i < |lines|
    ensures Take(lines, 0, at, i) == 0
  {
  }

  lemma {:induction false} ReorderingChangesNothing(lines: seq<Line>, rs: seq<Receipt>, ss: seq<Receipt>)
    requires AllRecorded(lines, rs) && AllRecorded(lines, ss) && Quantities(rs) == Quantities(ss)
    ensures FillAll(lines, rs) == FillAll(lines, ss)
  {
    hide FillAll, Filled, Quantities;
    if rs == [] && ss == [] {
    } else {
      var at := if rs != [] then rs[0].at else ss[0].at;
      OnlyTheTotalMatters(lines, rs, at);
      OnlyTheTotalMatters(lines, ss, at);
    }
  }

  // ---------------------------------------------------------------------------------------
  // Receipts that not every line was on record for
  // ---------------------------------------------------------------------------------------

  /** No line that only the later receipt can fill stands behind one that the earlier can fill. */
  ghost predicate NoLateAfterEarly(lines: seq<Line>, a: int, b: int) {
    forall i, j :: 0 <= i < j < |lines| && Room(lines[i], a) > 0 && Room(lines[j], b) > 0 ==> Room(lines[j], a) > 0
  }

  /** A receipt at a lowers the room of a later moment by as much as it takes. */
  lemma {:induction false} RoomLater(lines: seq<Line>, q: nat, a: int, b: int, n: nat)
    requires a <= b && n <= |lines|
    ensures RoomBefore(Filled(lines, q, a), b, n) == RoomBefore(lines, b, n) - Min(q, RoomBefore(lines, a, n))
  {
    hide Filled, Take;
    if n > 0 {
      RoomLater(lines, q, a, b, n - 1);
      FillLowersLater(lines, q, a, b, n - 1);
      TakeStep(lines, q, a, n - 1, Max(0, q - RoomBefore(lines, a, n - 1)));
    }
  }

  lemma {:induction false} FillLowersLater(lines: seq<Line>, q: nat, a: int, b: int, i: nat)
    requires a <= b && i < |lines|
    ensures Room(Filled(lines, q, a)[i], b) == Room(lines[i], b) - Take(lines, q, a, i)
  {
  }

  lemma {:induction false} FillLowersEarlier(lines: seq<Line>, r: nat, a: int, b: int, i: nat)
    requires a <= b && i < |lines|
    ensures Room(Filled(lines, r, b)[i], a) == if Room(lines[i], a) == 0 then 0 else Room(lines[i], a) - Take(lines, r, b, i)
    ensures Room(lines[i], a) > 0 ==> Room(lines[i], a) == Room(lines[i], b)
  {
  }

  /** Up to k only the later receipt finds room; from k on both find the same. */
  ghost predicate Divides(lines: seq<Line>, a: int, b: int, k: nat) {
    && k <= |lines| && (forall i :: 0 <= i < k ==> Room(lines[i], a) == 0)
    && (forall i :: k <= i < |lines| ==> Room(lines[i], a) == Room(lines[i], b))
  }

  lemma {:induction false} RoomFromDivide(lines: seq<Line>, a: int, b: int, k: nat, n: nat)
    requires Divides(lines, a, b, k) && n <= |lines|
    ensures n <= k ==> RoomBefore(lines, a, n) == 0
    ensures n >= k ==> RoomBefore(lines, b, n) == RoomBefore(lines, b, k) + RoomBefore(lines, a, n)
  {
    hide Room;
    if n > 0 {
      RoomFromDivide(lines, a, b, k, n - 1);
    }
  }

  lemma {:induction false} RoomEarlier(lines: seq<Line>, r: nat, a: int, b: int, k: nat, n: nat)
    requires a <= b && Divides(lines, a, b, k) && n <= |lines|
    ensures RoomBefore(Filled(lines, r, b), a, n) ==
            if n <= k then 0 else RoomBefore(lines, a, n) - (Min(r, RoomBefore(lines, b, n)) - Min(r, RoomBefore(lines, b, k)))
  {
    hide Filled, Take, Room;
    if n > 0 {
      RoomEarlier(lines, r, a, b, k, n - 1);
      FillLowersEarlier(lines, r, a, b, n - 1);
      TakeStep(lines, r, b, n - 1, Max(0, r - RoomBefore(lines, b, n - 1)));
      RoomFromDivide(lines, a, b, k, n - 1);
    }
  }

  lemma {:induction false} TakesCommute(lines: seq<Line>, q: nat, r: nat, a: int, b: int, k: nat, i: nat)
    requires a <= b && Divides(lines, a, b, k) && i < |lines|
    ensures Take(lines, q, a, i) + Take(Filled(lines, q, a), r, b, i) == Take(lines, r, b, i) + Take(Filled(lines, r, b), q, a, i)
  {
    hide Filled, Room, RoomBefore;
    RoomLater(lines, q, a, b, i);
    FillLowersLater(lines, q, a, b, i);
    RoomEarlier(lines, r, a, b, k, i);
    FillLowersEarlier(lines, r, a, b, i);
    RoomFromDivide(lines, a, b, k, i);
  }

  lemma {:induction false} DividedReceiptsCommute(lines: seq<Line>, q: nat, r: nat, a: int, b: int, k: nat)
    requires a <= b && Divides(lines, a, b, k)
    ensures Filled(Filled(lines, q, a), r, b) == Filled(Filled(lines, r, b), q, a)
  {
    hide Take, Receive, Room;
    var x, y := Filled(Filled(lines, q, a), r, b), Filled(Filled(lines, r, b), q, a);
    forall i | 0 <= i < |lines| ensures x[i] == y[i] {
      TakesCommute(lines, q, r, a, b, k, i);
      ReceiveTwice(lines[i], Take(lines, q, a, i), Take(Filled(lines, q, a), r, b, i));
      ReceiveTwice(lines[i], Take(lines, r, b, i), Take(Filled(lines, r, b), q, a, i));
    }
    assert x == y;
  }

  /** The first line the receipt at a finds room on. */
  function FirstRoom(lines: seq<Line>, a: int): (k: nat)
    ensures k <= |lines| && (forall i :: 0 <= i < k ==> Room(lines[i], a) == 0) && (k < |lines| ==> Room(lines[k], a) > 0)
  {
    if lines == [] || Room(lines[0], a) > 0 then 0
    else
      var k := FirstRoom(lines[1..], a);
      assert forall i :: 1 <= i < |lines| ==> lines[i] == lines[1..][i - 1];
      1 + k
  }

  lemma {:induction false} DividesAtFirst(lines: seq<Line>, a: int, b: int)
    requires a <= b && NoLateAfterEarly(lines, a, b)
    ensures Divides(lines, a, b, FirstRoom(lines, a))
  {
    hide Room, Filled, Take;
    var k := FirstRoom(lines, a);
    forall i | k <= i < |lines| ensures Room(lines[i], a) == Room(lines[i], b) {
      FillLowersEarlier(lines, 0, a, b, i);
      assert k < i && Room(lines[i], b) > 0 ==> Room(lines[i], a) > 0;
    }
  }

  lemma {:induction false} RoomApart(lines: seq<Line>, a: int, b: int, k: nat, j: nat, n: nat)
    requires a <= b && k < j < n <= |lines| && (forall i :: 0 <= i < k ==> Room(lines[i], a) == 0)
    requires Room(lines[j], a) == 0 && Room(lines[j], b) > 0
    ensures RoomBefore(lines, b, n) >= RoomBefore(lines, a, n) + RoomBefore(lines, b, k) + 1
  {
    RoomUpTo(lines, a, b, k, j);
    RoomGap(lines, a, b, j + 1, n);
  }

  lemma {:induction false} RoomGap(lines: seq<Line>, a: int, b: int, m: nat, n: nat)
    requires a <= b && m <= n <= |lines|
    ensures RoomBefore(lines, b, n) - RoomBefore(lines, a, n) >= RoomBefore(lines, b, m) - RoomBefore(lines, a, m)
  {
    if m < n {
      RoomGap(lines, a, b, m, n - 1);
    }
  }

  lemma {:induction false} RoomUpTo(lines: seq<Line>, a: int, b: int, k: nat, n: nat)
    requires a <= b && k <= n <= |lines| && forall i :: 0 <= i < k ==> Room(lines[i], a) == 0
    ensures RoomBefore(lines, b, n) >= RoomBefore(lines, a, n) + RoomBefore(lines, b, k)
    ensures RoomBefore(lines, a, k) == 0
  {
    if n > k {
      RoomUpTo(lines, a, b, k, n - 1);
    } else if n > 0 {
      RoomUpTo(lines, a, b, k - 1, n - 1);
    }
  }

  /** The later receipt comes first and takes one unit of what the earlier could have had. */
  lemma {:induction false} OneUnitGone(lines: seq<Line>, a: int, b: int, k: nat, n: nat)
    requires a <= b && k < |lines| && n <= |lines| && (forall i :: 0 <= i < k ==> Room(lines[i], a) == 0) && Room(lines[k], a) > 0
    ensures RoomBefore(Filled(lines, RoomBefore(lines, b, k) + 1, b), a, n) == RoomBefore(lines, a, n) - (if n > k then 1 else 0)
  {
    hide Filled, Room, Take;
    if n > 0 {
      OneUnitGone(lines, a, b, k, n - 1);
      var r := RoomBefore(lines, b, k) + 1;
      FillLowersEarlier(lines, r, a, b, n - 1);
      if n - 1 >= k { OneUnitTaken(lines, a, b, k, n - 1); }
    }
  }

  lemma {:induction false} OneUnitTaken(lines: seq<Line>, a: int, b: int, k: nat, i: nat)
    requires a <= b && k <= i < |lines| && Room(lines[k], a) > 0
    ensures Take(lines, RoomBefore(lines, b, k) + 1, b, i) == if i == k then 1 else 0
  {
    hide Room, RoomBefore;
    FillLowersEarlier(lines, 0, a, b, k);
    RoomGrows(lines, b, k, i);
  }

  lemma {:induction false} LateAfterEarlyDiffers(lines: seq<Line>, a: int, b: int, i: nat, j: nat)
    requires a <= b && i < j < |lines|
    requires Room(lines[i], a) > 0 && Room(lines[j], a) == 0 && Room(lines[j], b) > 0
    ensures exists q: nat, r: nat :: Filled(Filled(lines, q, a), r, b) != Filled(Filled(lines, r, b), q, a)
  {
    hide Filled, Room, RoomBefore, Take;
    var n, k := |lines|, FirstRoom(lines, a);
    var q, r := RoomBefore(lines, a, n), RoomBefore(lines, b, k) + 1;
    RoomApart(lines, a, b, k, j, n);
    RoomUpTo(lines, a, b, k, n);
    RoomLater(lines, q, a, b, n);
    RoomAfter(Filled(lines, q, a), r, b, n);
    RoomAfter(lines, r, b, n);
    OneUnitGone(lines, a, b, k, n);
    RoomLater(Filled(lines, r, b), q, a, b, n);
    assert RoomBefore(Filled(Filled(lines, q, a), r, b), b, n) != RoomBefore(Filled(Filled(lines, r, b), q, a), b, n);
  }

  /**
   * Two receipts can be taken in either order, whatever their quantities, exactly when no open line
   * recorded between them stands behind an open line recorded before them.
   */
  lemma {:induction false} SwappingExactlyWhen(lines: seq<Line>, a: int, b: int)
    requires a <= b
    ensures (forall q: nat, r: nat :: Filled(Filled(lines, q, a), r, b) == Filled(Filled(lines, r, b), q, a))
            <==> NoLateAfterEarly(lines, a, b)
  {
    hide Filled, Room;
    if NoLateAfterEarly(lines, a, b) {
      DividesAtFirst(lines, a, b);
      forall q: nat, r: nat ensures Filled(Filled(lines, q, a), r, b) == Filled(Filled(lines, r, b), q, a) {
        DividedReceiptsCommute(lines, q, r, a, b, FirstRoom(lines, a));
      }
    } else {
      var i, j :| 0 <= i < j < |lines| && Room(lines[i], a) > 0 && Room(lines[j], b) > 0 && Room(lines[j], a) == 0;
      LateAfterEarlyDiffers(lines, a, b, i, j);
    }
  }
}
