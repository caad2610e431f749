/**
 * The live indent balance of bookings: one batched query against the simple per-booking lookup
 * (backend/utils/bookingJourney.js, indentIdFor, openIndentsByOrder, openIndentBySku).
 */
module OpenIndents {
  import opened Sums

  type Sku = string
  type OrderId = string

  // ---------------------------------------------------------------------------------------
  // Indent numbers
  // ---------------------------------------------------------------------------------------

  predicate IsUpper(c: char) {
    'A' <= c <= 'Z'
  }

  predicate AllUpper(s: string) {
    forall i :: 0 <= i < |s| ==> IsUpper(s[i])
  }

  /** How many capital letters the id starts with. */
  function LeadingCapitals(s: string): (n: nat)
    ensures n <= |s| && AllUpper(s[..n])
    ensures n < |s| ==> !IsUpper(s[n])
  {
    if s != [] && IsUpper(s[0]) then 1 + LeadingCapitals(s[1..]) else 0
  }

  /** The pattern `^[A-Z]+-`, replaced by `PI-`. */
  function IndentIdFor(id: OrderId): string {
    var n := LeadingCapitals(id);
    if 0 < n < |id| && id[n] == '-' then "PI-" + id[n + 1..] else id
  }

  lemma {:induction false} LeadingCapitalsOf(prefix: string, rest: string)
    requires AllUpper(prefix)
    ensures LeadingCapitals(prefix + "-" + rest) == |prefix|
  {
    var s := prefix + "-" + rest;
    if prefix != [] {
      assert s[1..] == prefix[1..] + "-" + rest;
      LeadingCapitalsOf(prefix[1..], rest);
    }
  }

  lemma {:induction false} IndentIdOf(prefix: string, rest: string)
    requires AllUpper(prefix) && prefix != ""
    ensures IndentIdFor(prefix + "-" + rest) == "PI-" + rest
  {
    LeadingCapitalsOf(prefix, rest);
  }

  /**
   * Two prefixed bookings share an indent number exactly when their sequence numbers agree: never
   * under one common prefix, always for BO-x beside SO-x.
   */
  lemma {:induction false} IndentIdsShared(p: string, x: string, q: string, y: string)
    requires AllUpper(p) && p != "" && AllUpper(q) && q != ""
    ensures IndentIdFor(p + "-" + x) == IndentIdFor(q + "-" + y) <==> x == y
    ensures p == q ==> (IndentIdFor(p + "-" + x) == IndentIdFor(q + "-" + y) <==> p + "-" + x == q + "-" + y)
  {
    IndentIdOf(p, x);
    IndentIdOf(q, y);
    assert ("PI-" + x)[3..] == x && ("PI-" + y)[3..] == y;
    if p == q && p + "-" + x == q + "-" + y {
      assert (p + "-" + x)[|p| + 1..] == x;
    }
  }

  // ---------------------------------------------------------------------------------------
  // Reservations
  // ---------------------------------------------------------------------------------------

  datatype Status = Draft | Reserved | Confirmed | Pending | PartiallyConfirmed | Expired | Cancelled
                  | Processing | Completed

  /** `indentNumber` is null on a reservation that is no indent; modelled as the empty string. */
  datatype Reservation = Reservation(indentNumber: string, skuCode: Sku, quantity: int, status: Status)

  predicate Open(r: Reservation) {
    r.status == Pending || r.status == PartiallyConfirmed
  }

  predicate OpenOn(r: Reservation, number: string) {
    Open(r) && r.indentNumber == number
  }

  /** The open quantity of one SKU on one indent: the meaning of an entry of the result. */
  function OpenQty(rows: seq<Reservation>, number: string, sku: Sku): int {
    if rows == [] then 0
    else
      var r := rows[|rows| - 1];
      OpenQty(rows[..|rows| - 1], number, sku) + if OpenOn(r, number) && r.skuCode == sku then r.quantity else 0
  }

  ghost predicate Mentions(rows: seq<Reservation>, number: string, sku: Sku) {
    exists i :: 0 <= i < |rows| && OpenOn(rows[i], number) && rows[i].skuCode == sku
  }

  /** `m` holds exactly the open SKUs of an indent with their open quantities. */
  ghost predicate IsBalanceOf(m: map<Sku, int>, rows: seq<Reservation>, number: string) {
    forall sku :: (sku in m <==> Mentions(rows, number, sku)) && (sku in m ==> m[sku] == OpenQty(rows, number, sku))
  }

  lemma {:induction false} BalanceUnique(m: map<Sku, int>, m': map<Sku, int>, rows: seq<Reservation>, number: string)
    requires IsBalanceOf(m, rows, number) && IsBalanceOf(m', rows, number)
    ensures m == m'
  {
    assert m.Keys == m'.Keys;
  }

  lemma {:induction false} NoOpenRows(m: map<Sku, int>, rows: seq<Reservation>, number: string)
    requires IsBalanceOf(m, rows, number)
    ensures m == map[] <==> forall i :: 0 <= i < |rows| ==> !OpenOn(rows[i], number)
  {
    if m == map[] {
      forall i | 0 <= i < |rows| ensures !OpenOn(rows[i], number) {
        assert rows[i].skuCode !in m;
      }
    } else {
      var sku :| sku in m;
      assert Mentions(rows, number, sku);
    }
  }

  // ---------------------------------------------------------------------------------------
  // The batched lookup
  // ---------------------------------------------------------------------------------------

  /** `[...new Set(orderIds.filter(Boolean))]`: non-empty ids, each once, in order of first sight. */
  function DistinctIds(ids: seq<OrderId>): (r: seq<OrderId>)
    ensures forall id :: id in r <==> id in ids && id != ""
  {
    if ids == [] then []
    else
      var n := |ids| - 1;
      var front := DistinctIds(ids[..n]);
      assert ids == ids[..n] + [ids[n]];
      if ids[n] == "" || ids[n] in front then front else front + [ids[n]]
  }

  lemma {:induction false} DistinctIdsOnce(ids: seq<OrderId>)
    ensures Distinct(DistinctIds(ids))
  {
    if ids != [] {
      DistinctIdsOnce(ids[..|ids| - 1]);
    }
  }

  /** The booking that keeps an indent number: the last id of the list that maps to it, "" if none does. */
  function HolderOf(ids: seq<OrderId>, number: string): OrderId {
    if ids == [] then ""
    else if IndentIdFor(ids[|ids| - 1]) == number then ids[|ids| - 1]
    else HolderOf(ids[..|ids| - 1], number)
  }

  predicate Holds(ids: seq<OrderId>, id: OrderId) {
    HolderOf(ids, IndentIdFor(id)) == id
  }

  lemma {:induction false} HolderIsOne(ids: seq<OrderId>, number: string)
    requires forall i :: 0 <= i < |ids| ==> ids[i] != ""
    ensures var h := HolderOf(ids, number);
            if h == "" then forall i :: 0 <= i < |ids| ==> IndentIdFor(ids[i]) != number
            else h in ids && IndentIdFor(h) == number
  {
    hide IndentIdFor;
    if ids != [] && IndentIdFor(ids[|ids| - 1]) != number {
      HolderIsOne(ids[..|ids| - 1], number);
    }
  }

  /** `new Map(ids.map(id => [indentIdFor(id), id]))`: a later id with the same number replaces it. */
  method BookingByIndent(ids: seq<OrderId>) returns (m: map<string, OrderId>)
    requires forall i :: 0 <= i < |ids| ==> ids[i] != ""
    ensures forall number :: number in m <==> HolderOf(ids, number) != ""
    ensures forall number :: number in m ==> m[number] == HolderOf(ids, number)
  {
    m := map[];
    for i := 0 to |ids|
      invariant forall number :: number in m <==> HolderOf(ids[..i], number) != ""
      invariant forall number :: number in m ==> m[number] == HolderOf(ids[..i], number)
    {
      assert ids[..i + 1][..i] == ids[..i];
      m := m[IndentIdFor(ids[i]) := ids[i]];
    }
    assert ids[..|ids|] == ids;
  }

  /** One entry per booking asked for; the balance goes to the booking that holds the number. */
  ghost predicate Answers(out: map<OrderId, map<Sku, int>>, ids: seq<OrderId>, rows: seq<Reservation>) {
    && (forall id :: id in out <==> id in ids)
    && forall id :: id in out ==> AnswerFor(out[id], id, ids, rows)
  }

  ghost predicate AnswerFor(m: map<Sku, int>, id: OrderId, ids: seq<OrderId>, rows: seq<Reservation>) {
    if Holds(ids, id) then IsBalanceOf(m, rows, IndentIdFor(id)) else m == map[]
  }

  method OpenIndentsByOrder(orderIds: seq<OrderId>, reservations: seq<Reservation>)
    returns (out: map<OrderId, map<Sku, int>>)
    ensures Answers(out, DistinctIds(orderIds), reservations)
  {
    hide IndentIdFor, HolderOf, IsBalanceOf, AnswerFor, DistinctIds;
    var ids := DistinctIds(orderIds);
    assert forall i :: 0 <= i < |ids| ==> ids[i] in ids;
    out := map id | id in ids :: map[];
    if |ids| == 0 {
      return;
    }
    var bookingByIndent := BookingByIndent(ids);
    NothingCounted(out, ids);
    for i := 0 to |reservations|
      invariant Answers(out, ids, reservations[..i])
    {
      var r := reservations[i];
      HolderIsOne(ids, r.indentNumber);
      ghost var was := out;
      if Open(r) && r.indentNumber in bookingByIndent {
        var orderId := bookingByIndent[r.indentNumber];
        var bySku := out[orderId];
        out := out[orderId := Added(bySku, r)];
      }
      RowCounted(was, ids, reservations, i, out);
    }
    assert reservations[..|reservations|] == reservations;
  }

  /** `bySku.set(r.skuCode, (bySku.get(r.skuCode) || 0) + r.quantity)` */
  function Added(m: map<Sku, int>, r: Reservation): map<Sku, int> {
    m[r.skuCode := (if r.skuCode in m then m[r.skuCode] else 0) + r.quantity]
  }

  lemma {:induction false} NothingCounted(out: map<OrderId, map<Sku, int>>, ids: seq<OrderId>)
    requires forall id :: id in out <==> id in ids
    requires forall id :: id in out ==> out[id] == map[]
    ensures Answers(out, ids, [])
  {
  }

  lemma {:induction false} RowCountedFor(m: map<Sku, int>, id: OrderId, ids: seq<OrderId>, rows: seq<Reservation>, i: nat)
    requires (forall k :: 0 <= k < |ids| ==> ids[k] != "") && i < |rows|
    requires id in ids && AnswerFor(m, id, ids, rows[..i])
    ensures var r := rows[i];
            var mine := Open(r) && HolderOf(ids, r.indentNumber) == id;
            AnswerFor(if mine then Added(m, r) else m, id, ids, rows[..i + 1])
  {
    hide IndentIdFor, IsBalanceOf, Added;
    HolderIsOne(ids, rows[i].indentNumber);
    if Holds(ids, id) {
      BalanceStep(m, rows, i, IndentIdFor(id), if OpenOn(rows[i], IndentIdFor(id)) then Added(m, rows[i]) else m);
    }
  }

  lemma {:induction false} RowCounted(out: map<OrderId, map<Sku, int>>, ids: seq<OrderId>, rows: seq<Reservation>, i: nat,
                   out': map<OrderId, map<Sku, int>>)
    requires forall k :: 0 <= k < |ids| ==> ids[k] != ""
    requires i < |rows| && Answers(out, ids, rows[..i])
    requires var r := rows[i];
             var h := HolderOf(ids, r.indentNumber);
             (h != "" ==> h in out) && out' == if Open(r) && h != "" then out[h := Added(out[h], r)] else out
    ensures Answers(out', ids, rows[..i + 1])
  {
    hide AnswerFor, Added, HolderOf;
    forall id | id in out' ensures AnswerFor(out'[id], id, ids, rows[..i + 1]) {
      assert AnswerFor(out[id], id, ids, rows[..i]);
      RowCountedFor(out[id], id, ids, rows, i);
    }
  }

  /** `openIndentBySku`: the batched lookup for a list of one. */
  method OpenIndentBySku(orderId: OrderId, reservations: seq<Reservation>) returns (bySku: map<Sku, int>)
    ensures if orderId == "" then bySku == map[] else IsBalanceOf(bySku, reservations, IndentIdFor(orderId))
  {
    var out := OpenIndentsByOrder([orderId], reservations);
    assert DistinctIds([orderId][..0]) == [];
    if orderId in out {
      assert DistinctIds([orderId]) == [orderId];
      assert AnswerFor(out[orderId], orderId, [orderId], reservations);
      bySku := out[orderId];
    } else {
      bySku := map[];
    }
  }

  lemma {:induction false} OpenQtySnoc(rows: seq<Reservation>, i: nat, number: string, sku: Sku)
    requires i < |rows|
    ensures OpenQty(rows[..i + 1], number, sku)
            == OpenQty(rows[..i], number, sku) + if OpenOn(rows[i], number) && rows[i].skuCode == sku then rows[i].quantity else 0
    ensures Mentions(rows[..i + 1], number, sku)
            <==> Mentions(rows[..i], number, sku) || (OpenOn(rows[i], number) && rows[i].skuCode == sku)
  {
    assert rows[..i + 1][..i] == rows[..i];
    if OpenOn(rows[i], number) && rows[i].skuCode == sku {
      assert rows[..i + 1][i] == rows[i];
    }
    if Mentions(rows[..i], number, sku) {
      var k :| 0 <= k < i && OpenOn(rows[..i][k], number) && rows[..i][k].skuCode == sku;
      assert rows[..i + 1][k] == rows[k];
    }
  }

  lemma {:induction false} UnmentionedIsZero(rows: seq<Reservation>, number: string, sku: Sku)
    requires !Mentions(rows, number, sku)
    ensures OpenQty(rows, number, sku) == 0
  {
    if rows != [] {
      UnmentionedIsZero(rows[..|rows| - 1], number, sku);
    }
  }

  lemma {:induction false} BalanceStep(m: map<Sku, int>, rows: seq<Reservation>, i: nat, number: string, m': map<Sku, int>)
    requires i < |rows| && IsBalanceOf(m, rows[..i], number)
    requires m' == if OpenOn(rows[i], number) then Added(m, rows[i]) else m
    ensures IsBalanceOf(m', rows[..i + 1], number)
  {
    forall sku
      ensures (sku in m' <==> Mentions(rows[..i + 1], number, sku))
              && (sku in m' ==> m'[sku] == OpenQty(rows[..i + 1], number, sku))
    {
      OpenQtySnoc(rows, i, number, sku);
      if !Mentions(rows[..i], number, sku) {
        UnmentionedIsZero(rows[..i], number, sku);
      }
    }
  }

  // ---------------------------------------------------------------------------------------
  // Batched against single
  // ---------------------------------------------------------------------------------------

  /**
   * A booking of the batch gets what the single lookup gives it exactly when it is the last of the
   * batch with its indent number, or nothing is open on that number.
   */
  lemma {:induction false} BatchAgreesWithSingle(out: map<OrderId, map<Sku, int>>, ids: seq<OrderId>, rows: seq<Reservation>,
                              id: OrderId, single: map<Sku, int>)
    requires Answers(out, ids, rows) && id in ids
    requires IsBalanceOf(single, rows, IndentIdFor(id))
    ensures out[id] == single
            <==> Holds(ids, id)
                 || forall i :: 0 <= i < |rows| ==> !OpenOn(rows[i], IndentIdFor(id))
  {
    assert AnswerFor(out[id], id, ids, rows);
    NoOpenRows(single, rows, IndentIdFor(id));
    if Holds(ids, id) {
      BalanceUnique(out[id], single, rows, IndentIdFor(id));
    }
  }

  ghost predicate DistinctNumbers(ids: seq<OrderId>) {
    forall i, j :: 0 <= i < j < |ids| ==> IndentIdFor(ids[i]) != IndentIdFor(ids[j])
  }

  lemma {:induction false} EveryBookingHoldsItsNumber(ids: seq<OrderId>, i: nat)
    requires DistinctNumbers(ids) && i < |ids|
    ensures Holds(ids, ids[i])
    decreases |ids|
  {
    hide IndentIdFor;
    var n := |ids| - 1;
    if i < n {
      assert IndentIdFor(ids[i]) != IndentIdFor(ids[n]);
      EveryBookingHoldsItsNumber(ids[..n], i);
    }
  }

  /** With distinct indent numbers every booking of the batch gets its own balance. */
  lemma {:induction false} BatchIsExact(out: map<OrderId, map<Sku, int>>, ids: seq<OrderId>, rows: seq<Reservation>)
    requires Answers(out, ids, rows) && DistinctNumbers(ids)
    ensures forall id :: id in ids ==> IsBalanceOf(out[id], rows, IndentIdFor(id))
  {
    hide IndentIdFor, IsBalanceOf;
    forall id | id in ids ensures IsBalanceOf(out[id], rows, IndentIdFor(id)) {
      var i :| 0 <= i < |ids| && ids[i] == id;
      EveryBookingHoldsItsNumber(ids, i);
      assert AnswerFor(out[id], id, ids, rows);
    }
  }

  // ---------------------------------------------------------------------------------------
  // The grand total
  // ---------------------------------------------------------------------------------------

  ghost function Total(m: map<Sku, int>): int {
    if m == map[] then 0
    else
      var k :| k in m;
      m[k] + Total(m - {k})
  }

  lemma {:induction false} TotalWithout(m: map<Sku, int>, k: Sku)
    requires k in m
    ensures Total(m) == m[k] + Total(m - {k})
    decreases m
  {
    var c :| c in m && Total(m) == m[c] + Total(m - {c});
    if c != k {
      TotalWithout(m - {c}, k);
      TotalWithout(m - {k}, c);
      assert m - {c} - {k} == m - {k} - {c};
    }
  }

  function OpenTotal(rows: seq<Reservation>, number: string): int {
    if rows == [] then 0
    else
      var r := rows[|rows| - 1];
      OpenTotal(rows[..|rows| - 1], number) + if OpenOn(r, number) then r.quantity else 0
  }

  /** The balance of one indent, built row by row. */
  function Balance(rows: seq<Reservation>, number: string): map<Sku, int> {
    if rows == [] then map[]
    else
      var r, m := rows[|rows| - 1], Balance(rows[..|rows| - 1], number);
      if OpenOn(r, number) then Added(m, r) else m
  }

  lemma {:induction false} BalanceTotals(rows: seq<Reservation>, number: string)
    ensures IsBalanceOf(Balance(rows, number), rows, number)
    ensures Total(Balance(rows, number)) == OpenTotal(rows, number)
  {
    hide IsBalanceOf;
    if rows == [] {
      NothingOpen(number);
    } else {
      var n := |rows| - 1;
      BalanceTotals(rows[..n], number);
      var m, m' := Balance(rows[..n], number), Balance(rows, number);
      BalanceStep(m, rows, n, number, m');
      assert rows[..n + 1] == rows;
      if OpenOn(rows[n], number) {
        TotalAdded(m, rows[n]);
      }
    }
  }

  lemma {:induction false} NothingOpen(number: string)
    ensures IsBalanceOf(map[], [], number)
  {
  }

  lemma {:induction false} TotalAdded(m: map<Sku, int>, r: Reservation)
    ensures Total(Added(m, r)) == Total(m) + r.quantity
  {
    var sku, m' := r.skuCode, Added(m, r);
    TotalWithout(m', sku);
    assert m' - {sku} == m - {sku};
    if sku in m {
      TotalWithout(m, sku);
    } else {
      assert m - {sku} == m;
    }
  }

  function OpenOnAny(rows: seq<Reservation>, ids: seq<OrderId>): int {
    if rows == [] then 0
    else
      var r := rows[|rows| - 1];
      OpenOnAny(rows[..|rows| - 1], ids)
      + if exists i :: 0 <= i < |ids| && OpenOn(r, IndentIdFor(ids[i])) then r.quantity else 0
  }

  ghost function TotalsOf(out: map<OrderId, map<Sku, int>>, ids: seq<OrderId>): (r: seq<int>)
    requires forall id :: id in ids ==> id in out
    ensures |r| == |ids|
  {
    seq(|ids|, i requires 0 <= i < |ids| => Total(out[ids[i]]))
  }

  function OpenTotals(rows: seq<Reservation>, ids: seq<OrderId>): (r: seq<int>)
    ensures |r| == |ids|
  {
    seq(|ids|, i requires 0 <= i < |ids| => OpenTotal(rows, IndentIdFor(ids[i])))
  }

  lemma {:induction false} RowAddsOnce(r: Reservation, ids: seq<OrderId>, before: seq<int>, after: seq<int>)
    requires DistinctNumbers(ids) && |before| == |after| == |ids|
    requires forall i :: 0 <= i < |ids| ==>
               after[i] == before[i] + if OpenOn(r, IndentIdFor(ids[i])) then r.quantity else 0
    ensures Sum(after) == Sum(before)
                          + if exists i :: 0 <= i < |ids| && OpenOn(r, IndentIdFor(ids[i])) then r.quantity else 0
  {
    hide IndentIdFor;
    if i :| 0 <= i < |ids| && OpenOn(r, IndentIdFor(ids[i])) {
      forall k | 0 <= k < |ids| && k != i ensures after[k] == before[k] {
        assert IndentIdFor(ids[k]) != IndentIdFor(ids[i]);
      }
      assert after == before[i := before[i] + r.quantity];
      SumUpdate(before, i, before[i] + r.quantity);
    } else {
      assert after == before;
    }
  }

  lemma {:induction false} EachRowCountsOnce(rows: seq<Reservation>, ids: seq<OrderId>)
    requires DistinctNumbers(ids)
    ensures Sum(OpenTotals(rows, ids)) == OpenOnAny(rows, ids)
  {
    hide IndentIdFor, Sum, DistinctNumbers;
    if rows == [] {
      SumZeros(OpenTotals(rows, ids));
    } else {
      var n := |rows| - 1;
      EachRowCountsOnce(rows[..n], ids);
      RowAddsOnce(rows[n], ids, OpenTotals(rows[..n], ids), OpenTotals(rows, ids));
    }
  }

  /** The grand total of the batch is the total of the open reservations it asked about. */
  lemma {:induction false} GrandTotal(out: map<OrderId, map<Sku, int>>, ids: seq<OrderId>, rows: seq<Reservation>)
    requires Answers(out, ids, rows) && DistinctNumbers(ids)
    ensures Sum(TotalsOf(out, ids)) == OpenOnAny(rows, ids)
  {
    BatchIsExact(out, ids, rows);
    forall i | 0 <= i < |ids| ensures Total(out[ids[i]]) == OpenTotal(rows, IndentIdFor(ids[i])) {
      BalanceTotals(rows, IndentIdFor(ids[i]));
      BalanceUnique(out[ids[i]], Balance(rows, IndentIdFor(ids[i])), rows, IndentIdFor(ids[i]));
    }
    assert TotalsOf(out, ids) == OpenTotals(rows, ids);
    EachRowCountsOnce(rows, ids);
  }
}
