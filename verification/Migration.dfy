/**
 * Merging the per-brand product collections into one (backend/scripts/migrate-unify-products.js):
 * the duplicate check, the upserts by id, and the parity check that follows.
 */
module Migration {
  import opened Options
  import opened JsText

  /** CARRIED, without the SKU code, which every row has and is kept apart. */
  datatype Field =
    | MsilCode | Category | Description | Uom | ItemParameter | DailyAvgConsumption | CurrentSeason | LeadTime
    | SafetyFactor | Moq | AbcClass | BoxNo | VendorName | Status | TotalAvailableQuantity | BookedQuantity
    | AvailableForSale | InTransitQty | OpeningStockQuantity | OpeningStockDate | MaxLevel | AvailableInPercent
    | CreatedAt | UpdatedAt

  /** The fields the parity check compares. */
  const COMPARED: seq<Field> :=
    [MsilCode, ItemParameter, CurrentSeason, LeadTime, SafetyFactor, Moq, BoxNo, VendorName, Status,
     TotalAvailableQuantity, BookedQuantity, AvailableForSale, InTransitQty, OpeningStockQuantity, MaxLevel]

  predicate Compared(f: Field) {
    match f
    case Category | Description | Uom | DailyAvgConsumption | AbcClass | OpeningStockDate | AvailableInPercent
       | CreatedAt | UpdatedAt => false
    case _ => true
  }

  lemma {:induction false} ComparedAre()
    ensures forall f :: f in COMPARED <==> Compared(f)
  {
    OnlyCompared();
    forall f | Compared(f) ensures f in COMPARED { IsListed(f); }
  }

  lemma {:induction false} OnlyCompared()
    ensures forall i :: 0 <= i < |COMPARED| ==> Compared(COMPARED[i])
  {
  }

  lemma {:induction false} IsListed(f: Field)
    requires Compared(f)
    ensures f in COMPARED
  {
    var c := COMPARED;
    assert f == c[0] || f == c[1] || f == c[2] || f == c[3] || f == c[4] || f == c[5] || f == c[6] || f == c[7]
      || f == c[8] || f == c[9] || f == c[10] || f == c[11] || f == c[12] || f == c[13] || f == c[14];
  }

  datatype Value = Null | Num(n: real) | Str(s: string)

  type Fields = map<Field, Value>

  /** A row of a source collection together with the brand of that collection. */
  datatype Item = Item(id: string, brand: string, sku: string, fields: Fields)

  datatype Row = Row(id: string, brand: string, sku: string, fields: Fields)

  function ValueAt(fields: Fields, f: Field): Value {
    if f in fields then fields[f] else Null
  }

  /** `Number(x) || 0`, for texts of plain digits. */
  function NumberOf(v: Value): real {
    match v
    case Null => 0.0
    case Num(n) => n
    case Str(s) => if Trim(s) != "" && AllDigits(Trim(s)) then ValueOf(Trim(s)) as real else 0.0
  }

  /** `String(x)` of a value that is no number. */
  function TextOf(v: Value): string
    requires !v.Num?
  {
    if v.Null? then "null" else v.s
  }

  predicate SameValue(a: Value, b: Value) {
    if a.Num? || b.Num? then
      var d := NumberOf(a) - NumberOf(b);
      -0.000000001 < d < 0.000000001
    else TextOf(a) == TextOf(b)
  }

  // ---------------------------------------------------------------------------------------
  // Duplicate check
  // ---------------------------------------------------------------------------------------

  function KeyOf(i: Item): string {
    i.brand + "::" + Upper(Trim(i.sku))
  }

  ghost predicate NoDuplicates(items: seq<Item>) {
    forall i, j :: 0 <= i < j < |items| ==> KeyOf(items[i]) != KeyOf(items[j])
  }

  method FindDuplicates(items: seq<Item>) returns (dupes: seq<string>)
    ensures dupes == [] <==> NoDuplicates(items)
    ensures forall k :: k in dupes ==> exists i, j :: 0 <= i < j < |items| && KeyOf(items[i]) == KeyOf(items[j]) == k
  {
    hide KeyOf;
    var seen: set<string> := {};
    dupes := [];
    for n := 0 to |items|
      invariant forall k :: k in seen <==> exists i :: 0 <= i < n && KeyOf(items[i]) == k
      invariant dupes == [] <==> forall i, j :: 0 <= i < j < n ==> KeyOf(items[i]) != KeyOf(items[j])
      invariant forall k :: k in dupes ==> exists i, j :: 0 <= i < j < n && KeyOf(items[i]) == KeyOf(items[j]) == k
    {
      var key := KeyOf(items[n]);
      if key in seen {
        dupes := dupes + [key];
      } else {
        seen := seen + {key};
      }
    }
  }

  /** No two source rows have the same key as the database compares keys, letter by letter. */
  ghost predicate KeysApart(items: seq<Item>) {
    forall i, j :: 0 <= i < j < |items| ==> !(items[i].brand == items[j].brand && items[i].sku == items[j].sku)
  }

  /** Past the check, no two rows share brand and SKU, whatever their case and surrounding blanks. */
  lemma {:induction false} NoDuplicateKeys(items: seq<Item>)
    requires NoDuplicates(items)
    ensures forall i, j :: 0 <= i < j < |items| ==>
              !(items[i].brand == items[j].brand && Upper(Trim(items[i].sku)) == Upper(Trim(items[j].sku)))
    ensures KeysApart(items)
  {
    hide Upper, Trim;
    forall i, j | 0 <= i < j < |items|
      ensures !(items[i].brand == items[j].brand && Upper(Trim(items[i].sku)) == Upper(Trim(items[j].sku)))
    {
      assert KeyOf(items[i]) != KeyOf(items[j]);
    }
  }

  // ---------------------------------------------------------------------------------------
  // The upserts
  // ---------------------------------------------------------------------------------------

  /** The fields the source row has, and the two defaults for what it predates. */
  function Payload(i: Item): Fields {
    var uom := if Uom in i.fields then i.fields else i.fields[Uom := Str("PCS")];
    if Description in uom then uom else uom[Description := Null]
  }

  /** `$set` of the payload on a row that is there already. */
  function Merged(r: Row, i: Item): Row {
    Row(r.id, i.brand, i.sku, r.fields + Payload(i))
  }

  function Created(i: Item): Row {
    Row(i.id, i.brand, i.sku, Payload(i))
  }

  /** Where a row with this id is; past the end when there is none. */
  function IndexOf(rows: seq<Row>, id: string): (n: nat)
    ensures n <= |rows| && (forall i :: 0 <= i < n ==> rows[i].id != id) && (n < |rows| ==> rows[n].id == id)
  {
    if rows == [] || rows[0].id == id then 0
    else
      var n := IndexOf(rows[1..], id);
      assert forall i :: 1 <= i < |rows| ==> rows[i] == rows[1..][i - 1];
      1 + n
  }

  function Upsert(rows: seq<Row>, i: Item): seq<Row> {
    var n := IndexOf(rows, i.id);
    if n < |rows| then rows[n := Merged(rows[n], i)] else rows + [Created(i)]
  }

  function UpsertAll(rows: seq<Row>, items: seq<Item>): seq<Row> {
    if items == [] then rows else Upsert(UpsertAll(rows, items[..|items| - 1]), items[|items| - 1])
  }

  predicate UnderKey(r: Row, i: Item) {
    r.brand == i.brand && r.sku == i.sku
  }

  /** The unique index on brand and SKU code refuses the upsert: a row of another id stands under the key. */
  ghost predicate Refused(rows: seq<Row>, i: Item) {
    exists p :: 0 <= p < |rows| && rows[p].id != i.id && UnderKey(rows[p], i)
  }

  ghost function Write(rows: seq<Row>, i: Item): seq<Row> {
    if Refused(rows, i) then rows else Upsert(rows, i)
  }

  /** The bulk write is unordered: one that is refused does not stop the others. */
  ghost function WriteAll(rows: seq<Row>, items: seq<Item>): seq<Row> {
    if items == [] then rows else Write(WriteAll(rows, items[..|items| - 1]), items[|items| - 1])
  }

  /** No upsert is refused. */
  ghost predicate Admitted(rows: seq<Row>, items: seq<Item>) {
    items == []
    || (Admitted(rows, items[..|items| - 1]) && !Refused(WriteAll(rows, items[..|items| - 1]), items[|items| - 1]))
  }

  datatype Outcome = Duplicates | DryRun | Written | Failed

  /**
   * Nothing is written when the duplicate check fails or on a dry run. A refused upsert fails the
   * migration, with the other upserts in place. While rows without a code keep the unique index from
   * being built, nothing is refused.
   */
  method Migrate(rows: seq<Row>, items: seq<Item>, apply: bool, indexed: bool) returns (r: Outcome, after: seq<Row>)
    ensures r == Duplicates <==> !NoDuplicates(items)
    ensures r == DryRun <==> NoDuplicates(items) && !apply
    ensures r == Written <==> NoDuplicates(items) && apply && (indexed ==> Admitted(rows, items))
    ensures after == if !NoDuplicates(items) || !apply then rows
                     else if indexed then WriteAll(rows, items) else UpsertAll(rows, items)
  {
    hide NoDuplicates, Upsert, UnderKey;
    after := rows;
    var dupes := FindDuplicates(items);
    if dupes != [] { return Duplicates, rows; }
    if !apply { return DryRun, rows; }
    var refusals := 0;
    for n := 0 to |items|
      invariant after == if indexed then WriteAll(rows, items[..n]) else UpsertAll(rows, items[..n])
      invariant refusals >= 0 && (refusals == 0 <==> (indexed ==> Admitted(rows, items[..n])))
    {
      assert items[..n + 1][..n] == items[..n];
      var refused := false;
      for p := 0 to |after|
        invariant refused <==> exists q :: 0 <= q < p && after[q].id != items[n].id && UnderKey(after[q], items[n])
      {
        if after[p].id != items[n].id && UnderKey(after[p], items[n]) { refused := true; }
      }
      if refused && indexed { refusals := refusals + 1; } else { after := Upsert(after, items[n]); }
    }
    assert items[..|items|] == items;
    return if refusals == 0 then Written else Failed, after;
  }

  ghost predicate DistinctIds(items: seq<Item>) {
    forall i, j :: 0 <= i < j < |items| ==> items[i].id != items[j].id
  }

  ghost predicate DistinctRows(rows: seq<Row>) {
    forall i, j :: 0 <= i < j < |rows| ==> rows[i].id != rows[j].id
  }

  ghost predicate FromSource(items: seq<Item>, id: string) {
    exists k :: 0 <= k < |items| && items[k].id == id
  }

  /** What became of the row that was at p, or was created. */
  ghost predicate RowAfter(rows: seq<Row>, items: seq<Item>, p: nat, r: Row) {
    if p < |rows| then
      && r.id == rows[p].id
      && (FromSource(items, r.id) || r == rows[p])
      && (forall k :: 0 <= k < |items| && items[k].id == r.id ==> r == Merged(rows[p], items[k]))
    else
      exists k :: 0 <= k < |items| && IndexOf(rows, items[k].id) == |rows| && r == Created(items[k])
  }

  /** The merged collection: the old rows in their places, merged or untouched, and the new ones behind them. */
  ghost predicate IsMigrated(rows: seq<Row>, items: seq<Item>, after: seq<Row>) {
    && |rows| <= |after| && DistinctRows(after)
    && (forall p :: 0 <= p < |after| ==> RowAfter(rows, items, p, after[p]))
    && (forall k :: 0 <= k < |items| ==> IndexOf(after, items[k].id) < |after|)
  }

  lemma {:induction false} IndexIs(rows: seq<Row>, id: string, p: nat)
    requires DistinctRows(rows) && p < |rows| && rows[p].id == id
    ensures IndexOf(rows, id) == p
  {
    assert rows[IndexOf(rows, id)].id == id;
  }

  lemma {:induction false} RowAfterGrows(rows: seq<Row>, front: seq<Item>, i: Item, p: nat, r: Row)
    requires RowAfter(rows, front, p, r) && r.id != i.id
    ensures RowAfter(rows, front + [i], p, r)
  {
    hide IndexOf;
    var items := front + [i];
    if p < |rows| {
      if FromSource(front, r.id) {
        var k :| 0 <= k < |front| && front[k].id == r.id;
        assert items[k].id == r.id;
      }
      forall k | 0 <= k < |items| && items[k].id == r.id ensures r == Merged(rows[p], items[k]) {
        assert items[k] == front[k];
      }
    } else {
      var k :| 0 <= k < |front| && IndexOf(rows, front[k].id) == |rows| && r == Created(front[k]);
      assert items[k] == front[k];
    }
  }

  lemma {:induction false} UpsertPlaces(mid: seq<Row>, i: Item)
    requires DistinctRows(mid)
    ensures var n, after := IndexOf(mid, i.id), Upsert(mid, i);
            && DistinctRows(after) && |mid| <= |after| && n < |after| && after[n].id == i.id
            && (forall p :: 0 <= p < |after| && p != n ==> p < |mid| && after[p] == mid[p])
            && (forall p :: 0 <= p < |mid| ==> after[p].id == mid[p].id)
  {
  }

  /** One more upsert, whose id is new among the items. */
  lemma {:induction false} UpsertMigrates(rows: seq<Row>, front: seq<Item>, i: Item, mid: seq<Row>)
    requires DistinctRows(rows) && IsMigrated(rows, front, mid) && !FromSource(front, i.id)
    ensures IsMigrated(rows, front + [i], Upsert(mid, i))
  {
    UpsertedRow(rows, front, i, mid);
    UpsertPlaces(mid, i);
    hide Merged, Created, Upsert, RowAfter, DistinctRows, FromSource;
    var items, after, n := front + [i], Upsert(mid, i), IndexOf(mid, i.id);
    forall p | 0 <= p < |after| ensures RowAfter(rows, items, p, after[p]) {
      if p != n {
        NotTheSame(mid, i, p);
        RowAfterGrows(rows, front, i, p, mid[p]);
      }
    }
    forall k | 0 <= k < |items| ensures IndexOf(after, items[k].id) < |after| {
      if k < |front| {
        var q := IndexOf(mid, front[k].id);
        assert mid[q].id == front[k].id && items[k] == front[k];
        assert after[q].id == front[k].id;
      } else {
        assert after[n].id == i.id;
      }
    }
  }

  lemma {:induction false} NotTheSame(mid: seq<Row>, i: Item, p: nat)
    requires DistinctRows(mid) && p < |mid| && p != IndexOf(mid, i.id)
    ensures mid[p].id != i.id
  {
    if mid[p].id == i.id { IndexIs(mid, i.id, p); }
  }

  lemma {:induction false} BehindIsSource(rows: seq<Row>, items: seq<Item>, after: seq<Row>, n: nat)
    requires IsMigrated(rows, items, after) && n < |after|
    ensures n >= |rows| ==> FromSource(items, after[n].id)
  {
    assert RowAfter(rows, items, n, after[n]);
  }

  lemma {:induction false} OnlyLast(front: seq<Item>, i: Item)
    requires !FromSource(front, i.id)
    ensures forall k :: 0 <= k < |front + [i]| && (front + [i])[k].id == i.id ==> k == |front|
  {
  }

  lemma {:induction false} UpsertedRow(rows: seq<Row>, front: seq<Item>, i: Item, mid: seq<Row>)
    requires DistinctRows(rows) && IsMigrated(rows, front, mid) && !FromSource(front, i.id)
    ensures var n := IndexOf(mid, i.id);
            && n < |Upsert(mid, i)| && Upsert(mid, i)[n].id == i.id
            && RowAfter(rows, front + [i], n, Upsert(mid, i)[n])
  {
    var items, after, n := front + [i], Upsert(mid, i), IndexOf(mid, i.id);
    assert items[|front|] == i;
    OnlyLast(front, i);
    if n < |mid| {
      BehindIsSource(rows, front, mid, n);
      assert RowAfter(rows, front, n, mid[n]);
    } else {
      forall p | 0 <= p < |rows| ensures rows[p].id != i.id {
        assert RowAfter(rows, front, p, mid[p]);
      }
    }
  }

  lemma {:induction false} DistinctLast(items: seq<Item>)
    requires items != [] && DistinctIds(items)
    ensures !FromSource(items[..|items| - 1], items[|items| - 1].id)
  {
  }

  lemma {:induction false} MigratesAll(rows: seq<Row>, items: seq<Item>)
    requires DistinctRows(rows) && DistinctIds(items)
    ensures IsMigrated(rows, items, UpsertAll(rows, items))
  {
    hide Merged, Created, IndexOf, RowAfter;
    if items == [] {
      forall p | 0 <= p < |rows| ensures RowAfter(rows, [], p, rows[p]) { NotYet(rows, p); }
    } else {
      var n := |items| - 1;
      MigratesAll(rows, items[..n]);
      DistinctLast(items);
      UpsertMigrates(rows, items[..n], items[n], UpsertAll(rows, items[..n]));
      assert items[..n] + [items[n]] == items;
    }
  }

  lemma {:induction false} NotYet(rows: seq<Row>, p: nat)
    requires p < |rows|
    ensures RowAfter(rows, [], p, rows[p])
  {
  }

  // ---------------------------------------------------------------------------------------
  // The parity check
  // ---------------------------------------------------------------------------------------

  /** What the database returns for a brand and SKU: the first such row, in natural order. */
  function FindOne(rows: seq<Row>, brand: string, sku: string): (n: nat)
    ensures n <= |rows| && (forall i :: 0 <= i < n ==> !(rows[i].brand == brand && rows[i].sku == sku))
    ensures n < |rows| ==> rows[n].brand == brand && rows[n].sku == sku
  {
    if rows == [] || (rows[0].brand == brand && rows[0].sku == sku) then 0
    else
      var n := FindOne(rows[1..], brand, sku);
      assert forall i :: 1 <= i < |rows| ==> rows[i] == rows[1..][i - 1];
      1 + n
  }

  predicate FieldsAgree(i: Item, r: Row) {
    forall f :: Compared(f) ==> SameValue(ValueAt(i.fields, f), ValueAt(r.fields, f))
  }

  /** A source row arrived intact: found under its key, with its values and its id. */
  predicate Intact(rows: seq<Row>, i: Item) {
    var n := FindOne(rows, i.brand, i.sku);
    n < |rows| && FieldsAgree(i, rows[n]) && rows[n].id == i.id
  }

  method Verify(rows: seq<Row>, items: seq<Item>) returns (ok: bool, missing: nat, mismatched: nat)
    ensures ok <==> missing == 0 && mismatched == 0
    ensures missing == 0 <==> forall k :: 0 <= k < |items| ==> FindOne(rows, items[k].brand, items[k].sku) < |rows|
    ensures ok <==> forall k :: 0 <= k < |items| ==> Intact(rows, items[k])
  {
    ComparedAre();
    hide SameValue, ValueAt, FindOne, Compared, COMPARED;
    missing, mismatched := 0, 0;
    for k := 0 to |items|
      invariant missing == 0 && mismatched == 0 <==> forall j :: 0 <= j < k ==> Intact(rows, items[j])
      invariant missing == 0 <==> forall j :: 0 <= j < k ==> FindOne(rows, items[j].brand, items[j].sku) < |rows|
    {
      var doc := items[k];
      var n := FindOne(rows, doc.brand, doc.sku);
      if n == |rows| {
        missing := missing + 1;
        assert !Intact(rows, doc);
      } else {
        var merged := rows[n];
        var same := true;
        for j := 0 to |COMPARED|
          invariant same <==> forall i :: 0 <= i < j ==>
                      SameValue(ValueAt(doc.fields, COMPARED[i]), ValueAt(merged.fields, COMPARED[i]))
        {
          same := same && SameValue(ValueAt(doc.fields, COMPARED[j]), ValueAt(merged.fields, COMPARED[j]));
        }
        if !same { mismatched := mismatched + 1; }
        if doc.id != merged.id { mismatched := mismatched + 1; }
      }
    }
    ok := missing == 0 && mismatched == 0;
  }

  lemma {:induction false} PayloadKeeps(i: Item, f: Field)
    requires Compared(f)
    ensures (f in Payload(i) <==> f in i.fields) && (f in i.fields ==> Payload(i)[f] == i.fields[f])
  {
  }

  lemma {:induction false} ValuesSame(v: Value)
    ensures SameValue(v, v)
  {
  }

  /** Compared fields that the source row lacks read as nothing in the row that was already there. */
  ghost predicate NothingLeftOver(i: Item, r: Row) {
    forall f :: Compared(f) && f !in i.fields ==> SameValue(Null, ValueAt(r.fields, f))
  }

  lemma {:induction false} MergedAgrees(i: Item, r: Row)
    ensures FieldsAgree(i, Merged(r, i)) <==> NothingLeftOver(i, r)
  {
    hide SameValue, Payload, Compared;
    var m := Merged(r, i);
    forall f | Compared(f)
      ensures f in i.fields ==> SameValue(ValueAt(i.fields, f), ValueAt(m.fields, f))
      ensures f !in i.fields ==> ValueAt(i.fields, f) == Null && ValueAt(m.fields, f) == ValueAt(r.fields, f)
    {
      PayloadKeeps(i, f);
      ValuesSame(ValueAt(i.fields, f));
    }
  }

  lemma {:induction false} CreatedAgrees(i: Item)
    ensures FieldsAgree(i, Created(i))
  {
    hide SameValue, Payload, Compared;
    forall f | Compared(f) ensures SameValue(ValueAt(i.fields, f), ValueAt(Created(i).fields, f)) {
      PayloadKeeps(i, f);
      ValuesSame(ValueAt(i.fields, f));
    }
  }

  /**
   * What the merged collection already held does not get in the way of a source row: no row of
   * nobody's stands under its key ahead of it, and an earlier copy of it has nothing in a compared
   * field that the source row lacks.
   */
  ghost predicate Clear(rows: seq<Row>, items: seq<Item>, i: Item) {
    var own := IndexOf(rows, i.id);
    && (forall p :: 0 <= p < own && !FromSource(items, rows[p].id) ==> !UnderKey(rows[p], i))
    && (own < |rows| ==> NothingLeftOver(i, rows[own]))
  }

  lemma {:induction false} MergedIs(rows: seq<Row>, items: seq<Item>, after: seq<Row>, k: nat)
    requires DistinctRows(rows) && DistinctIds(items) && IsMigrated(rows, items, after) && k < |items|
    ensures var own := IndexOf(after, items[k].id);
            && own < |after| && UnderKey(after[own], items[k])
            && (FieldsAgree(items[k], after[own]) <==>
                  (IndexOf(rows, items[k].id) < |rows| ==> NothingLeftOver(items[k], rows[IndexOf(rows, items[k].id)])))
            && (IndexOf(rows, items[k].id) < |rows| ==> own == IndexOf(rows, items[k].id))
            && (IndexOf(rows, items[k].id) == |rows| ==> own >= |rows|)
  {
    hide FieldsAgree, NothingLeftOver, Payload;
    var own, was := IndexOf(after, items[k].id), IndexOf(rows, items[k].id);
    assert RowAfter(rows, items, own, after[own]);
    if was < |rows| {
      assert RowAfter(rows, items, was, after[was]);
      IndexIs(after, items[k].id, was);
      MergedAgrees(items[k], rows[was]);
    } else {
      CreatedIs(rows, items, after[own], own, k);
      CreatedAgrees(items[k]);
    }
  }

  lemma {:induction false} CreatedIs(rows: seq<Row>, items: seq<Item>, r: Row, own: nat, k: nat)
    requires k < |items| && IndexOf(rows, items[k].id) == |rows| && r.id == items[k].id && RowAfter(rows, items, own, r)
    requires DistinctIds(items)
    ensures own >= |rows| && r == Created(items[k])
  {
  }

  /** What a field holds after the merge: the source row's value, the two defaults, or what was there before. */
  ghost predicate Carried(before: Fields, source: Fields, after: Fields, f: Field) {
    if f in source then f in after && after[f] == source[f]
    else if f == Uom then f in after && after[f] == Str("PCS")
    else if f == Description then f in after && after[f] == Null
    else (f in after <==> f in before) && (f in after ==> after[f] == before[f])
  }

  ghost predicate AllCarried(before: Fields, source: Fields, after: Fields) {
    forall f :: Carried(before, source, after, f)
  }

  lemma {:induction false} MergedCarries(r: Row, i: Item, f: Field)
    ensures Carried(r.fields, i.fields, Merged(r, i).fields, f) && Carried(map[], i.fields, Created(i).fields, f)
  {
  }

  /** Every source row is there under its id, with its brand and code and every field it had, compared or not. */
  lemma {:induction false} EveryFieldCarried(rows: seq<Row>, items: seq<Item>, k: nat)
    requires DistinctRows(rows) && DistinctIds(items) && k < |items|
    ensures var after, own, was := UpsertAll(rows, items), IndexOf(UpsertAll(rows, items), items[k].id), IndexOf(rows, items[k].id);
            && own < |after| && after[own].id == items[k].id
            && after[own].brand == items[k].brand && after[own].sku == items[k].sku
            && AllCarried(if was < |rows| then rows[was].fields else map[], items[k].fields, after[own].fields)
  {
    MigratesAll(rows, items);
    var after := UpsertAll(rows, items);
    var own, was := IndexOf(after, items[k].id), IndexOf(rows, items[k].id);
    hide UpsertAll, Carried, Merged, Created;
    assert RowAfter(rows, items, own, after[own]);
    if was < |rows| {
      KeptIds(rows, items, after);
      IndexIs(after, items[k].id, was);
      MergedPlace(rows[was], items[k]);
      forall f ensures Carried(rows[was].fields, items[k].fields, after[own].fields, f) { MergedCarries(rows[was], items[k], f); }
    } else {
      CreatedIs(rows, items, after[own], own, k);
      CreatedPlace(items[k]);
      forall f ensures Carried(map[], items[k].fields, after[own].fields, f) {
        MergedCarries(Row("", "", "", map[]), items[k], f);
      }
    }
  }

  lemma {:induction false} MergedPlace(r: Row, i: Item)
    ensures Merged(r, i).id == r.id && Merged(r, i).brand == i.brand && Merged(r, i).sku == i.sku
  {
  }

  lemma {:induction false} CreatedPlace(i: Item)
    ensures Created(i).id == i.id && Created(i).brand == i.brand && Created(i).sku == i.sku
  {
  }

  lemma {:induction false} MatchIsOwn(rows: seq<Row>, items: seq<Item>, after: seq<Row>, k: nat, p: nat)
    requires DistinctRows(rows) && DistinctIds(items) && KeysApart(items) && IsMigrated(rows, items, after) && k < |items|
    requires p < |after| && UnderKey(after[p], items[k]) && FromSource(items, after[p].id)
    ensures after[p].id == items[k].id
  {
    hide FieldsAgree, NothingLeftOver, Payload, KeyOf;
    var j :| 0 <= j < |items| && items[j].id == after[p].id;
    MergedIs(rows, items, after, j);
    IndexIs(after, items[j].id, p);
    assert j == k;
  }

  lemma {:induction false} ForeignStays(rows: seq<Row>, items: seq<Item>, after: seq<Row>, p: nat)
    requires IsMigrated(rows, items, after) && p < |after| && !FromSource(items, after[p].id)
    ensures p < |rows| && after[p] == rows[p]
  {
    BehindIsSource(rows, items, after, p);
    assert RowAfter(rows, items, p, after[p]);
  }

  lemma {:induction false} FoundFirst(rows: seq<Row>, items: seq<Item>, after: seq<Row>, k: nat)
    requires DistinctRows(rows) && DistinctIds(items) && KeysApart(items) && IsMigrated(rows, items, after) && k < |items|
    ensures var i := items[k];
            var n := FindOne(after, i.brand, i.sku);
            && n < |after|
            && (after[n].id == i.id <==>
                  forall p :: 0 <= p < IndexOf(rows, i.id) && !FromSource(items, rows[p].id) ==> !UnderKey(rows[p], i))
  {
    hide FieldsAgree, NothingLeftOver, RowAfter, KeysApart, FromSource;
    var i := items[k];
    var n, own := FindOne(after, i.brand, i.sku), IndexOf(after, i.id);
    MergedIs(rows, items, after, k);
    assert n <= own;
    KeptIds(rows, items, after);
    if after[n].id == i.id {
      IndexIs(after, i.id, n);
      forall p | 0 <= p < IndexOf(rows, i.id) && !FromSource(items, rows[p].id) ensures !UnderKey(rows[p], i) {
        ForeignStays(rows, items, after, p);
      }
    } else {
      if FromSource(items, after[n].id) { MatchIsOwn(rows, items, after, k, n); }
      ForeignStays(rows, items, after, n);
      assert UnderKey(rows[n], i);
    }
  }

  lemma {:induction false} KeptIds(rows: seq<Row>, items: seq<Item>, after: seq<Row>)
    requires IsMigrated(rows, items, after)
    ensures forall p :: 0 <= p < |rows| ==> after[p].id == rows[p].id
  {
    forall p | 0 <= p < |rows| ensures after[p].id == rows[p].id {
      assert RowAfter(rows, items, p, after[p]);
    }
  }

  /** With every upsert let through, all source rows are intact exactly when the rows there before are clear of them. */
  lemma {:induction false} UpsertsIntactExactlyWhen(rows: seq<Row>, items: seq<Item>)
    requires DistinctRows(rows) && DistinctIds(items) && KeysApart(items)
    ensures (forall k :: 0 <= k < |items| ==> Intact(UpsertAll(rows, items), items[k]))
            <==> (forall k :: 0 <= k < |items| ==> Clear(rows, items, items[k]))
  {
    var after := UpsertAll(rows, items);
    MigratesAll(rows, items);
    hide UpsertAll, IsMigrated, RowAfter, FieldsAgree, NothingLeftOver, KeysApart, FromSource, UnderKey;
    forall k | 0 <= k < |items| ensures Intact(after, items[k]) <==> Clear(rows, items, items[k]) {
      IntactIsClear(rows, items, after, k);
    }
  }

  lemma {:induction false} IntactIsClear(rows: seq<Row>, items: seq<Item>, after: seq<Row>, k: nat)
    requires DistinctRows(rows) && DistinctIds(items) && KeysApart(items) && IsMigrated(rows, items, after) && k < |items|
    ensures Intact(after, items[k]) <==> Clear(rows, items, items[k])
  {
    MergedIs(rows, items, after, k);
    FoundFirst(rows, items, after, k);
    var n := FindOne(after, items[k].brand, items[k].sku);
    if after[n].id == items[k].id { IndexIs(after, items[k].id, n); }
    hide IsMigrated, RowAfter, FieldsAgree, NothingLeftOver, KeysApart, FromSource, UnderKey;
  }

  /** Rows of nobody's stay where they are and as they are under the upserts. */
  lemma {:induction false} UpsertsLeaveRest(rows: seq<Row>, items: seq<Item>, p: nat)
    requires DistinctRows(rows) && DistinctIds(items) && p < |rows| && !FromSource(items, rows[p].id)
    ensures p < |UpsertAll(rows, items)| && UpsertAll(rows, items)[p] == rows[p]
  {
    MigratesAll(rows, items);
    assert RowAfter(rows, items, p, UpsertAll(rows, items)[p]);
  }

  // ---------------------------------------------------------------------------------------
  // Under the unique index
  // ---------------------------------------------------------------------------------------

  /** What the index promises of the collection. */
  ghost predicate UniqueKeys(rows: seq<Row>) {
    forall i, j :: 0 <= i < j < |rows| ==> !(rows[i].brand == rows[j].brand && rows[i].sku == rows[j].sku)
  }

  lemma {:induction false} WriteKeepsIndex(rows: seq<Row>, i: Item)
    requires DistinctRows(rows) && UniqueKeys(rows)
    ensures DistinctRows(Write(rows, i)) && UniqueKeys(Write(rows, i))
  {
    UpsertPlaces(rows, i);
    if !Refused(rows, i) {
      var n := IndexOf(rows, i.id);
      var after := Upsert(rows, i);
      assert UnderKey(after[n], i);
      forall p | 0 <= p < |after| && p != n ensures !UnderKey(after[p], i) {
        NotTheSame(rows, i, p);
      }
      hide Upsert, Refused, IndexOf;
    }
  }

  lemma {:induction false} WritesKeepIndex(rows: seq<Row>, items: seq<Item>)
    requires DistinctRows(rows) && UniqueKeys(rows)
    ensures DistinctRows(WriteAll(rows, items)) && UniqueKeys(WriteAll(rows, items))
  {
    hide DistinctRows, UniqueKeys, Write;
    if items != [] {
      WritesKeepIndex(rows, items[..|items| - 1]);
      WriteKeepsIndex(WriteAll(rows, items[..|items| - 1]), items[|items| - 1]);
    }
  }

  lemma {:induction false} AdmittedIsUpserts(rows: seq<Row>, items: seq<Item>)
    requires Admitted(rows, items)
    ensures WriteAll(rows, items) == UpsertAll(rows, items)
  {
    hide Refused, Upsert;
    if items != [] { AdmittedIsUpserts(rows, items[..|items| - 1]); }
  }

  /** A row standing under a source row's key is that row, or a copy of a source row that is written before it. */
  ghost predicate Unobstructed(rows: seq<Row>, items: seq<Item>) {
    forall k :: 0 <= k < |items| ==> KeyFree(rows, items, k)
  }

  ghost predicate KeyFree(rows: seq<Row>, items: seq<Item>, k: nat)
    requires k < |items|
  {
    forall p :: 0 <= p < |rows| && UnderKey(rows[p], items[k]) && rows[p].id != items[k].id ==>
                  FromSource(items[..k], rows[p].id)
  }

  lemma {:induction false} Fronts(items: seq<Item>)
    requires items != []
    ensures DistinctIds(items) ==> DistinctIds(items[..|items| - 1])
    ensures KeysApart(items) ==> KeysApart(items[..|items| - 1])
  {
    hide KeyOf;
  }

  lemma {:induction false} UnobstructedFront(rows: seq<Row>, items: seq<Item>)
    requires items != []
    ensures Unobstructed(rows, items) <==>
            Unobstructed(rows, items[..|items| - 1]) && KeyFree(rows, items, |items| - 1)
  {
    var front := items[..|items| - 1];
    forall k | 0 <= k < |front| ensures KeyFree(rows, items, k) <==> KeyFree(rows, front, k) {
      assert front[..k] == items[..k];
    }
  }

  /** The last upsert, once the others have been let through. */
  lemma {:induction false} LastAdmitted(rows: seq<Row>, items: seq<Item>)
    requires items != [] && DistinctRows(rows) && DistinctIds(items) && KeysApart(items)
    ensures Refused(UpsertAll(rows, items[..|items| - 1]), items[|items| - 1]) <==> !KeyFree(rows, items, |items| - 1)
  {
    var k := |items| - 1;
    var front, i := items[..k], items[k];
    var mid := UpsertAll(rows, front);
    Fronts(items);
    MigratesAll(rows, front);
    hide UpsertAll, RowAfter, IsMigrated, DistinctIds, DistinctRows, KeysApart, FromSource, UnderKey;
    if Refused(mid, i) {
      var q :| 0 <= q < |mid| && mid[q].id != i.id && UnderKey(mid[q], i);
      if FromSource(front, mid[q].id) {
        WrittenKeyDiffers(rows, items, mid, q);
      } else {
        ForeignStays(rows, front, mid, q);
      }
    }
    if !KeyFree(rows, items, k) {
      var p :| 0 <= p < |rows| && UnderKey(rows[p], i) && rows[p].id != i.id && !FromSource(front, rows[p].id);
      UpsertsLeaveRest(rows, front, p);
      assert mid[p].id != i.id && UnderKey(mid[p], i);
    }
  }

  lemma {:induction false} WrittenKeyDiffers(rows: seq<Row>, items: seq<Item>, mid: seq<Row>, q: nat)
    requires items != [] && DistinctRows(rows) && DistinctIds(items) && KeysApart(items)
    requires IsMigrated(rows, items[..|items| - 1], mid) && q < |mid| && FromSource(items[..|items| - 1], mid[q].id)
    ensures !UnderKey(mid[q], items[|items| - 1])
  {
    var k := |items| - 1;
    var front := items[..k];
    Fronts(items);
    var j :| 0 <= j < |front| && front[j].id == mid[q].id;
    MergedIs(rows, front, mid, j);
    IndexIs(mid, front[j].id, q);
  }

  /**
   * The index lets every upsert through exactly when no row stands in the way: a foreign row under a
   * source row's key, or a copy of a source row whose own upsert comes later.
   */
  lemma {:induction false} AdmittedExactlyWhen(rows: seq<Row>, items: seq<Item>)
    requires DistinctRows(rows) && DistinctIds(items) && KeysApart(items)
    ensures Admitted(rows, items) <==> Unobstructed(rows, items)
  {
    hide Refused, KeyFree, DistinctRows, DistinctIds, KeysApart;
    if items != [] {
      var front := items[..|items| - 1];
      Fronts(items);
      AdmittedExactlyWhen(rows, front);
      UnobstructedFront(rows, items);
      LastAdmitted(rows, items);
      if Admitted(rows, front) { AdmittedIsUpserts(rows, front); }
      hide Unobstructed, WriteAll, UpsertAll;
    }
  }

  /** The row of this id, if there is one, does not stand under the item's key. */
  ghost predicate NotArrived(rows: seq<Row>, i: Item) {
    forall p :: 0 <= p < |rows| && rows[p].id == i.id ==> !UnderKey(rows[p], i)
  }

  lemma {:induction false} OthersDoNotBring(rows: seq<Row>, i: Item, other: Item)
    requires DistinctRows(rows) && NotArrived(rows, i) && other.id != i.id
    ensures NotArrived(Write(rows, other), i)
  {
    UpsertPlaces(rows, other);
    hide Upsert, UnderKey;
  }

  lemma {:induction false} RefusedNeverArrives(rows: seq<Row>, items: seq<Item>, k: nat)
    requires DistinctRows(rows) && UniqueKeys(rows) && DistinctIds(items) && k < |items|
    requires Refused(WriteAll(rows, items[..k]), items[k])
    ensures NotArrived(WriteAll(rows, items), items[k])
  {
    hide WriteAll, Refused, NotArrived, UniqueKeys, DistinctRows, DistinctIds, KeysApart;
    var n := |items| - 1;
    WritesKeepIndex(rows, items[..n]);
    OneMore(rows, items);
    if k == n {
      AtMostOne(WriteAll(rows, items[..k]), items[k]);
    } else {
      assert items[..n][..k] == items[..k];
      Fronts(items);
      RefusedNeverArrives(rows, items[..n], k);
      assert items[n].id != items[k].id by { IdsDiffer(items, k, n); }
      OthersDoNotBring(WriteAll(rows, items[..n]), items[k], items[n]);
    }
  }

  lemma {:induction false} IdsDiffer(items: seq<Item>, j: nat, k: nat)
    requires DistinctIds(items) && j < k < |items|
    ensures items[j].id != items[k].id
  {
  }

  lemma {:induction false} OneMore(rows: seq<Row>, items: seq<Item>)
    requires items != []
    ensures WriteAll(rows, items) == Write(WriteAll(rows, items[..|items| - 1]), items[|items| - 1])
  {
  }

  lemma {:induction false} AtMostOne(rows: seq<Row>, i: Item)
    requires UniqueKeys(rows) && Refused(rows, i)
    ensures NotArrived(rows, i) && Write(rows, i) == rows
  {
  }

  lemma {:induction false} FirstRefusal(rows: seq<Row>, items: seq<Item>) returns (k: nat)
    requires !Admitted(rows, items)
    ensures k < |items| && Refused(WriteAll(rows, items[..k]), items[k])
  {
    hide Refused, WriteAll;
    var n := |items| - 1;
    if Admitted(rows, items[..n]) { return n; }
    k := FirstRefusal(rows, items[..n]);
    assert items[..n][..k] == items[..k];
  }

  /** Earlier copies of the source rows hold nothing in a compared field that the source row lacks. */
  ghost predicate CopiesBare(rows: seq<Row>, items: seq<Item>) {
    forall k :: 0 <= k < |items| && IndexOf(rows, items[k].id) < |rows| ==>
                  NothingLeftOver(items[k], rows[IndexOf(rows, items[k].id)])
  }

  /** So it is of a migration the index lets through. */
  lemma {:induction false} MigrationCarries(rows: seq<Row>, items: seq<Item>, k: nat)
    requires DistinctRows(rows) && DistinctIds(items) && Admitted(rows, items) && k < |items|
    ensures var after := WriteAll(rows, items);
            var own, was := IndexOf(after, items[k].id), IndexOf(rows, items[k].id);
            && own < |after| && after[own].id == items[k].id
            && after[own].brand == items[k].brand && after[own].sku == items[k].sku
            && AllCarried(if was < |rows| then rows[was].fields else map[], items[k].fields, after[own].fields)
  {
    AdmittedIsUpserts(rows, items);
    EveryFieldCarried(rows, items, k);
  }

  /**
   * A migration that passes the duplicate check is confirmed by the parity check exactly when the
   * index refuses no upsert and earlier copies hold nothing in a compared field that the source row
   * lacks.
   */
  lemma {:induction false} ParityExactlyWhen(rows: seq<Row>, items: seq<Item>)
    requires DistinctRows(rows) && UniqueKeys(rows) && DistinctIds(items) && KeysApart(items)
    ensures (forall k :: 0 <= k < |items| ==> Intact(WriteAll(rows, items), items[k]))
            <==> Unobstructed(rows, items) && CopiesBare(rows, items)
  {
    AdmittedExactlyWhen(rows, items);
    if Unobstructed(rows, items) {
      AdmittedIsUpserts(rows, items);
      UpsertsIntactExactlyWhen(rows, items);
      hide UpsertAll, WriteAll, KeysApart, NothingLeftOver, Intact;
      forall k | 0 <= k < |items|
        ensures Clear(rows, items, items[k]) <==>
                (IndexOf(rows, items[k].id) < |rows| ==> NothingLeftOver(items[k], rows[IndexOf(rows, items[k].id)]))
      {
        NothingAhead(rows, items, k);
      }
    } else {
      var k := FirstRefusal(rows, items);
      RefusedNeverArrives(rows, items, k);
      assert !Intact(WriteAll(rows, items), items[k]);
    }
  }

  lemma {:induction false} NothingAhead(rows: seq<Row>, items: seq<Item>, k: nat)
    requires Unobstructed(rows, items) && k < |items|
    ensures forall p :: 0 <= p < IndexOf(rows, items[k].id) && !FromSource(items, rows[p].id) ==> !UnderKey(rows[p], items[k])
  {
    assert KeyFree(rows, items, k);
    forall p | 0 <= p < IndexOf(rows, items[k].id) && UnderKey(rows[p], items[k]) ensures FromSource(items, rows[p].id) {
      var j :| 0 <= j < k && items[..k][j].id == rows[p].id;
      assert items[j].id == rows[p].id;
    }
  }

  /** In particular with none of their ids and none of their keys there before, all goes through and parity holds. */
  lemma {:induction false} FreshTargetHasParity(rows: seq<Row>, items: seq<Item>)
    requires DistinctRows(rows) && UniqueKeys(rows) && DistinctIds(items) && KeysApart(items)
    requires forall p, k :: 0 <= p < |rows| && 0 <= k < |items| ==> rows[p].id != items[k].id && !UnderKey(rows[p], items[k])
    ensures Admitted(rows, items) && forall k :: 0 <= k < |items| ==> Intact(WriteAll(rows, items), items[k])
  {
    AdmittedExactlyWhen(rows, items);
    ParityExactlyWhen(rows, items);
    hide WriteAll, KeysApart, Intact, NothingLeftOver, UnderKey, FromSource, Admitted, UniqueKeys;
    assert Unobstructed(rows, items);
    forall k | 0 <= k < |items| ensures IndexOf(rows, items[k].id) == |rows| {}
  }

  /** Rows of nobody's stay where they are and as they are, however many upserts are refused. */
  lemma {:induction false} UnrelatedUntouched(rows: seq<Row>, items: seq<Item>, p: nat)
    requires DistinctRows(rows) && p < |rows| && !FromSource(items, rows[p].id)
    ensures p < |WriteAll(rows, items)| && WriteAll(rows, items)[p] == rows[p] && DistinctRows(WriteAll(rows, items))
  {
    if items != [] {
      var n := |items| - 1;
      assert items[n].id != rows[p].id;
      forall j | 0 <= j < n ensures items[..n][j].id != rows[p].id {
        assert items[..n][j] == items[j];
      }
      UnrelatedUntouched(rows, items[..n], p);
      UpsertPlaces(WriteAll(rows, items[..n]), items[n]);
      hide Upsert, Refused, WriteAll, FromSource;
      OneMore(rows, items);
    }
  }

  // ---------------------------------------------------------------------------------------
  // Running it again
  // ---------------------------------------------------------------------------------------

  /** The row the item was written to holds it already. */
  ghost predicate Holds(rows: seq<Row>, i: Item) {
    var n := IndexOf(rows, i.id);
    n < |rows| && Merged(rows[n], i) == rows[n]
  }

  lemma {:induction false} MergedTwice(r: Row, i: Item)
    ensures Merged(Merged(r, i), i) == Merged(r, i) && (r.id == i.id ==> Merged(Created(i), i) == Created(i))
  {
    hide Payload;
    assert (r.fields + Payload(i)) + Payload(i) == r.fields + Payload(i);
    assert Payload(i) + Payload(i) == Payload(i);
  }

  lemma {:induction false} HeldAfter(rows: seq<Row>, items: seq<Item>, k: nat)
    requires DistinctRows(rows) && DistinctIds(items) && k < |items|
    ensures Holds(UpsertAll(rows, items), items[k])
  {
    var after := UpsertAll(rows, items);
    MigratesAll(rows, items);
    hide UpsertAll, Merged, Created;
    var own := IndexOf(after, items[k].id);
    assert RowAfter(rows, items, own, after[own]);
    if own < |rows| {
      MergedTwice(rows[own], items[k]);
    } else {
      KeptIds(rows, items, after);
      assert IndexOf(rows, items[k].id) == |rows|;
      CreatedIs(rows, items, after[own], own, k);
      CreatedTwice(items[k]);
    }
  }

  lemma {:induction false} CreatedTwice(i: Item)
    ensures Merged(Created(i), i) == Created(i)
  {
    hide Payload;
    assert Payload(i) + Payload(i) == Payload(i);
  }

  lemma {:induction false} HeldUpsertsChangeNothing(rows: seq<Row>, items: seq<Item>)
    requires forall k :: 0 <= k < |items| ==> Holds(rows, items[k])
    ensures UpsertAll(rows, items) == rows
  {
    hide Merged;
    if items != [] {
      var n := |items| - 1;
      forall k | 0 <= k < n ensures Holds(rows, items[..n][k]) {
        assert items[..n][k] == items[k];
      }
      HeldUpsertsChangeNothing(rows, items[..n]);
      var own := IndexOf(rows, items[n].id);
      assert Holds(rows, items[n]);
      assert rows[own := rows[own]] == rows;
    }
  }

  lemma {:induction false} UpsertingTwice(rows: seq<Row>, items: seq<Item>)
    requires DistinctRows(rows) && DistinctIds(items)
    ensures UpsertAll(UpsertAll(rows, items), items) == UpsertAll(rows, items)
  {
    hide UpsertAll, Holds;
    forall k | 0 <= k < |items| ensures Holds(UpsertAll(rows, items), items[k]) {
      HeldAfter(rows, items, k);
    }
    HeldUpsertsChangeNothing(UpsertAll(rows, items), items);
  }

  /** After a migration in which nothing was refused, a second one goes through as well and changes nothing. */
  lemma {:induction false} MigratingTwice(rows: seq<Row>, items: seq<Item>)
    requires DistinctRows(rows) && UniqueKeys(rows) && DistinctIds(items) && KeysApart(items)
    requires Admitted(rows, items)
    ensures Admitted(WriteAll(rows, items), items)
    ensures WriteAll(WriteAll(rows, items), items) == WriteAll(rows, items)
  {
    var after := WriteAll(rows, items);
    AdmittedIsUpserts(rows, items);
    UpsertingTwice(rows, items);
    WritesKeepIndex(rows, items);
    MigratesAll(rows, items);
    hide UpsertAll, WriteAll, KeysApart, IsMigrated, Admitted;
    forall k | 0 <= k < |items| ensures KeyFree(after, items, k) {
      MergedIs(rows, items, after, k);
      OnlyUnderKey(after, items[k], IndexOf(after, items[k].id));
    }
    AdmittedExactlyWhen(after, items);
    AdmittedIsUpserts(after, items);
  }

  lemma {:induction false} OnlyUnderKey(rows: seq<Row>, i: Item, own: nat)
    requires UniqueKeys(rows) && own < |rows| && rows[own].id == i.id && UnderKey(rows[own], i)
    ensures forall p :: 0 <= p < |rows| && UnderKey(rows[p], i) ==> rows[p].id == i.id
  {
  }

  /**
   * After one in which something was refused, a second may go further: a row kept the code that a new
   * row asks for, was moved to its own code behind it, and so made room.
   */
  lemma {:induction false} RetryGoesFurther(kept: Row, one: Item, two: Item)
    requires NoDuplicates([one, two])
    requires one.id != kept.id == two.id && UnderKey(kept, one)
    ensures !Admitted([kept], [one, two])
    ensures Admitted(WriteAll([kept], [one, two]), [one, two])
  {
    hide NoDuplicates, Refused, Write, WriteAll, Admitted, Merged, KeyOf, UnderKey;
    NoDuplicateKeys([one, two]);
    TwoItems([kept], one, two);
    TwoItems([Merged(kept, two)], one, two);
    FirstTry(kept, one, two);
    OwnUpsert(kept, two);
    assert [one, two][0] == one && [one, two][1] == two;
    SecondTry(Merged(kept, two), one, two);
  }

  lemma {:induction false} FirstTry(kept: Row, one: Item, two: Item)
    requires one.id != kept.id == two.id && UnderKey(kept, one)
    ensures Refused([kept], one) && Write([kept], one) == [kept]
    ensures !Refused([kept], two) && Write([kept], two) == [Merged(kept, two)]
  {
    assert [kept][0].id != one.id && UnderKey([kept][0], one);
    OwnUpsert(kept, two);
    hide Merged, Upsert, UnderKey;
  }

  lemma {:induction false} SecondTry(moved: Row, one: Item, two: Item)
    requires moved.id == two.id != one.id && moved.brand == two.brand && moved.sku == two.sku
    requires one.brand != two.brand || one.sku != two.sku
    ensures !Refused([moved], one) && !Refused(Write([moved], one), two)
  {
    CreatedIsApart(one, two);
    assert IndexOf([moved], one.id) == 1;
    assert Upsert([moved], one) == [moved] + [Created(one)];
    hide Upsert, Created;
    assert !Refused([moved], one);
  }

  lemma {:induction false} TwoItems(rows: seq<Row>, one: Item, two: Item)
    ensures var mid := Write(rows, one);
            && WriteAll(rows, [one, two]) == Write(mid, two)
            && (Admitted(rows, [one, two]) <==> !Refused(rows, one) && !Refused(mid, two))
  {
    hide Refused, Write;
    assert [one, two][..1] == [one] && [one][..0] == [];
    assert WriteAll(rows, []) == rows && Admitted(rows, []);
    assert WriteAll(rows, [one]) == Write(rows, one);
    assert Admitted(rows, [one]) == !Refused(rows, one);
  }

  lemma {:induction false} OwnUpsert(r: Row, i: Item)
    requires r.id == i.id
    ensures Upsert([r], i) == [Merged(r, i)]
    ensures Merged(r, i).id == r.id && Merged(r, i).brand == i.brand && Merged(r, i).sku == i.sku
  {
    assert IndexOf([r], i.id) == 0;
    hide Payload;
  }

  lemma {:induction false} CreatedIsApart(one: Item, two: Item)
    requires one.id != two.id && (one.brand != two.brand || one.sku != two.sku)
    ensures Created(one).id == one.id && !UnderKey(Created(one), two)
  {
    hide Payload;
  }
}
