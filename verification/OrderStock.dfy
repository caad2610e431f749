/**
 * Ordering a product: the stock step of POST /orders (backend/routes/api.routes.js).
 *
 * The serial meaning of one order comes first. Then the transactions as the database runs them, one
 * step at a time and interleaved: each reads a snapshot, later writes whole field values computed
 * from it, and is aborted when the document changed in between or is held by another writer.
 */
module OrderStock {
  import opened Options
  import opened JsText

  type Numerals = s: string | s != "" && AllDigits(s) witness "0"

  /** `requestedQty` as the request body carries it: a number, or the digits of one as text. */
  datatype Quantity = Number(n: int) | Digits(text: Numerals)

  datatype Order = Order(sku: string, quantity: Quantity)

  datatype Product = Product(available: int, booked: int)

  /** The quantity as every comparison and subtraction reads it. */
  function Units(q: Quantity): int {
    match q
    case Number(n) => n
    case Digits(text) => ValueOf(text)
  }

  /** `booked += requestedQty`: for a text, `+` appends its digits and the field reads the result. */
  function Added(booked: int, q: Quantity): int {
    match q
    case Number(n) => booked + n
    case Digits(text) =>
      var read: int := ValueOf(Numeral(if booked >= 0 then booked else -booked) + text);
      if booked >= 0 then read else 0 - read
  }

  function Placed(p: Product, q: Quantity): Product {
    Product(p.available - Units(q), Added(p.booked, q))
  }

  predicate Acceptable(p: Product, q: Quantity) {
    0 < Units(q) <= p.available
  }

  type Stock = map<string, Product>

  /** One order after another, each finding enough stock. */
  function Serially(stock: Stock, orders: seq<Order>): (r: Option<Stock>)
    ensures r.Some? ==> r.value.Keys == stock.Keys
  {
    if orders == [] then Some(stock)
    else
      var before := Serially(stock, orders[..|orders| - 1]);
      var o := orders[|orders| - 1];
      if before.None? || o.sku !in stock || !Acceptable(before.value[o.sku], o.quantity) then None
      else Some(before.value[o.sku := Placed(before.value[o.sku], o.quantity)])
  }

  datatype Outcome = Created | Refused

  /** The product collection with nobody else at work on it. */
  class Catalogue {
    var products: Stock
    var orders: seq<Order>

    constructor (stock: Stock)
      ensures products == stock && orders == []
    {
      products := stock;
      orders := [];
    }

    method PlaceOrder(o: Order, msilActive: bool, allowed: bool) returns (r: Outcome)
      modifies this
      ensures forall start :: Serially(start, old(orders)) == Some(old(products)) ==>
                                Serially(start, orders) == Some(products)
      ensures r == Created <==>
              && o.sku in old(products) && 0 < Units(o.quantity) <= old(products)[o.sku].available && msilActive && allowed
      ensures r == Created ==> products == old(products)[o.sku := Placed(old(products)[o.sku], o.quantity)]
      ensures orders == if r == Created then old(orders) + [o] else old(orders)
      ensures r == Refused ==> products == old(products)
    {
      if Units(o.quantity) <= 0 || o.sku !in products {
        return Refused;
      }
      var product := products[o.sku];
      if product.available < Units(o.quantity) || !msilActive {
        return Refused;
      }
      product := product.(available := product.available - Units(o.quantity));
      product := product.(booked := Added(product.booked, o.quantity));
      if !allowed {
        return Refused;
      }
      products := products[o.sku := product];
      orders := orders + [o];
      assert orders[..|orders| - 1] == old(orders);
      return Created;
    }
  }

  // ---------------------------------------------------------------------------------------
  // What serial orders keep
  // ---------------------------------------------------------------------------------------

  /** The units ordered of one product. */
  function Ordered(orders: seq<Order>, sku: string): int {
    if orders == [] then 0
    else
      var o := orders[|orders| - 1];
      Ordered(orders[..|orders| - 1], sku) + if o.sku == sku then Units(o.quantity) else 0
  }

  /** Every order of this product came as a number, or found nothing booked yet. */
  ghost predicate CleanlyBooked(stock: Stock, orders: seq<Order>, sku: string)
    requires Serially(stock, orders).Some? && sku in stock
  {
    orders == [] ||
    var front, o := orders[..|orders| - 1], orders[|orders| - 1];
    CleanlyBooked(stock, front, sku) &&
    (o.sku == sku ==> o.quantity.Number? || Serially(stock, front).value[sku].booked == 0)
  }

  lemma {:induction false} Pow10Grows(k: nat)
    ensures Pow10(k) >= 1 && (k > 0 ==> Pow10(k) >= 10)
  {
    if k > 0 { Pow10Grows(k - 1); }
  }

  lemma {:induction false} ScaledUp(n: nat, p: nat)
    requires p >= 10
    ensures n * p >= n && (n * p == n <==> n == 0)
  {
    assert n * p == n + n * (p - 1);
  }

  /** Text appended to digits overshoots the sum by a multiple of what was there. */
  lemma {:induction false} AddedOvershoots(booked: nat, q: Quantity)
    ensures Added(booked, q) >= booked + Units(q)
    ensures Added(booked, q) == booked + Units(q) <==> q.Number? || booked == 0
  {
    if q.Digits? {
      hide ValueOf, Numeral, AllDigits, Pow10;
      NumeralValue(booked);
      ValueConcat(Numeral(booked), q.text);
      Pow10Grows(|q.text|);
      ScaledUp(booked, Pow10(|q.text|));
    }
  }

  /** Below zero the text is appended to the digits behind the sign. */
  lemma {:induction false} AddedBelowZero(booked: int, q: Quantity)
    requires booked < 0
    ensures Added(booked, q) == if q.Digits? then -Added(-booked, q) else booked + Units(q)
  {
  }

  /** The stock is taken exactly once per order and never below zero. */
  lemma {:induction false} AvailableIsExact(stock: Stock, orders: seq<Order>, sku: string)
    requires Serially(stock, orders).Some? && sku in stock && stock[sku].available >= 0
    ensures var p := Serially(stock, orders).value[sku];
            p.available >= 0 && p.available == stock[sku].available - Ordered(orders, sku)
  {
    if orders != [] {
      AvailableIsExact(stock, orders[..|orders| - 1], sku);
    }
  }

  /**
   * `bookedQuantity` rises by the units ordered, and never by less, exactly when no order that came
   * as text met units already booked.
   */
  lemma {:induction false} BookedIsExact(stock: Stock, orders: seq<Order>, sku: string)
    requires Serially(stock, orders).Some? && sku in stock && stock[sku].booked >= 0
    ensures var p := Serially(stock, orders).value[sku];
            && p.booked >= stock[sku].booked + Ordered(orders, sku) && Ordered(orders, sku) >= 0
            && (p.booked == stock[sku].booked + Ordered(orders, sku) <==> CleanlyBooked(stock, orders, sku))
  {
    if orders != [] {
      var front, o := orders[..|orders| - 1], orders[|orders| - 1];
      BookedIsExact(stock, front, sku);
      if o.sku == sku {
        AddedOvershoots(Serially(stock, front).value[sku].booked, o.quantity);
      }
    }
  }

  // ---------------------------------------------------------------------------------------
  // Transactions, step by step
  // ---------------------------------------------------------------------------------------

  datatype Doc = Doc(stock: Product, version: nat, writer: Option<nat>)

  datatype Transaction =
    | Begun(order: Order)
    | Read(order: Order, seen: Product, version: nat)
    | Written(order: Order, seen: Product, version: nat)
    | Committed
    | Aborted

  datatype Database = Database(products: map<string, Doc>, transactions: map<nat, Transaction>, orders: seq<Order>)

  datatype Step =
    | Begin(t: nat, order: Order)
    | Find(t: nat)
    | Save(t: nat, msilActive: bool)
    | Finish(t: nat, allowed: bool)
    | Fail(t: nat)

  function Abort(db: Database, t: nat): Database
    requires t in db.transactions
  {
    var tx := db.transactions[t];
    var released := if tx.Written? && tx.order.sku in db.products
                    then db.products[tx.order.sku := db.products[tx.order.sku].(writer := None)] else db.products;
    db.(products := released, transactions := db.transactions[t := Aborted])
  }

  /** One step of one transaction; a step that is not its turn changes nothing. */
  function Next(detect: bool, db: Database, step: Step): Database {
    match step
    case Begin(t, order) =>
      if t in db.transactions || Units(order.quantity) <= 0 then db
      else db.(transactions := db.transactions[t := Begun(order)])
    case Find(t) =>
      if t !in db.transactions || !db.transactions[t].Begun? then db
      else
        var order := db.transactions[t].order;
        if order.sku !in db.products then Abort(db, t)
        else
          var doc := db.products[order.sku];
          db.(transactions := db.transactions[t := Read(order, doc.stock, doc.version)])
    case Save(t, msilActive) =>
      if t !in db.transactions || !db.transactions[t].Read? then db
      else
        var Read(order, seen, version) := db.transactions[t];
        if order.sku !in db.products || seen.available < Units(order.quantity) || !msilActive then Abort(db, t)
        else
          var doc := db.products[order.sku];
          if detect && (doc.version != version || doc.writer.Some?) then Abort(db, t)
          else db.(products := db.products[order.sku := doc.(writer := Some(t))],
                   transactions := db.transactions[t := Written(order, seen, version)])
    case Finish(t, allowed) =>
      if t !in db.transactions || !db.transactions[t].Written? then db
      else
        var Written(order, seen, version) := db.transactions[t];
        if !allowed || order.sku !in db.products then Abort(db, t)
        else
          var doc := db.products[order.sku];
          Database(db.products[order.sku := Doc(Placed(seen, order.quantity), doc.version + 1, None)],
                   db.transactions[t := Committed], db.orders + [order])
    case Fail(t) =>
      if t !in db.transactions || db.transactions[t] == Committed then db else Abort(db, t)
  }

  function Opened(stock: Stock): Database {
    Database(map sku | sku in stock :: Doc(stock[sku], 0, None), map[], [])
  }

  function Run(detect: bool, stock: Stock, steps: seq<Step>): Database {
    if steps == [] then Opened(stock)
    else Next(detect, Run(detect, stock, steps[..|steps| - 1]), steps[|steps| - 1])
  }

  function Stocks(db: Database): Stock {
    map sku | sku in db.products :: db.products[sku].stock
  }

  ghost predicate ReaderOk(db: Database, tx: Transaction)
    requires tx.Read? || tx.Written?
  {
    && tx.order.sku in db.products && Units(tx.order.quantity) > 0
    && tx.version <= db.products[tx.order.sku].version
    && (tx.version == db.products[tx.order.sku].version ==> tx.seen == db.products[tx.order.sku].stock)
  }

  ghost predicate WriterOk(db: Database, t: nat, tx: Transaction)
    requires tx.Written?
  {
    && ReaderOk(db, tx) && tx.version == db.products[tx.order.sku].version
    && db.products[tx.order.sku].writer == Some(t) && Acceptable(tx.seen, tx.order.quantity)
  }

  ghost predicate TransactionsOk(db: Database) {
    && (forall t :: t in db.transactions && db.transactions[t].Begun? ==> Units(db.transactions[t].order.quantity) > 0)
    && (forall t :: t in db.transactions && db.transactions[t].Read? ==> ReaderOk(db, db.transactions[t]))
    && (forall t :: t in db.transactions && db.transactions[t].Written? ==> WriterOk(db, t, db.transactions[t]))
  }

  /** Every document a transaction holds is held by a transaction that wrote it. */
  ghost predicate WritersOk(db: Database) {
    forall sku :: sku in db.products && db.products[sku].writer.Some? ==>
      var t := db.products[sku].writer.value;
      t in db.transactions && db.transactions[t].Written? && db.transactions[t].order.sku == sku
  }

  ghost predicate SerialOk(stock: Stock, db: Database) {
    Serially(stock, db.orders) == Some(Stocks(db))
  }

  lemma {:induction false} AbortKeeps(stock: Stock, db: Database, t: nat)
    requires TransactionsOk(db) && WritersOk(db) && SerialOk(stock, db) && t in db.transactions
    ensures TransactionsOk(Abort(db, t)) && WritersOk(Abort(db, t)) && SerialOk(stock, Abort(db, t))
  {
    hide Serially, Units, Acceptable;
    assert Stocks(Abort(db, t)) == Stocks(db);
  }

  lemma {:induction false} SaveKeeps(stock: Stock, db: Database, t: nat, msilActive: bool)
    requires TransactionsOk(db) && WritersOk(db) && SerialOk(stock, db)
    ensures var after := Next(true, db, Save(t, msilActive));
            TransactionsOk(after) && WritersOk(after) && SerialOk(stock, after)
  {
    hide Serially, Units, Placed;
    if t in db.transactions && db.transactions[t].Read? {
      AbortKeeps(stock, db, t);
      assert Stocks(Next(true, db, Save(t, msilActive))) == Stocks(db);
    }
  }

  lemma {:induction false} CommitTransactions(db: Database, t: nat)
    requires TransactionsOk(db) && WritersOk(db) && t in db.transactions && db.transactions[t].Written?
    ensures TransactionsOk(Next(true, db, Finish(t, true))) && WritersOk(Next(true, db, Finish(t, true)))
  {
    hide Units, Placed, Acceptable;
    var tx := db.transactions[t];
    assert WriterOk(db, t, tx);
    var after := Next(true, db, Finish(t, true));
    assert forall sku :: sku in db.products && sku != tx.order.sku ==> after.products[sku] == db.products[sku];
    assert forall u :: u in db.transactions && u != t ==> after.transactions[u] == db.transactions[u];
  }

  lemma {:induction false} SeriallySnoc(stock: Stock, orders: seq<Order>, o: Order)
    requires Serially(stock, orders).Some? && o.sku in stock && Acceptable(Serially(stock, orders).value[o.sku], o.quantity)
    ensures var before := Serially(stock, orders).value;
            Serially(stock, orders + [o]) == Some(before[o.sku := Placed(before[o.sku], o.quantity)])
  {
    hide Placed, Acceptable;
    assert (orders + [o])[..|orders|] == orders;
  }

  lemma {:induction false} CommitSerial(stock: Stock, db: Database, t: nat)
    requires TransactionsOk(db) && SerialOk(stock, db) && t in db.transactions && db.transactions[t].Written?
    ensures SerialOk(stock, Next(true, db, Finish(t, true)))
  {
    hide Units, Placed, Serially;
    var tx := db.transactions[t];
    assert WriterOk(db, t, tx);
    var after := Next(true, db, Finish(t, true));
    assert Stocks(db).Keys == stock.Keys && Stocks(db)[tx.order.sku] == tx.seen;
    SeriallySnoc(stock, db.orders, tx.order);
    assert Stocks(after) == Stocks(db)[tx.order.sku := Placed(tx.seen, tx.order.quantity)];
  }

  lemma {:induction false} FinishKeeps(stock: Stock, db: Database, t: nat, allowed: bool)
    requires TransactionsOk(db) && WritersOk(db) && SerialOk(stock, db)
    ensures var after := Next(true, db, Finish(t, allowed));
            TransactionsOk(after) && WritersOk(after) && SerialOk(stock, after)
  {
    if t in db.transactions && db.transactions[t].Written? {
      AbortKeeps(stock, db, t);
      CommitTransactions(db, t);
      CommitSerial(stock, db, t);
    }
    hide Units, Placed, SerialOk, TransactionsOk, WritersOk;
  }

  lemma {:induction false} StepKeeps(stock: Stock, db: Database, step: Step)
    requires TransactionsOk(db) && WritersOk(db) && SerialOk(stock, db)
    ensures var after := Next(true, db, step);
            TransactionsOk(after) && WritersOk(after) && SerialOk(stock, after)
  {
    hide Serially, Units, Placed;
    if step.t in db.transactions {
      AbortKeeps(stock, db, step.t);
    }
    match step
    case Save(t, msilActive) => SaveKeeps(stock, db, t, msilActive);
    case Finish(t, allowed) => FinishKeeps(stock, db, t, allowed);
    case Begin(_, _) => assert Stocks(Next(true, db, step)) == Stocks(db);
    case Find(_) =>
    case Fail(_) =>
  }

  lemma {:induction false} RunKeeps(stock: Stock, steps: seq<Step>)
    ensures var db := Run(true, stock, steps); TransactionsOk(db) && WritersOk(db) && SerialOk(stock, db)
  {
    if steps == [] {
      assert Stocks(Opened(stock)) == stock;
    } else {
      RunKeeps(stock, steps[..|steps| - 1]);
      StepKeeps(stock, Run(true, stock, steps[..|steps| - 1]), steps[|steps| - 1]);
    }
  }

  /**
   * Every interleaving is serial: the stock is what the committed orders, in the order they
   * committed, would have left one after another, each of them finding enough.
   */
  lemma {:induction false} InterleavingIsSerial(stock: Stock, steps: seq<Step>)
    ensures Serially(stock, Run(true, stock, steps).orders) == Some(Stocks(Run(true, stock, steps)))
  {
    RunKeeps(stock, steps);
  }

  /**
   * So no interleaving oversells: nothing goes below zero, the stock falls by exactly the committed
   * orders, and what was available and what is booked keep their sum exactly when no order that
   * came as text met units already booked.
   */
  lemma {:induction false} NoOversell(stock: Stock, steps: seq<Step>, sku: string)
    requires sku in stock && stock[sku].available >= 0 && stock[sku].booked >= 0
    ensures var db := Run(true, stock, steps);
            && sku in db.products && Serially(stock, db.orders).Some?
            && db.products[sku].stock.available >= 0
            && db.products[sku].stock.available == stock[sku].available - Ordered(db.orders, sku)
            && (db.products[sku].stock.available + db.products[sku].stock.booked == stock[sku].available + stock[sku].booked
                <==> CleanlyBooked(stock, db.orders, sku))
  {
    hide Serially, Run, Ordered, CleanlyBooked;
    var db := Run(true, stock, steps);
    InterleavingIsSerial(stock, steps);
    assert Stocks(db).Keys == stock.Keys;
    assert Stocks(db)[sku] == db.products[sku].stock;
    AvailableIsExact(stock, db.orders, sku);
    BookedIsExact(stock, db.orders, sku);
  }

  /** A transaction that did not commit leaves no trace in the stock. */
  lemma {:induction false} AbortedLeavesNothing(db: Database, t: nat)
    requires t in db.transactions
    ensures Stocks(Abort(db, t)) == Stocks(db) && Abort(db, t).orders == db.orders
  {
    assert Stocks(Abort(db, t)) == Stocks(db);
  }

  function After(detect: bool, db: Database, steps: seq<Step>): Database
    decreases |steps|
  {
    if steps == [] then db else After(detect, Next(detect, db, steps[0]), steps[1..])
  }

  lemma {:induction false} RunIsAfter(detect: bool, stock: Stock, front: seq<Step>, rest: seq<Step>)
    ensures Run(detect, stock, front + rest) == After(detect, Run(detect, stock, front), rest)
    decreases |rest|
  {
    if rest == [] {
      assert front + rest == front;
    } else {
      assert (front + [rest[0]])[..|front|] == front;
      RunIsAfter(detect, stock, front + [rest[0]], rest[1..]);
      assert front + [rest[0]] + rest[1..] == front + rest;
    }
  }

  function Both(o: Order): seq<Step> {
    [Begin(0, o), Begin(1, o), Find(0), Find(1), Save(0, true), Finish(0, true), Save(1, true), Finish(1, true)]
  }

  function Shelf(sku: string, p: Product, version: nat, txs: map<nat, Transaction>, orders: seq<Order>): Database {
    Database(map[sku := Doc(p, version, None)], txs, orders)
  }

  lemma {:induction false} BothRead(o: Order, p: Product)
    requires Units(o.quantity) > 0
    ensures var d := Shelf(o.sku, p, 0, map[], []);
            Next(false, Next(false, Next(false, Next(false, d, Begin(0, o)), Begin(1, o)), Find(0)), Find(1))
            == Shelf(o.sku, p, 0, map[0 := Read(o, p, 0), 1 := Read(o, p, 0)], [])
  {
    hide Units;
    var d := Shelf(o.sku, p, 0, map[], []);
    var d2 := Next(false, Next(false, d, Begin(0, o)), Begin(1, o));
    assert d2.transactions == map[0 := Begun(o), 1 := Begun(o)];
    assert Next(false, Next(false, d2, Find(0)), Find(1)).transactions == map[0 := Read(o, p, 0), 1 := Read(o, p, 0)];
  }

  /** Without the check a writer finishes on what it read, whatever the document holds by then. */
  lemma {:induction false} WritesWhatItRead(t: nat, o: Order, seen: Product, d: Database)
    requires t in d.transactions && d.transactions[t] == Read(o, seen, 0) && Units(o.quantity) <= seen.available
    requires exists p, v :: d.products == map[o.sku := Doc(p, v, None)]
    ensures var after := Next(false, Next(false, d, Save(t, true)), Finish(t, true));
            && after.products == map[o.sku := Doc(Placed(seen, o.quantity), d.products[o.sku].version + 1, None)]
            && after.transactions == d.transactions[t := Committed] && after.orders == d.orders + [o]
  {
    hide Units, Placed;
    var saved := Next(false, d, Save(t, true));
    assert saved.transactions == d.transactions[t := Written(o, seen, 0)];
    assert Next(false, saved, Finish(t, true)).transactions == d.transactions[t := Committed];
  }

  /**
   * The conflict check is what this rests on. Without it two equal orders that read before either
   * wrote both commit: the stock falls once for two orders, which oversells it when there was not
   * enough for both.
   */
  lemma {:induction false} WithoutConflictsOversells(o: Order, p: Product)
    requires 0 < Units(o.quantity) <= p.available
    ensures var stock: Stock := map[o.sku := p];
            var db := Run(false, stock, Both(o));
            && Stocks(db) == map[o.sku := Placed(p, o.quantity)]
            && Ordered(db.orders, o.sku) == 2 * Units(o.quantity)
  {
    hide Next, After, Run, Units, Placed, Both;
    var stock: Stock := map[o.sku := p];
    assert Opened(stock) == Shelf(o.sku, p, 0, map[], []);
    var read := Shelf(o.sku, p, 0, map[0 := Read(o, p, 0), 1 := Read(o, p, 0)], []);
    BothRead(o, p);
    WritesWhatItRead(0, o, p, read);
    var once := Next(false, Next(false, read, Save(0, true)), Finish(0, true));
    WritesWhatItRead(1, o, p, once);
    var twice := Next(false, Next(false, once, Save(1, true)), Finish(1, true));
    assert Run(false, stock, Both(o)) == twice by {
      RunOfBoth(stock, o);
    }
    assert twice.orders == [o, o];
    OrderedTwice(o);
  }

  lemma {:induction false} OrderedTwice(o: Order)
    ensures Ordered([o, o], o.sku) == 2 * Units(o.quantity)
  {
    hide Units;
    assert [o, o][..1] == [o] && [o][..0] == [];
    assert Ordered([o], o.sku) == Units(o.quantity);
  }

  lemma {:induction false} RunOfBoth(stock: Stock, o: Order)
    ensures var s := Both(o);
            Run(false, stock, s) == Next(false, Next(false, Next(false, Next(false, Next(false, Next(false, Next(false,
              Next(false, Opened(stock), Begin(0, o)), Begin(1, o)), Find(0)), Find(1)),
              Save(0, true)), Finish(0, true)), Save(1, true)), Finish(1, true))
  {
    hide Next, Opened, After;
    var s := Both(o);
    RunIsAfter(false, stock, [], s);
    assert [] + s == s;
    AfterEight(false, Opened(stock), s);
  }

  lemma {:induction false} AfterEight(detect: bool, db: Database, s: seq<Step>)
    requires |s| == 8
    ensures After(detect, db, s) ==
            Next(detect, Next(detect, Next(detect, Next(detect, Next(detect, Next(detect, Next(detect,
              Next(detect, db, s[0]), s[1]), s[2]), s[3]), s[4]), s[5]), s[6]), s[7])
  {
    hide Next;
    var d1 := Next(detect, db, s[0]);
    var d2 := Next(detect, d1, s[1]);
    var d3 := Next(detect, d2, s[2]);
    AfterFour(detect, db, s);
    var rest := s[4..];
    AfterFour(detect, Next(detect, d3, s[3]), rest);
    assert rest[4..] == [];
  }

  lemma {:induction false} AfterFour(detect: bool, db: Database, s: seq<Step>)
    requires |s| >= 4
    ensures After(detect, db, s) ==
            After(detect, Next(detect, Next(detect, Next(detect, Next(detect, db, s[0]), s[1]), s[2]), s[3]), s[4..])
  {
    hide Next;
    assert s[1..][1..] == s[2..] && s[2..][1..] == s[3..] && s[3..][1..] == s[4..];
    assert s[1..][0] == s[1] && s[2..][0] == s[2] && s[3..][0] == s[3];
    var d1 := Next(detect, db, s[0]);
    var d2 := Next(detect, d1, s[1]);
    var d3 := Next(detect, d2, s[2]);
    assert After(detect, d2, s[2..]) == After(detect, d3, s[3..]);
    assert After(detect, d1, s[1..]) == After(detect, d2, s[2..]);
  }

  /**
   * With nobody else at work on its product, an order of at least one unit and no more than is available
   * goes through, and any other is turned away with nothing changed.
   */
  lemma {:induction false} AloneGoesThrough(db: Database, t: nat, order: Order)
    requires t !in db.transactions && order.sku in db.products && db.products[order.sku].writer == None
    ensures var before := db.products[order.sku].stock;
            var after := Next(true, Next(true, Next(true, Next(true, db, Begin(t, order)), Find(t)), Save(t, true)), Finish(t, true));
            if 0 < Units(order.quantity) <= before.available then
              && after.orders == db.orders + [order] && t in after.transactions && after.transactions[t] == Committed
              && after.products.Keys == db.products.Keys
              && after.products[order.sku].stock.available == before.available - Units(order.quantity)
              && after.products[order.sku].stock.booked == Added(before.booked, order.quantity)
              && after.products[order.sku].writer == None
              && forall sku :: sku in db.products && sku != order.sku ==> after.products[sku] == db.products[sku]
            else after.orders == db.orders && after.products == db.products
  {
    hide Units, Added;
  }
}
