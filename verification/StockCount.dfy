/**
 * Stock count sessions (backend/modules/inventory/count.service.js, backend/models/StockCount.js,
 * backend/models/StockCountLine.js): the sheet one session fills in, from its creation to the
 * adjustment it posts.
 */
module StockCount {
  import opened Options
  import opened JsText
  import opened Sums
  import Posting
  import Projection

  datatype Status = Draft | Counting | Submitted | Approved | Rejected | Posted | Cancelled

  /** COUNT_TRANSITIONS */
  predicate Allowed(from: Status, to: Status) {
    match from
    case Draft => to == Counting || to == Cancelled
    case Counting => to == Submitted || to == Cancelled
    case Submitted => to == Approved || to == Rejected || to == Cancelled
    case Approved => to == Posted
    case Rejected => to == Counting || to == Cancelled
    case Posted => false
    case Cancelled => false
  }

  /** No session is a draft again, and a posted or cancelled one is left as it is. */
  lemma {:induction false} NoWayBack(s: Status)
    ensures !Allowed(s, Draft) && !Allowed(Posted, s) && !Allowed(Cancelled, s)
  {
  }

  ghost predicate IsPath(history: seq<Status>) {
    && history != [] && history[0] == Draft
    && forall i :: 0 <= i < |history| - 1 ==> Allowed(history[i], history[i + 1])
  }

  /** A session that got to Posted did so straight from Counting, Submitted and Approved, in that order. */
  lemma {:induction false} PostedWasReviewed(history: seq<Status>)
    requires IsPath(history) && history[|history| - 1] == Posted
    ensures |history| >= 5 && history[|history| - 4..] == [Counting, Submitted, Approved, Posted]
  {
    var n := |history|;
    assert n >= 2 && Allowed(history[n - 2], history[n - 1]);
    assert n >= 3 && Allowed(history[n - 3], history[n - 2]);
    assert n >= 4 && Allowed(history[n - 4], history[n - 3]);
    assert n >= 5 && Allowed(history[n - 5], history[n - 4]);
  }

  // ---------------------------------------------------------------------------------------
  // One sheet
  // ---------------------------------------------------------------------------------------

  datatype Item = Item(sku: string, brand: string)

  datatype Check = Pending | Matched | Variance | Skipped

  /**
   * A line of the sheet: the frozen expectation, what was counted, what became of it, and the live
   * balance the last submission found where it differed from the expectation.
   */
  datatype Line = Line(
    item: Item, expected: int, counted: Option<nat>, reason: Option<string>, check: Check, required: bool,
    posted: bool, locked: bool, moved: Option<int>)

  /** What a balance is frozen as. */
  datatype Balance = Balance(item: Item, onHand: int)

  function Frozen(b: Balance): Line {
    Line(b.item, b.onHand, None, None, Pending, false, false, true, None)
  }

  function Sheet(balances: seq<Balance>): (lines: seq<Line>)
    ensures |lines| == |balances|
  {
    seq(|balances|, i requires 0 <= i < |balances| => Frozen(balances[i]))
  }

  function Difference(l: Line): int {
    if l.counted.Some? then l.counted.value - l.expected else 0
  }

  /** The figures and labels of a line agree: to be adjusted exactly when counted and different, and then with a reason. */
  ghost predicate Consistent(l: Line) {
    && (l.required <==> l.counted.Some? && Difference(l) != 0) && (l.posted ==> l.required)
    && (l.check == Variance <==> l.required)
    && (l.check == Matched <==> l.counted.Some? && Difference(l) == 0)
    && (l.check == Variance ==> l.reason.Some? && l.reason.value != "") && (l.check != Variance ==> l.reason == None)
  }

  ghost predicate AllConsistent(lines: seq<Line>) {
    forall i :: 0 <= i < |lines| ==> Consistent(lines[i])
  }

  /** An entry of a submission; its figure is None when it is not a whole number of zero or more. */
  datatype Entry = Entry(sku: string, counted: Option<nat>, reason: string)

  function Reason(e: Entry): Option<string> {
    if e.reason == "" then None else Some(Upper(Trim(e.reason)))
  }

  /** A variance must be explained, by an active code where codes are configured. */
  predicate Explained(e: Entry, expected: int, codes: set<string>)
    requires e.counted.Some?
  {
    e.counted.value != expected ==>
      Reason(e).Some? && Reason(e).value != "" && (codes == {} || Reason(e).value in codes)
  }

  /** The line an entry for a SKU goes to: lines are looked up by SKU alone, and the last one of a SKU is found. */
  function LineOf(lines: seq<Line>, sku: string): (n: nat)
    ensures n <= |lines| && (n < |lines| ==> lines[n].item.sku == sku)
    ensures n < |lines| ==> forall i :: n < i < |lines| ==> lines[i].item.sku != sku
    ensures n == |lines| ==> forall i :: 0 <= i < |lines| ==> lines[i].item.sku != sku
  {
    if lines == [] then 0
    else if lines[|lines| - 1].item.sku == sku then |lines| - 1
    else
      var n := LineOf(lines[..|lines| - 1], sku);
      assert forall i :: 0 <= i < |lines| - 1 ==> lines[i] == lines[..|lines| - 1][i];
      if n == |lines| - 1 then |lines| else n
  }

  predicate Recordable(lines: seq<Line>, e: Entry, codes: set<string>) {
    var n := LineOf(lines, Trim(e.sku));
    n < |lines| && e.counted.Some? && Explained(e, lines[n].expected, codes)
  }

  /** An entry written to its line; a posted line is not touched. */
  function Recorded(l: Line, e: Entry): Line
    requires e.counted.Some?
  {
    if l.posted then l
    else if e.counted.value == l.expected then l.(counted := e.counted, reason := None, check := Matched, required := false)
    else l.(counted := e.counted, reason := Reason(e), check := Variance, required := true)
  }

  function RecordedNext(lines: seq<Line>, e: Entry): (r: seq<Line>)
    ensures |r| == |lines|
  {
    var n := LineOf(lines, Trim(e.sku));
    if n < |lines| && e.counted.Some? then lines[n := Recorded(lines[n], e)] else lines
  }

  /** The sheet after a submission was written: of several entries for one line the last one stands. */
  function RecordedAll(lines: seq<Line>, es: seq<Entry>): (r: seq<Line>)
    ensures |r| == |lines|
  {
    if es == [] then lines else RecordedNext(RecordedAll(lines, es[..|es| - 1]), es[|es| - 1])
  }

  ghost predicate SameItems(lines: seq<Line>, after: seq<Line>) {
    |after| == |lines| && forall i :: 0 <= i < |lines| ==> after[i].item == lines[i].item
  }

  lemma {:induction false} SameLineOf(lines: seq<Line>, after: seq<Line>, sku: string)
    requires SameItems(lines, after)
    ensures LineOf(after, sku) == LineOf(lines, sku)
  {
    var n, m := LineOf(lines, sku), LineOf(after, sku);
    if n < |lines| { assert after[n].item == lines[n].item; }
    if m < |lines| { assert after[m].item == lines[m].item; }
  }

  lemma {:induction false} RecordedItems(lines: seq<Line>, es: seq<Entry>)
    ensures SameItems(lines, RecordedAll(lines, es))
  {
    hide Trim, Reason, LineOf;
    if es != [] { RecordedItems(lines, es[..|es| - 1]); }
  }

  /** The last entry for a line. */
  ghost predicate LastFor(lines: seq<Line>, es: seq<Entry>, k: nat, j: nat) {
    && j < |es| && LineOf(lines, Trim(es[j].sku)) == k
    && forall i :: j < i < |es| ==> LineOf(lines, Trim(es[i].sku)) != k
  }

  lemma {:induction false} StillRecordable(lines: seq<Line>, after: seq<Line>, e: Entry, codes: set<string>)
    requires SameItems(lines, after) && forall i :: 0 <= i < |lines| ==> after[i].expected == lines[i].expected
    ensures Recordable(after, e, codes) <==> Recordable(lines, e, codes)
  {
    hide Trim, Explained, LineOf;
    SameLineOf(lines, after, Trim(e.sku));
  }

  lemma {:induction false} RecordedExpected(lines: seq<Line>, es: seq<Entry>)
    ensures forall i :: 0 <= i < |lines| ==> RecordedAll(lines, es)[i].expected == lines[i].expected
  {
    hide Trim, Reason, LineOf;
    if es != [] { RecordedExpected(lines, es[..|es| - 1]); }
  }

  lemma {:induction false} RecordedStaysConsistent(lines: seq<Line>, es: seq<Entry>, codes: set<string>)
    requires AllConsistent(lines) && forall i :: 0 <= i < |es| ==> Recordable(lines, es[i], codes)
    ensures AllConsistent(RecordedAll(lines, es))
  {
    if es != [] {
      var n := |es| - 1;
      var mid := RecordedAll(lines, es[..n]);
      assert Recordable(lines, es[n], codes);
      hide Recordable, RecordedAll;
      RecordedStaysConsistent(lines, es[..n], codes);
      RecordedItems(lines, es[..n]);
      RecordedExpected(lines, es[..n]);
      StillRecordable(lines, mid, es[n], codes);
      NextStaysConsistent(mid, es[n], codes);
      OneMore(lines, es);
    }
  }

  lemma {:induction false} NextStaysConsistent(lines: seq<Line>, e: Entry, codes: set<string>)
    requires AllConsistent(lines) && Recordable(lines, e, codes)
    ensures AllConsistent(RecordedNext(lines, e))
  {
    hide Trim, Upper, LineOf;
    var n := LineOf(lines, Trim(e.sku));
    assert Consistent(lines[n]);
  }

  lemma {:induction false} RecordedTwice(l: Line, first: Entry, second: Entry)
    requires first.counted.Some? && second.counted.Some?
    ensures Recorded(Recorded(l, first), second) == Recorded(l, second)
  {
    hide Reason;
  }

  lemma {:induction false} OneMore(lines: seq<Line>, es: seq<Entry>)
    requires es != []
    ensures RecordedAll(lines, es) == RecordedNext(RecordedAll(lines, es[..|es| - 1]), es[|es| - 1])
  {
  }

  lemma {:induction false} LastMoves(lines: seq<Line>, es: seq<Entry>, k: nat, j: nat)
    requires es != []
    ensures var n := |es| - 1;
            LastFor(lines, es, k, j) <==>
            if LineOf(lines, Trim(es[n].sku)) == k then j == n else LastFor(lines, es[..n], k, j)
  {
    hide Trim, LineOf;
    var n := |es| - 1;
    forall i | 0 <= i < n ensures es[..n][i] == es[i] {}
    if LineOf(lines, Trim(es[n].sku)) != k && LastFor(lines, es[..n], k, j) {
      assert forall i :: j < i < n ==> LineOf(lines, Trim(es[i].sku)) == LineOf(lines, Trim(es[..n][i].sku));
    }
  }

  /** A line as an entry leaves it: the count, a reason only for a variance, the label; nothing else, and nothing once posted. */
  ghost predicate AsEntered(was: Line, e: Entry, l: Line)
    requires e.counted.Some?
  {
    if was.posted then l == was
    else
      && l == was.(counted := l.counted, reason := l.reason, check := l.check, required := l.required)
      && l.counted == e.counted
      && (if e.counted.value == was.expected then l.reason == None && l.check == Matched && !l.required
          else l.check == Variance && l.required
               && l.reason == if e.reason == "" then None else Some(Upper(Trim(e.reason))))
  }

  /** Every line ends up as its last entry says, and as it was when it has none. */
  lemma {:induction false} LastEntryStands(lines: seq<Line>, es: seq<Entry>, k: nat)
    requires k < |lines| && forall i :: 0 <= i < |es| ==> es[i].counted.Some?
    ensures (forall j: nat :: !LastFor(lines, es, k, j)) ==> RecordedAll(lines, es)[k] == lines[k]
    ensures forall j: nat :: LastFor(lines, es, k, j) ==> AsEntered(lines[k], es[j], RecordedAll(lines, es)[k])
  {
    hide Trim, Upper, LineOf, RecordedAll;
    LastRecorded(lines, es, k);
    forall j: nat | LastFor(lines, es, k, j) ensures AsEntered(lines[k], es[j], RecordedAll(lines, es)[k]) {}
  }

  lemma {:induction false} LastRecorded(lines: seq<Line>, es: seq<Entry>, k: nat)
    requires k < |lines| && forall i :: 0 <= i < |es| ==> es[i].counted.Some?
    ensures (forall j: nat :: !LastFor(lines, es, k, j)) ==> RecordedAll(lines, es)[k] == lines[k]
    ensures forall j: nat :: LastFor(lines, es, k, j) ==> RecordedAll(lines, es)[k] == Recorded(lines[k], es[j])
  {
    hide Trim, Reason, LineOf, LastFor, RecordedAll, SameItems, Recorded;
    if es == [] {
      NoEntries(lines, k);
    } else {
      var n := |es| - 1;
      var front := es[..n];
      var mid := RecordedAll(lines, front);
      LastRecorded(lines, front, k);
      RecordedItems(lines, front);
      SameLineOf(lines, mid, Trim(es[n].sku));
      OneMore(lines, es);
      forall j: nat ensures LastFor(lines, es, k, j) <==>
                       if LineOf(lines, Trim(es[n].sku)) == k then j == n else LastFor(lines, front, k, j)
      {
        LastMoves(lines, es, k, j);
      }
      if LineOf(lines, Trim(es[n].sku)) == k {
        assert LastFor(lines, es, k, n);
        if j: nat :| LastFor(lines, front, k, j) {
          InBounds(lines, front, k, j);
          RecordedTwice(lines[k], front[j], es[n]);
        }
      } else {
        forall j: nat | LastFor(lines, front, k, j) ensures j < n && es[j] == front[j] {
          InBounds(lines, front, k, j);
        }
      }
    }
  }

  lemma {:induction false} NoEntries(lines: seq<Line>, k: nat)
    ensures RecordedAll(lines, []) == lines && forall j: nat :: !LastFor(lines, [], k, j)
  {
  }

  lemma {:induction false} InBounds(lines: seq<Line>, es: seq<Entry>, k: nat, j: nat)
    requires LastFor(lines, es, k, j)
    ensures j < |es| && LineOf(lines, Trim(es[j].sku)) == k
  {
  }

  lemma {:induction false} HasLast(lines: seq<Line>, es: seq<Entry>, k: nat, i: nat) returns (j: nat)
    requires i < |es| && LineOf(lines, Trim(es[i].sku)) == k
    ensures LastFor(lines, es, k, j)
  {
    hide Trim, LineOf;
    j := i;
    for n := i + 1 to |es|
      invariant j < n && LineOf(lines, Trim(es[j].sku)) == k
      invariant forall m :: j < m < n ==> LineOf(lines, Trim(es[m].sku)) != k
    {
      if LineOf(lines, Trim(es[n].sku)) == k { j := n; }
    }
  }

  /** An entry reaches a line exactly when it names the line's SKU and no later line has the same one. */
  ghost predicate Reaches(lines: seq<Line>, e: Entry, k: nat)
    requires k < |lines|
  {
    Trim(e.sku) == lines[k].item.sku && forall i :: k < i < |lines| ==> lines[i].item.sku != lines[k].item.sku
  }

  lemma {:induction false} ReachesIs(lines: seq<Line>, e: Entry, k: nat)
    requires k < |lines|
    ensures Reaches(lines, e, k) <==> LineOf(lines, Trim(e.sku)) == k
  {
    hide Trim;
  }

  /**
   * An uncounted line is counted by a submission exactly when some entry reaches it: of two brands of
   * one SKU on a sheet, only the later line can ever be counted.
   */
  lemma {:induction false} CountedExactlyWhen(lines: seq<Line>, es: seq<Entry>, k: nat)
    requires k < |lines| && lines[k].counted.None? && !lines[k].posted
    requires forall i :: 0 <= i < |es| ==> es[i].counted.Some?
    ensures RecordedAll(lines, es)[k].counted.Some? <==> exists j :: 0 <= j < |es| && Reaches(lines, es[j], k)
    ensures RecordedAll(lines, es)[k].counted.None? ==> RecordedAll(lines, es)[k] == lines[k]
  {
    hide Trim, LineOf, RecordedAll, Reaches, Reason;
    LastRecorded(lines, es, k);
    if j :| 0 <= j < |es| && Reaches(lines, es[j], k) {
      ReachesIs(lines, es[j], k);
      var m := HasLast(lines, es, k, j);
    } else if j: nat :| LastFor(lines, es, k, j) {
      InBounds(lines, es, k, j);
      ReachesIs(lines, es[j], k);
      assert Reaches(lines, es[j], k);
    }
  }

  /**
   * What is asked of an entry: its SKU is on the sheet, its count is a whole number, and a count other
   * than the expectation of its line comes with a reason, one of the active codes where there are any.
   */
  ghost predicate Acceptable(lines: seq<Line>, e: Entry, codes: set<string>) {
    e.counted.Some? && exists n :: 0 <= n < |lines| && Reaches(lines, e, n) && ReasonGiven(lines[n].expected, e, codes)
  }

  predicate ReasonGiven(expected: int, e: Entry, codes: set<string>) {
    var code := Upper(Trim(e.reason));
    (e.counted.Some? && e.counted.value == expected) || (code != "" && (codes == {} || code in codes))
  }

  lemma {:induction false} RecordableIs(lines: seq<Line>, e: Entry, codes: set<string>)
    ensures Recordable(lines, e, codes) <==> Acceptable(lines, e, codes)
  {
    var n := LineOf(lines, Trim(e.sku));
    NothingGiven();
    hide Trim, Upper, LineOf;
    if n < |lines| { ReachesIs(lines, e, n); }
    forall k | 0 <= k < |lines| && Reaches(lines, e, k) ensures k == n { ReachesIs(lines, e, k); }
    hide Reaches;
  }

  lemma {:induction false} NothingGiven()
    ensures Upper(Trim("")) == ""
  {
  }

  method CountErrors(lines: seq<Line>, entries: seq<Entry>, codes: set<string>) returns (errors: nat)
    ensures errors <= |entries|
    ensures errors == 0 <==> forall i :: 0 <= i < |entries| ==> Recordable(lines, entries[i], codes)
  {
    hide Recordable;
    errors := 0;
    for n := 0 to |entries|
      invariant errors <= n
      invariant errors == 0 <==> forall i :: 0 <= i < n ==> Recordable(lines, entries[i], codes)
    {
      if !Recordable(lines, entries[n], codes) { errors := errors + 1; }
    }
  }

  method WriteEntries(sheet: seq<Line>, entries: seq<Entry>) returns (lines: seq<Line>)
    ensures lines == RecordedAll(sheet, entries)
  {
    hide RecordedNext;
    lines := sheet;
    for n := 0 to |entries|
      invariant lines == RecordedAll(sheet, entries[..n])
    {
      assert entries[..n + 1][..n] == entries[..n];
      lines := RecordedNext(lines, entries[n]);
    }
    assert entries[..|entries|] == entries;
  }

  // ---------------------------------------------------------------------------------------
  // Roll-up, submission and adjustment
  // ---------------------------------------------------------------------------------------

  datatype Rollup = Rollup(lineCount: nat, countedLines: nat, varianceLines: nat, netVariance: int)

  /** The aggregation over a session's lines. */
  function RollupOf(lines: seq<Line>): Rollup {
    if lines == [] then Rollup(0, 0, 0, 0)
    else
      var r, l := RollupOf(lines[..|lines| - 1]), lines[|lines| - 1];
      Rollup(r.lineCount + 1, r.countedLines + (if l.counted.Some? then 1 else 0),
             r.varianceLines + (if l.check == Variance then 1 else 0), r.netVariance + Difference(l))
  }

  lemma {:induction false} RollupUpdates(lines: seq<Line>, after: seq<Line>)
    requires |lines| == |after|
    requires forall i :: 0 <= i < |lines| ==>
               after[i].counted == lines[i].counted && after[i].expected == lines[i].expected
               && (after[i].check == Variance <==> lines[i].check == Variance)
    ensures RollupOf(after) == RollupOf(lines)
  {
    if lines != [] { RollupUpdates(lines[..|lines| - 1], after[..|lines| - 1]); }
  }

  function CountedPlaces(lines: seq<Line>): set<nat> {
    set i: nat | i < |lines| && lines[i].counted.Some?
  }

  function VariedPlaces(lines: seq<Line>): set<nat> {
    set i: nat | i < |lines| && lines[i].counted.Some? && lines[i].counted.value != lines[i].expected
  }

  function Differences(lines: seq<Line>): (w: seq<int>)
    ensures |w| == |lines|
    ensures forall i :: 0 <= i < |w| ==> w[i] == if lines[i].counted.Some? then lines[i].counted.value - lines[i].expected else 0
  {
    seq(|lines|, i requires 0 <= i < |lines| => if lines[i].counted.Some? then lines[i].counted.value - lines[i].expected else 0)
  }

  lemma {:induction false} PlacesGrow(lines: seq<Line>)
    requires lines != []
    ensures var n := |lines| - 1;
            && |CountedPlaces(lines)| == |CountedPlaces(lines[..n])| + (if lines[n].counted.Some? then 1 else 0)
            && |VariedPlaces(lines)| == |VariedPlaces(lines[..n])|
                 + (if lines[n].counted.Some? && lines[n].counted.value != lines[n].expected then 1 else 0)
  {
    var n := |lines| - 1;
    var front := lines[..n];
    assert n !in CountedPlaces(front) && n !in VariedPlaces(front);
    if lines[n].counted.Some? {
      assert CountedPlaces(lines) == CountedPlaces(front) + {n};
      if lines[n].counted.value != lines[n].expected {
        assert VariedPlaces(lines) == VariedPlaces(front) + {n};
      } else {
        assert VariedPlaces(lines) == VariedPlaces(front);
      }
    } else {
      assert CountedPlaces(lines) == CountedPlaces(front);
      assert VariedPlaces(lines) == VariedPlaces(front);
    }
  }

  /** What the roll-up says of a sheet: how many lines it has, how many are counted, how many differ, and by how much in all. */
  lemma {:induction false} RollupSays(lines: seq<Line>)
    requires AllConsistent(lines)
    ensures var r := RollupOf(lines);
            && r.lineCount == |lines| && r.countedLines == |CountedPlaces(lines)| && r.varianceLines == |VariedPlaces(lines)|
            && r.netVariance == Sum(Differences(lines))
  {
    if lines != [] {
      var n := |lines| - 1;
      RollupSays(lines[..n]);
      PlacesGrow(lines);
      assert Consistent(lines[n]);
      assert Differences(lines)[..n] == Differences(lines[..n]);
      hide CountedPlaces, VariedPlaces, Differences;
    }
  }

  function LiveOf(live: map<Item, int>, item: Item): int {
    if item in live then live[item] else 0
  }

  /** What a submission leaves of a line. */
  ghost predicate SubmittedLine(was: Line, l: Line, live: int) {
    && l == was.(check := l.check, moved := l.moved)
    && (if was.counted.None? then l.check == Skipped else l.check == was.check)
    && (l.moved == if was.counted.Some? && live != was.expected then Some(live) else was.moved)
  }

  /** Uncounted lines are marked skipped, counted ones whose balance has moved since the freeze are flagged. */
  method MarkLines(sheet: seq<Line>, live: map<Item, int>) returns (lines: seq<Line>, skipped: nat, moved: nat)
    requires AllConsistent(sheet)
    ensures |lines| == |sheet| && forall i :: 0 <= i < |sheet| ==> SubmittedLine(sheet[i], lines[i], LiveOf(live, sheet[i].item))
    ensures skipped == 0 <==> forall i :: 0 <= i < |sheet| ==> sheet[i].counted.Some?
    ensures moved == 0 <==> forall i :: 0 <= i < |sheet| && sheet[i].counted.Some? ==> LiveOf(live, sheet[i].item) == sheet[i].expected
  {
    lines, skipped, moved := [], 0, 0;
    for n := 0 to |sheet|
      invariant |lines| == n && forall i :: 0 <= i < n ==> SubmittedLine(sheet[i], lines[i], LiveOf(live, sheet[i].item))
      invariant skipped == 0 <==> forall i :: 0 <= i < n ==> sheet[i].counted.Some?
      invariant moved == 0 <==> forall i :: 0 <= i < n && sheet[i].counted.Some? ==> LiveOf(live, sheet[i].item) == sheet[i].expected
    {
      var line, now := sheet[n], LiveOf(live, sheet[n].item);
      assert Consistent(line);
      if line.counted.None? {
        skipped := skipped + 1;
        line := line.(check := Skipped, required := false);
      } else if now != line.expected {
        moved := moved + 1;
        line := line.(moved := Some(now));
      }
      lines := lines + [line];
    }
  }

  /** The lines whose variance has yet to be posted, in order. */
  function Variances(lines: seq<Line>): seq<Line> {
    if lines == [] then []
    else
      var l := lines[|lines| - 1];
      Variances(lines[..|lines| - 1]) + if l.required && !l.posted then [l] else []
  }

  lemma {:induction false} VariancesAre(lines: seq<Line>)
    ensures forall k :: 0 <= k < |Variances(lines)| ==> Variances(lines)[k] in lines
                                                        && Variances(lines)[k].required && !Variances(lines)[k].posted
    ensures forall i :: 0 <= i < |lines| && lines[i].required && !lines[i].posted ==> lines[i] in Variances(lines)
  {
    if lines != [] { VariancesAre(lines[..|lines| - 1]); }
  }

  function Increases(lines: seq<Line>): (n: int)
    ensures n >= 0
  {
    if lines == [] then 0
    else Increases(lines[..|lines| - 1]) + if Difference(lines[|lines| - 1]) > 0 then Difference(lines[|lines| - 1]) else 0
  }

  function Decreases(lines: seq<Line>): (n: int)
    ensures n <= 0
  {
    if lines == [] then 0
    else Decreases(lines[..|lines| - 1]) + if Difference(lines[|lines| - 1]) < 0 then Difference(lines[|lines| - 1]) else 0
  }

  datatype Adjustment = Adjustment(lines: seq<Line>, up: int, down: int, net: int)

  ghost predicate NonePosted(lines: seq<Line>) {
    forall i :: 0 <= i < |lines| ==> !lines[i].posted
  }

  /** What is posted is what the roll-up announced for review: as many lines, and the same net. */
  lemma {:induction false} AdjustmentIsRollup(lines: seq<Line>)
    requires AllConsistent(lines) && NonePosted(lines)
    ensures var vs, r := Variances(lines), RollupOf(lines);
            |vs| == r.varianceLines && Increases(vs) + Decreases(vs) == r.netVariance
  {
    if lines != [] {
      var front, l := lines[..|lines| - 1], lines[|lines| - 1];
      AdjustmentIsRollup(front);
      assert Consistent(l);
      if l.required {
        assert (Variances(front) + [l])[..|Variances(front)|] == Variances(front);
      } else {
        assert Variances(lines) == Variances(front);
      }
    }
  }

  /** A variance as it is handed to the ledger. */
  function RequestOf(l: Line, location: string): Posting.Request {
    Posting.Request(
      "COUNT", None, Posting.Whole(Difference(l)), l.item.sku, Posting.Whole(l.expected),
      if l.counted.Some? then Posting.Whole(l.counted.value) else Posting.Absent, Some(l.item.brand), Some(location), None, None, None)
  }

  function Requests(vs: seq<Line>, location: string): (rs: seq<Posting.Request>)
    ensures |rs| == |vs|
  {
    seq(|vs|, i requires 0 <= i < |vs| => RequestOf(vs[i], location))
  }

  /** The ledger's checks let every variance through: its figures always agree. */
  lemma {:induction false} VariancePasses(l: Line, location: string)
    requires Consistent(l) && l.required && Trim(l.item.sku) != ""
    ensures var r := Posting.ValidateLine(RequestOf(l, location), false);
            && r.Ok? && r.value.quantity == l.counted.value - l.expected != 0
            && r.value.before == Some(l.expected) && r.value.after == Some(l.counted.value)
  {
    CountIsNamed();
    hide Trim, Upper, Posting.KindNamed, Posting.Cleaned;
  }

  lemma {:induction false} CountIsNamed()
    ensures Posting.KindNamed(Upper(Trim("COUNT"))).Some? && Posting.SignOf(Posting.KindNamed(Upper(Trim("COUNT"))).value).Signed?
    ensures Posting.NameOf(Posting.KindNamed(Upper(Trim("COUNT"))).value) == "COUNT"
  {
    TrimFixed("COUNT");
    assert Upper("COUNT") == "COUNT";
  }

  /** The catalogue files the counted SKU under the line's brand, and its codes are in their normal form. */
  predicate FiledAsCounted(l: Line, location: string, cat: Posting.Catalogue) {
    && Trim(l.item.sku) == l.item.sku && l.item.sku in cat.brands && cat.brands[l.item.sku] == [l.item.brand]
    && (if Trim(location) == "" then cat.home == Some(location) else IsNormal(location))
  }

  lemma {:induction false} VarianceResolves(l: Line, location: string, at: int, cat: Posting.Catalogue)
    requires Posting.ValidateLine(RequestOf(l, location), false).Ok?
    ensures var r := Posting.Resolve(Posting.ValidateLine(RequestOf(l, location), false).value, at, cat);
            r.Ok? ==>
              && r.value.movement.quantity == Difference(l) && r.value.movement.cls == Projection.Physical
              && (r.value.movement.grain == Projection.Grain(l.item.sku, l.item.brand, location) <==> FiledAsCounted(l, location, cat))
  {
    CountIsNamed();
    hide Trim, Upper, Posting.KindNamed;
    TrimFixed("");
    assert Upper(Trim(location)) == "" <==> Trim(location) == "";
  }

  /**
   * What the ledger makes of a posting: each variance in turn, as counted less expected, and on the
   * balance that was counted exactly when the catalogue files the SKU there, since the line's brand is
   * not kept.
   */
  lemma {:induction false} VarianceLandsExactlyWhen(vs: seq<Line>, location: string, now: int, cat: Posting.Catalogue, k: nat)
    requires k < |vs| && vs[k].counted.Some? && Posting.Prepared(Requests(vs, location), false, None, now, cat).Ok?
    ensures var es := Posting.Prepared(Requests(vs, location), false, None, now, cat).value;
            && |es| == |vs| && es[k].movement.quantity == vs[k].counted.value - vs[k].expected
            && (es[k].movement.grain == Projection.Grain(vs[k].item.sku, vs[k].item.brand, location)
                <==> FiledAsCounted(vs[k], location, cat))
  {
    hide Posting.ValidateLine, Posting.Resolve, FiledAsCounted, RequestOf;
    var rs := Requests(vs, location);
    var checked := Posting.Each(Posting.Checks(rs, false)).value;
    var ats := Posting.Each(Posting.Dates(checked, now, now)).value;
    Posting.EachIs(Posting.Checks(rs, false));
    Posting.EachIs(Posting.Resolutions(checked, ats, cat));
    var es := Posting.Prepared(rs, false, None, now, cat).value;
    assert Posting.Checks(rs, false)[k] == Posting.Result.Ok(checked[k]);
    assert Posting.Resolutions(checked, ats, cat)[k] == Posting.Result.Ok(es[k]);
    VarianceResolves(vs[k], location, ats[k], cat);
  }

  /** A session with a variance on a SKU that is under several brands is refused by the ledger, whenever it is posted. */
  lemma {:induction false} SharedSkuBlocksPosting(lines: seq<Line>, i: nat, location: string, now: int, cat: Posting.Catalogue)
    requires i < |lines| && lines[i].required && !lines[i].posted
    requires Trim(lines[i].item.sku) in cat.brands && |cat.brands[Trim(lines[i].item.sku)]| > 1
    ensures Posting.Prepared(Requests(Variances(lines), location), false, None, now, cat).Err?
  {
    hide Trim, Posting.Prepared;
    VariancesAre(lines);
    var vs := Variances(lines);
    var k :| 0 <= k < |vs| && vs[k] == lines[i];
    assert Requests(vs, location)[k].sku == lines[i].item.sku;
    Posting.SharedSkuNeverPosts(Requests(vs, location), false, None, now, cat, k);
  }

  /** The lines of a session that ends: released, and stamped where their variance was posted. */
  function Ended(lines: seq<Line>, posting: bool): (r: seq<Line>)
    ensures |r| == |lines|
  {
    seq(|lines|, i requires 0 <= i < |lines| =>
      lines[i].(locked := false, posted := lines[i].posted || (posting && lines[i].required)))
  }

  /** The line is released, and stamped as posted where it is from now on; nothing else of it changes. */
  predicate Closed(was: Line, l: Line, nowPosted: bool) {
    !l.locked && (l.posted <==> was.posted || nowPosted) && l == was.(locked := l.locked, posted := l.posted)
  }

  datatype Outcome =
    | Done | InvalidState | NoLines | TooManyLines | Invalid(errors: nat) | Incomplete | SelfApproval | NoReason
    | Refused(fault: Posting.Fault)

  class Session {
    var status: Status
    var history: seq<Status>
    var counter: Option<string>
    var submittedBy: Option<string>
    var approvedBy: Option<string>
    var lines: seq<Line>
    var rollup: Rollup
    var adjustment: Option<Adjustment>
    const location: string

    ghost predicate Valid()
      reads this
    {
      && IsPath(history) && history[|history| - 1] == status
      && AllConsistent(lines) && rollup == RollupOf(lines)
      && (status != Posted ==> NonePosted(lines) && adjustment == None)
      && (status == Approved || status == Posted ==>
            approvedBy.Some? && approvedBy != counter && approvedBy != submittedBy)
    }

    /** Creates the session and freezes what each balance is expected to hold. */
    constructor (location: string, balances: seq<Balance>)
      ensures Valid() && status == Draft && this.location == location
      ensures |lines| == |balances|
      ensures forall i :: 0 <= i < |lines| ==> lines[i].item == balances[i].item && lines[i].expected == balances[i].onHand
                                               && lines[i].counted == None && lines[i].locked
    {
      this.location := location;
      status := Draft;
      history := [Draft];
      counter, submittedBy, approvedBy, adjustment := None, None, None, None;
      lines := Sheet(balances);
      rollup := Rollup(|balances|, 0, 0, 0);
      new;
      NothingCounted(lines);
    }

    method Start(actor: string) returns (r: Outcome)
      requires Valid()
      modifies this`status, this`history, this`counter
      ensures Valid()
      ensures r == if old(status) == Draft || old(status) == Rejected then Done else InvalidState
      ensures r == Done ==> status == Counting && counter == Some(actor) && history == old(history) + [Counting]
      ensures r != Done ==> status == old(status) && counter == old(counter) && history == old(history)
    {
      if !Allowed(status, Counting) { return InvalidState; }
      status := Counting;
      counter := Some(actor);
      history := history + [Counting];
      return Done;
    }

    /** All entries are checked first; one bad entry and nothing is written. */
    method RecordCounts(entries: seq<Entry>, codes: set<string>) returns (r: Outcome)
      requires Valid()
      modifies this`lines, this`rollup
      ensures Valid()
      ensures r == Done <==> && old(status) == Counting && 0 < |entries| <= 5000
                             && forall i :: 0 <= i < |entries| ==> Acceptable(old(lines), entries[i], codes)
      ensures r == Done ==> lines == RecordedAll(old(lines), entries)
      ensures r != Done ==> lines == old(lines) && rollup == old(rollup)
    {
      hide Recordable, Acceptable, IsPath, Consistent, Allowed, RecordedAll, RollupOf;
      if status != Counting { return InvalidState; }
      if entries == [] { return NoLines; }
      if |entries| > 5000 { return TooManyLines; }
      var errors := CountErrors(lines, entries, codes);
      forall i | 0 <= i < |entries| ensures Recordable(lines, entries[i], codes) <==> Acceptable(lines, entries[i], codes) {
        RecordableIs(lines, entries[i], codes);
      }
      if errors > 0 { return Invalid(errors); }
      RecordedStaysConsistent(lines, entries, codes);
      RecordedNotPosted(lines, entries);
      lines := WriteEntries(lines, entries);
      rollup := RollupOf(lines);
      return Done;
    }

    method Submit(actor: string, allowUncounted: bool, live: map<Item, int>) returns (r: Outcome, skipped: nat, moved: nat)
      requires Valid()
      modifies this`status, this`history, this`submittedBy, this`lines, this`rollup
      ensures Valid()
      ensures r == Done <==> && old(status) == Counting
                             && (allowUncounted || forall i :: 0 <= i < |old(lines)| ==> old(lines)[i].counted.Some?)
      ensures r == Done ==> && status == Submitted && submittedBy == Some(actor) && history == old(history) + [Submitted]
                            && |lines| == |old(lines)|
                            && forall i :: 0 <= i < |lines| ==>
                                 SubmittedLine(old(lines)[i], lines[i],
                                               if lines[i].item in live then live[lines[i].item] else 0)
      ensures r == Done ==> (moved == 0 <==> forall i :: 0 <= i < |lines| && lines[i].counted.Some? ==>
                                               lines[i].expected == if lines[i].item in live then live[lines[i].item] else 0)
      ensures r != Done ==> status == old(status) && submittedBy == old(submittedBy) && history == old(history)
                            && lines == old(lines) && rollup == old(rollup)
    {
      hide RollupOf, Difference, IsPath;
      skipped, moved := 0, 0;
      if !Allowed(status, Submitted) { return InvalidState, skipped, moved; }
      var marked;
      marked, skipped, moved := MarkLines(lines, live);
      if skipped > 0 && !allowUncounted { return Incomplete, skipped, moved; }
      SubmittedKeeps(lines, marked, live);
      lines := marked;
      rollup := RollupOf(lines);
      status := Submitted;
      submittedBy := Some(actor);
      history := history + [Submitted];
      PathGrows(old(history), Submitted);
      r := Done;
    }

    /** Whoever started or submitted the count cannot approve it. */
    method Review(actor: string, approve: bool, reason: string) returns (r: Outcome)
      requires Valid()
      modifies this`status, this`history, this`approvedBy
      ensures Valid()
      ensures r == Done <==> && old(status) == Submitted
                             && (if approve then Some(actor) != submittedBy && Some(actor) != counter else reason != "")
      ensures r == Done ==> status == (if approve then Approved else Rejected) && history == old(history) + [status]
      ensures r == Done && approve ==> approvedBy == Some(actor)
      ensures r != Done ==> status == old(status) && approvedBy == old(approvedBy) && history == old(history)
    {
      var to := if approve then Approved else Rejected;
      if !Allowed(status, to) { return InvalidState; }
      if approve {
        if submittedBy == Some(actor) || counter == Some(actor) { return SelfApproval; }
        approvedBy := Some(actor);
      } else if reason == "" {
        return NoReason;
      }
      status := to;
      history := history + [to];
      return Done;
    }

    /**
     * Posts what differs and was not posted yet as differences, files the adjustment, and releases every
     * line; when the ledger refuses the batch nothing happens. The batch key is the session's own.
     */
    method Post(now: int, cat: Posting.Catalogue) returns (r: Outcome, movements: seq<Posting.Request>)
      requires Valid()
      modifies this`status, this`history, this`lines, this`adjustment
      ensures Valid()
      ensures r == Done <==>
              && old(status) == Approved && |Variances(old(lines))| <= 5000
              && (Variances(old(lines)) == []
                  || Posting.Prepared(Requests(Variances(old(lines)), location), false, None, now, cat).Ok?)
      ensures r == Done ==> status == Posted && history == old(history) + [Posted] && |lines| == |old(lines)|
      ensures r == Done ==> forall i :: 0 <= i < |lines| ==> Closed(old(lines)[i], lines[i], old(lines)[i].required)
      ensures r == Done ==> movements == Requests(Variances(old(lines)), location)
      ensures r == Done ==> (adjustment.None? <==> old(rollup).varianceLines == 0)
      ensures r == Done && adjustment.Some? ==>
              var a := adjustment.value;
              && |a.lines| == old(rollup).varianceLines && a.net == old(rollup).netVariance
              && a.up + a.down == a.net && a.down <= 0 <= a.up
              && forall i :: 0 <= i < |old(lines)| ==> (old(lines)[i].required <==> old(lines)[i] in a.lines)
      ensures r != Done ==> status == old(status) && history == old(history) && lines == old(lines) && adjustment == old(adjustment)
                            && movements == []
    {
      hide RollupOf, Difference, IsPath, Variances, Increases, Decreases, Consistent, Requests, Posting.Prepared;
      movements := [];
      if !Allowed(status, Posted) { return InvalidState, movements; }
      var variances := Variances(lines);
      AdjustmentIsRollup(lines);
      VariancesAre(lines);
      if variances != [] {
        if |variances| > 5000 { return Refused(Posting.TooManyLines), movements; }
        var prepared := Posting.Prepared(Requests(variances, location), false, None, now, cat);
        if prepared.Err? { return Refused(prepared.fault), movements; }
        var up, down := Increases(variances), Decreases(variances);
        adjustment := Some(Adjustment(variances, up, down, up + down));
      }
      movements := Requests(variances, location);
      EndedKeeps(lines, true);
      lines := Ended(lines, true);
      status := Posted;
      history := history + [Posted];
      PathGrows(old(history), Posted);
      r := Done;
    }

    method Cancel(reason: string) returns (r: Outcome)
      requires Valid()
      modifies this`status, this`history, this`lines
      ensures Valid()
      ensures r == Done <==>
              && (old(status) == Draft || old(status) == Counting || old(status) == Submitted || old(status) == Rejected)
              && reason != ""
      ensures r == Done ==> status == Cancelled && history == old(history) + [Cancelled] && |lines| == |old(lines)|
      ensures r == Done ==> forall i :: 0 <= i < |lines| ==> Closed(old(lines)[i], lines[i], false)
      ensures r != Done ==> status == old(status) && history == old(history) && lines == old(lines)
    {
      hide RollupOf, IsPath, Consistent;
      if !Allowed(status, Cancelled) { return InvalidState; }
      if reason == "" { return NoReason; }
      EndedKeeps(lines, false);
      lines := Ended(lines, false);
      status := Cancelled;
      history := history + [Cancelled];
      PathGrows(old(history), Cancelled);
      return Done;
    }
  }

  lemma {:induction false} PathGrows(history: seq<Status>, to: Status)
    requires IsPath(history) && Allowed(history[|history| - 1], to)
    ensures IsPath(history + [to])
  {
  }

  lemma {:induction false} NothingCounted(lines: seq<Line>)
    requires forall i :: 0 <= i < |lines| ==> lines[i].counted.None? && lines[i].check == Pending
    ensures RollupOf(lines) == Rollup(|lines|, 0, 0, 0)
  {
    if lines != [] { NothingCounted(lines[..|lines| - 1]); }
  }

  lemma {:induction false} RecordedNotPosted(lines: seq<Line>, es: seq<Entry>)
    requires NonePosted(lines)
    ensures NonePosted(RecordedAll(lines, es))
  {
    hide Trim, Reason, LineOf;
    if es != [] { RecordedNotPosted(lines, es[..|es| - 1]); }
  }

  lemma {:induction false} SubmittedKeeps(lines: seq<Line>, after: seq<Line>, live: map<Item, int>)
    requires AllConsistent(lines) && NonePosted(lines) && |after| == |lines|
    requires forall i :: 0 <= i < |lines| ==> SubmittedLine(lines[i], after[i], LiveOf(live, lines[i].item))
    ensures AllConsistent(after) && NonePosted(after)
  {
    forall i | 0 <= i < |after| ensures Consistent(after[i]) && !after[i].posted {
      assert Consistent(lines[i]) && SubmittedLine(lines[i], after[i], LiveOf(live, lines[i].item));
    }
  }

  lemma {:induction false} EndedKeeps(lines: seq<Line>, posting: bool)
    requires AllConsistent(lines) && NonePosted(lines)
    ensures AllConsistent(Ended(lines, posting)) && RollupOf(Ended(lines, posting)) == RollupOf(lines)
    ensures !posting ==> NonePosted(Ended(lines, posting))
  {
    hide RollupOf;
    var after := Ended(lines, posting);
    forall i | 0 <= i < |after| ensures Consistent(after[i]) { assert Consistent(lines[i]); }
    RollupUpdates(lines, after);
  }
}
