/**
 * Posting on a database without transactions (backend/modules/inventory/ledger.service.js,
 * backend/models/StockBatch.js). The batch goes in first, pending; then its movements, one by one; then
 * it is promoted. Posters interleave, fail and stop anywhere. The lines of a posting are those that
 * passed the checks of Posting.
 */
module StandalonePosting {
  import opened Options
  import Posting

  type Entry = Posting.Entry

  datatype Status = Pending | Posted | Failed

  datatype Batch = Batch(status: Status, lines: seq<Entry>)

  /** A movement in the ledger with the key of its batch. */
  datatype Row = Row(key: string, entry: Entry)

  /** A poster that found the key unused, or one whose batch is in, with how many movements it has written. */
  datatype Poster = Opening(key: string, lines: seq<Entry>) | Writing(key: string, done: nat)

  datatype State = State(ledger: seq<Row>, batches: map<string, Batch>, posters: map<nat, Poster>)

  datatype Step =
    | Call(p: nat, key: string, lines: seq<Entry>)
    | InsertBatch(p: nat)
    | InsertMovement(p: nat)
    | Promote(p: nat)
    | Fail(p: nat)
    | Stop(p: nat)

  const Empty := State([], map[], map[])

  function Dismiss(s: State, p: nat): State {
    s.(posters := map q | q in s.posters && q != p :: s.posters[q])
  }

  /** The error handler looks for a pending batch under the key, whoever's it is. */
  function Marked(s: State, key: string): State {
    if key in s.batches && s.batches[key].status == Pending
    then s.(batches := s.batches[key := s.batches[key].(status := Failed)])
    else s
  }

  predicate IsWriter(s: State, p: nat) {
    p in s.posters && s.posters[p].Writing? && s.posters[p].key in s.batches
  }

  function Next(s: State, step: Step): State {
    match step
    case Call(p, key, lines) =>
      // Under a used key the caller is told that this is a replay, whatever the batch's status.
      if p in s.posters || key in s.batches then s else s.(posters := s.posters[p := Opening(key, lines)])
    case InsertBatch(p) =>
      if p !in s.posters || !s.posters[p].Opening? then s
      else
        var key, lines := s.posters[p].key, s.posters[p].lines;
        // The unique index: whoever loses the race is told that this is a replay.
        if key in s.batches then Dismiss(s, p)
        else s.(batches := s.batches[key := Batch(Pending, lines)], posters := s.posters[p := Writing(key, 0)])
    case InsertMovement(p) =>
      if !IsWriter(s, p) || s.posters[p].done >= |s.batches[s.posters[p].key].lines| then s
      else
        var key, n := s.posters[p].key, s.posters[p].done;
        s.(ledger := s.ledger + [Row(key, s.batches[key].lines[n])], posters := s.posters[p := Writing(key, n + 1)])
    case Promote(p) =>
      if !IsWriter(s, p) || s.posters[p].done < |s.batches[s.posters[p].key].lines| then s
      else
        var key := s.posters[p].key;
        Dismiss(s, p).(batches := s.batches[key := s.batches[key].(status := Posted)])
    case Fail(p) => if p in s.posters then Marked(Dismiss(s, p), s.posters[p].key) else s
    case Stop(p) => Dismiss(s, p)
  }

  function After(s: State, steps: seq<Step>): State {
    if steps == [] then s else Next(After(s, steps[..|steps| - 1]), steps[|steps| - 1])
  }

  /** A run goes on from where it stands. */
  lemma {:induction false} RunGoesOn(s: State, steps: seq<Step>, step: Step)
    ensures After(s, steps + [step]) == Next(After(s, steps), step)
  {
    hide Next;
    assert (steps + [step])[..|steps|] == steps;
  }

  /** What the ledger holds under a key, in order. */
  function Under(ledger: seq<Row>, key: string): seq<Entry> {
    if ledger == [] then []
    else
      var r := ledger[|ledger| - 1];
      Under(ledger[..|ledger| - 1], key) + if r.key == key then [r.entry] else []
  }

  lemma {:induction false} UnderSnoc(ledger: seq<Row>, r: Row, key: string)
    ensures Under(ledger + [r], key) == Under(ledger, key) + if r.key == key then [r.entry] else []
  {
    assert (ledger + [r])[..|ledger|] == ledger;
  }

  ghost predicate Prefix(a: seq<Entry>, b: seq<Entry>) {
    |a| <= |b| && a == b[..|a|]
  }

  ghost predicate Whole(s: State, key: string) {
    key in s.batches && Under(s.ledger, key) == s.batches[key].lines
  }

  /** Under every key the ledger holds the first lines of its batch, once each; all of them when it is posted. */
  ghost predicate KeyOk(s: State, key: string) {
    if key in s.batches then
      Prefix(Under(s.ledger, key), s.batches[key].lines) && (s.batches[key].status == Posted ==> Whole(s, key))
    else Under(s.ledger, key) == []
  }

  ghost predicate WriterOk(s: State, p: nat) {
    p in s.posters && s.posters[p].Writing? ==>
      && s.posters[p].key in s.batches && s.batches[s.posters[p].key].status != Posted
      && s.posters[p].done == |Under(s.ledger, s.posters[p].key)|
  }

  ghost predicate OneWriter(s: State) {
    forall p, q :: p in s.posters && q in s.posters && p != q && s.posters[p].Writing? && s.posters[q].Writing? ==>
                     s.posters[p].key != s.posters[q].key
  }

  ghost predicate Inv(s: State) {
    (forall key :: KeyOk(s, key)) && (forall p :: WriterOk(s, p)) && OneWriter(s)
  }

  lemma {:induction false} StepKeepsKey(s: State, step: Step, key: string)
    requires KeyOk(s, key) && forall p :: WriterOk(s, p)
    ensures KeyOk(Next(s, step), key)
  {
    hide Under;
    if step.InsertMovement? && IsWriter(s, step.p) {
      var k, n := s.posters[step.p].key, s.posters[step.p].done;
      assert WriterOk(s, step.p);
      if n < |s.batches[k].lines| {
        UnderSnoc(s.ledger, Row(k, s.batches[k].lines[n]), key);
        if k == key { assert s.batches[k].lines[..n + 1] == s.batches[k].lines[..n] + [s.batches[k].lines[n]]; }
      }
    }
    if step.Promote? && IsWriter(s, step.p) { assert WriterOk(s, step.p); }
  }

  lemma {:induction false} StepKeepsWriter(s: State, step: Step, p: nat)
    requires Inv(s)
    ensures WriterOk(Next(s, step), p)
  {
    hide Under;
    assert WriterOk(s, p);
    if step.InsertBatch? && step.p in s.posters && s.posters[step.p].Opening? {
      assert KeyOk(s, s.posters[step.p].key);
    }
    if step.InsertMovement? && IsWriter(s, step.p) {
      var k, n := s.posters[step.p].key, s.posters[step.p].done;
      assert WriterOk(s, step.p);
      if n < |s.batches[k].lines| && p in s.posters && s.posters[p].Writing? {
        UnderSnoc(s.ledger, Row(k, s.batches[k].lines[n]), s.posters[p].key);
      }
    }
  }

  lemma {:induction false} StepKeepsOneWriter(s: State, step: Step)
    requires Inv(s)
    ensures OneWriter(Next(s, step))
  {
    hide Under, KeyOk;
    if step.InsertBatch? && step.p in s.posters && s.posters[step.p].Opening? {
      forall q | q in s.posters && s.posters[q].Writing? ensures s.posters[q].key in s.batches {
        assert WriterOk(s, q);
      }
    }
  }

  /**
   * In every run a key has one batch and at most one writer, the ledger holds the first lines of every
   * batch in order and once each, and nothing under a key that has none; a posted batch is whole.
   */
  lemma {:induction false} EveryRun(steps: seq<Step>)
    ensures Inv(After(Empty, steps))
  {
    if steps == [] {
      hide Prefix;
      forall key ensures KeyOk(Empty, key) {}
    } else {
      var s, step := After(Empty, steps[..|steps| - 1]), steps[|steps| - 1];
      EveryRun(steps[..|steps| - 1]);
      hide Next, KeyOk, WriterOk;
      forall key ensures KeyOk(Next(s, step), key) { StepKeepsKey(s, step, key); }
      forall p ensures WriterOk(Next(s, step), p) { StepKeepsWriter(s, step, p); }
      StepKeepsOneWriter(s, step);
    }
  }

  // ---------------------------------------------------------------------------------------
  // Postings left behind
  // ---------------------------------------------------------------------------------------

  ghost predicate Unattended(s: State, key: string) {
    key in s.batches && forall p :: p in s.posters && s.posters[p].Writing? ==> s.posters[p].key != key
  }

  ghost predicate SameUnder(s: State, t: State, key: string) {
    && key in s.batches && key in t.batches && t.batches[key].lines == s.batches[key].lines
    && Under(t.ledger, key) == Under(s.ledger, key)
    && (t.batches[key].status == Posted <==> s.batches[key].status == Posted)
  }

  lemma {:induction false} StepLeaves(s: State, step: Step, key: string)
    requires Unattended(s, key)
    ensures Unattended(Next(s, step), key) && SameUnder(s, Next(s, step), key)
  {
    hide Under;
    if step.InsertMovement? && IsWriter(s, step.p) {
      var k, n := s.posters[step.p].key, s.posters[step.p].done;
      if n < |s.batches[k].lines| { UnderSnoc(s.ledger, Row(k, s.batches[k].lines[n]), key); }
    }
  }

  lemma {:induction false} LeftAsItIs(s: State, key: string, steps: seq<Step>)
    requires Unattended(s, key)
    ensures Unattended(After(s, steps), key) && SameUnder(s, After(s, steps), key)
  {
    if steps != [] {
      hide Next, Under;
      LeftAsItIs(s, key, steps[..|steps| - 1]);
      StepLeaves(After(s, steps[..|steps| - 1]), steps[|steps| - 1], key);
    }
  }

  /**
   * A poster that fails or stops after n of its movements leaves exactly those n under the key for good,
   * so the posting is whole exactly when none was missing; it is never called posted, and every later
   * call under the key changes nothing and is told that it is a replay.
   */
  lemma {:induction false} LeftBehindExactly(steps: seq<Step>, p: nat, failing: bool, later: seq<Step>)
    requires IsWriter(After(Empty, steps), p)
    ensures var s := After(Empty, steps);
            var key, n := s.posters[p].key, s.posters[p].done;
            var t := After(Next(s, if failing then Fail(p) else Stop(p)), later);
            && n <= |s.batches[key].lines| && key in t.batches
            && Under(t.ledger, key) == s.batches[key].lines[..n] && (Whole(t, key) <==> n == |s.batches[key].lines|)
            && t.batches[key].status != Posted
            && forall q, lines :: Next(t, Call(q, key, lines)) == t
  {
    var s := After(Empty, steps);
    var key, n := s.posters[p].key, s.posters[p].done;
    EveryRun(steps);
    assert KeyOk(s, key) && WriterOk(s, p);
    var mid := Next(s, if failing then Fail(p) else Stop(p));
    hide Under, After;
    assert Unattended(mid, key) && SameUnder(s, mid, key);
    LeftAsItIs(mid, key, later);
    assert s.batches[key].lines[..|s.batches[key].lines|] == s.batches[key].lines;
  }

  // ---------------------------------------------------------------------------------------
  // A poster on its own
  // ---------------------------------------------------------------------------------------

  /** n movements in a row. */
  function Inserting(s: State, p: nat, n: nat): State {
    if n == 0 then s else Next(Inserting(s, p, n - 1), InsertMovement(p))
  }

  function RowsOf(key: string, lines: seq<Entry>): (rows: seq<Row>)
    ensures |rows| == |lines| && forall i :: 0 <= i < |rows| ==> rows[i] == Row(key, lines[i])
  {
    seq(|lines|, i requires 0 <= i < |lines| => Row(key, lines[i]))
  }

  lemma {:induction false} InsertsInOrder(s: State, p: nat, key: string, lines: seq<Entry>, n: nat)
    requires p in s.posters && s.posters[p] == Writing(key, 0) && key in s.batches && s.batches[key] == Batch(Pending, lines)
    requires n <= |lines|
    ensures Inserting(s, p, n) == s.(ledger := s.ledger + RowsOf(key, lines[..n]), posters := s.posters[p := Writing(key, n)])
  {
    if n > 0 {
      InsertsInOrder(s, p, key, lines, n - 1);
      assert RowsOf(key, lines[..n]) == RowsOf(key, lines[..n - 1]) + [Row(key, lines[n - 1])];
    } else {
      assert s.posters[p := Writing(key, 0)] == s.posters && RowsOf(key, lines[..0]) == [];
    }
  }

  /** Under a key nobody has used, with nobody else in between, the batch is posted with all its movements, in order. */
  lemma {:induction false} AlonePosts(s: State, p: nat, key: string, lines: seq<Entry>)
    requires p !in s.posters && key !in s.batches
    ensures var t := Next(Inserting(Next(Next(s, Call(p, key, lines)), InsertBatch(p)), p, |lines|), Promote(p));
            && t.ledger == s.ledger + RowsOf(key, lines) && t.batches == s.batches[key := Batch(Posted, lines)]
            && t.posters == s.posters
  {
    var u := Next(Next(s, Call(p, key, lines)), InsertBatch(p));
    assert u == s.(batches := s.batches[key := Batch(Pending, lines)], posters := s.posters[p := Writing(key, 0)]);
    InsertsInOrder(u, p, key, lines, |lines|);
    assert lines[..|lines|] == lines;
  }

  /** A failing writer marks its batch, and is gone. */
  lemma {:induction false} FailureIsMarked(s: State, p: nat)
    requires IsWriter(s, p) && s.batches[s.posters[p].key].status == Pending
    ensures var t, key := Next(s, Fail(p)), s.posters[p].key;
            && t.batches == s.batches[key := s.batches[key].(status := Failed)] && t.ledger == s.ledger
            && p !in t.posters && t.posters.Keys == s.posters.Keys - {p}
  {
  }

  /** Of two posters that found a key unused, the second to open its batch is turned into a replay. */
  lemma {:induction false} LoserReplays(s: State, p: nat)
    requires p in s.posters && s.posters[p].Opening? && s.posters[p].key in s.batches
    ensures var t := Next(s, InsertBatch(p)); t.ledger == s.ledger && t.batches == s.batches && p !in t.posters
  {
  }
}
