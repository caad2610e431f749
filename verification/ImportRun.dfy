/**
 * Processing an import in chunks, by processors that may crash, be retried or be taken over
 * (runJob in backend/modules/inventory/import.service.js, backend/models/ImportJob.js,
 * backend/models/StockBatch.js). A chunk enters the ledger under one key fixed by job and chunk;
 * a posting under a used key is a replay, and only a fresh posting is folded into the balances.
 */
module ImportRun {
  import opened Options
  import opened Sums
  import opened ImportChunks
  import opened JsText
  import Projection
  import Posting

  type Grain = Projection.Grain
  type Catalogue = Posting.Catalogue

  /** LOCK_STALE_MS */
  const STALE: int := 15 * 60 * 1000

  /** A master sheet's quantities come in; a fresh inventory's are what the shelf holds. */
  datatype Sheet = Intake | Fresh

  /** A staged row, with the import it belongs to. */
  datatype Row = Row(valid: bool, sheet: Sheet, quantity: int, place: Grain, isNew: bool)

  datatype Line = Line(row: nat, quantity: int, place: Grain)

  datatype Book = Book(onHand: int, reserved: int)

  /** What one attempt at a chunk finds: the balances, the rows whose master data was written, the catalogue. */
  datatype Reading = Reading(books: map<Grain, Book>, landed: set<nat>, cat: Catalogue)

  /** The rows an attempt held and what it found. */
  datatype Attempt = Attempt(rows: set<nat>, read: Reading)

  datatype JobStatus = Validated | Processing | Finished | Stopped | Cancelled

  /** Where a posted chunk stands: with its poster, folded into the balances, or dropped on the way. */
  datatype Fate = InHand(p: nat) | Folded | Dropped

  datatype Batch = Batch(lines: seq<Line>, fate: Fate)

  datatype Processor =
    | Idle
    | Holding(chunk: nat, rows: set<nat>)
    | Folding(chunk: nat, rows: set<nat>, ok: set<nat>, bad: set<nat>)
    | Marking(chunk: nat, rows: set<nat>, ok: set<nat>, bad: set<nat>)

  datatype State = State(
    now: int, job: JobStatus, lockedAt: Option<int>, claims: seq<int>, status: seq<Status>,
    ledger: seq<Line>, order: seq<nat>, batches: map<nat, Batch>, attempts: map<nat, Attempt>, folded: seq<Line>,
    procs: map<nat, Processor>)

  datatype Step =
    | Tick(ms: nat)
    | Confirm
    | Cancel
    | Claim(p: nat)
    | Take(p: nat)
    | Post(p: nat, read: Reading)
    | Fold(p: nat)
    | Retry(p: nat)
    | Mark(p: nat, some: set<nat>)
    | Advance(p: nat)
    | Finish(p: nat)
    | Fail(p: nat)
    | Crash(p: nat)

  function Valid(file: seq<Row>): (v: seq<bool>)
    ensures |v| == |file| && forall i :: 0 <= i < |v| ==> v[i] == file[i].valid
  {
    seq(|file|, i requires 0 <= i < |file| => file[i].valid)
  }

  function Start(file: seq<Row>): State {
    State(0, Validated, None, [], seq(|file|, i requires 0 <= i < |file| => if file[i].valid then Pending else Skipped),
          [], [], map[], map[], [], map[])
  }

  function Without(procs: map<nat, Processor>, p: nat): map<nat, Processor> {
    map q | q in procs && q != p :: procs[q]
  }

  /** The poster is gone between posting and folding: the key is used, so nobody will fold it. */
  function Dropping(s: State, p: nat): map<nat, Batch> {
    if p in s.procs && s.procs[p].Folding? && s.procs[p].chunk in s.batches
    then s.batches[s.procs[p].chunk := s.batches[s.procs[p].chunk].(fate := Dropped)] else s.batches
  }

  // ---------------------------------------------------------------------------------------
  // One attempt
  // ---------------------------------------------------------------------------------------

  function BookAt(read: Reading, g: Grain): Book {
    if g in read.books then read.books[g] else Book(0, 0)
  }

  function Judge(row: Row, read: Reading): Judged {
    var book := BookAt(read, row.place);
    if row.sheet == Intake then JudgeIntake(row.quantity, row.isNew, book.onHand, book.reserved)
    else JudgeFresh(row.quantity, book.onHand, book.reserved)
  }

  function KindOf(j: Judged): Projection.Kind
    requires j.Posts?
  {
    match j.kind
    case OpeningLine => Projection.Opening
    case ReceiptLine => Projection.Receipt
    case AdjustmentLine => Projection.Adjustment
    case CountLine => Projection.Count
  }

  /** The line handed to the ledger for a row that moves stock. */
  function RequestOf(row: Row, j: Judged): Posting.Request
    requires j.Posts?
  {
    Posting.Request(Posting.NameOf(KindOf(j)), None, Posting.Whole(j.quantity), row.place.sku,
                    Posting.Whole(j.before), Posting.Whole(j.after), Some(row.place.brand), Some(row.place.location), None, None, None)
  }

  /** Where the ledger files a line for this place, if it takes it at all. */
  function FiledAt(cat: Catalogue, g: Grain): Option<Grain> {
    var sku := Trim(g.sku);
    var brands := if sku in cat.brands then cat.brands[sku] else [];
    var wanted := Posting.Cleaned(Some(g.location));
    var code := if wanted.Some? && wanted.value != "" then wanted else cat.home;
    if sku == "" || |brands| != 1 || code.None? || code.value !in cat.active || !cat.active[code.value] then None
    else Some(Projection.Grain(sku, brands[0], code.value))
  }

  /** The lines of the first n rows of the file, as far as they are among the rows held. */
  function Written(file: seq<Row>, rows: set<nat>, read: Reading, n: nat): seq<Line>
    requires n <= |file|
  {
    if n == 0 then []
    else
      var front, j := Written(file, rows, read, n - 1), Judge(file[n - 1], read);
      if n - 1 in rows && j.Posts?
      then front + [Line(n - 1, j.quantity, FiledAt(read.cat, file[n - 1].place).GetOr(file[n - 1].place))]
      else front
  }

  /** The ledger takes every line. */
  predicate Taken(file: seq<Row>, rows: set<nat>, read: Reading) {
    forall r :: r in rows && r < |file| && Judge(file[r], read).Posts? ==> FiledAt(read.cat, file[r].place).Some?
  }

  /** The rows reported as successes: of a master sheet those whose master data was written, whatever became of their stock. */
  function OkRows(file: seq<Row>, rows: set<nat>, read: Reading, posted: bool): set<nat> {
    set r | r in rows && r < |file| &&
      (if file[r].sheet == Intake then r in read.landed
       else Judge(file[r], read) == NoChange || (Judge(file[r], read).Posts? && posted))
  }

  /** The rows reported as failures. */
  function BadRows(file: seq<Row>, rows: set<nat>, read: Reading, posted: bool): set<nat> {
    set r | r in rows && r < |file| &&
      ((file[r].sheet == Intake && r !in read.landed) || Judge(file[r], read) == Refused || (Judge(file[r], read).Posts? && !posted))
  }

  /** A line per row of the chunk at most, for whole, non-zero quantities. */
  ghost predicate Postable(file: seq<Row>, rows: set<nat>, lines: seq<Line>) {
    && (forall i :: 0 <= i < |lines| ==> lines[i].row in rows && lines[i].quantity != 0)
    && (forall i, j :: 0 <= i < j < |lines| ==> lines[i].row != lines[j].row)
  }

  function Marked(status: seq<Status>, some: set<nat>, ok: set<nat>, bad: set<nat>): (r: seq<Status>)
    ensures |r| == |status|
    ensures forall i :: 0 <= i < |r| ==>
      r[i] == if status[i] == Pending && i in some && (i in ok || i in bad) then (if i in ok then Processed else Failed) else status[i]
  {
    seq(|status|, i requires 0 <= i < |status| =>
      if status[i] == Pending && i in some && (i in ok || i in bad) then (if i in ok then Processed else Failed) else status[i])
  }

  ghost function Entered(file: seq<Row>, s: State, p: nat, lines: seq<Line>, ok: set<nat>, bad: set<nat>): State
    requires p in s.procs && s.procs[p].Holding?
  {
    var Holding(c, rows) := s.procs[p];
    if !Postable(file, rows, lines) || !(ok <= rows) || !(bad <= rows) then s
    else if lines == [] || c in s.batches then s.(procs := s.procs[p := Marking(c, rows, ok, bad)])
    else s.(ledger := s.ledger + lines, order := s.order + [c], batches := s.batches[c := Batch(lines, InHand(p))],
            procs := s.procs[p := Folding(c, rows, ok, bad)])
  }

  /**
   * One attempt: every row is judged on the balances read, and the lines go to the ledger under the
   * chunk's key. A used key is a replay before anything is looked at; a line the ledger cannot file
   * refuses them all.
   */
  ghost function Attempted(file: seq<Row>, s: State, p: nat, read: Reading): State
    requires p in s.procs && s.procs[p].Holding?
  {
    var Holding(c, rows) := s.procs[p];
    var posted := c in s.batches || Taken(file, rows, read);
    var lines := if posted then Written(file, rows, read, |file|) else [];
    var t := Entered(file, s, p, lines, OkRows(file, rows, read, posted), BadRows(file, rows, read, posted));
    if c !in s.batches && c in t.batches then t.(attempts := s.attempts[c := Attempt(rows, read)]) else t
  }

  /** The rows a pass takes up, as a processor sees them. */
  function Taking(file: seq<Row>, s: State, p: nat): State {
    if !Staged(Valid(file), s.status) then s
    else
      var rows := TakeUp(Valid(file), s.status, CHUNK_SIZE);
      if rows == [] || rows[0] >= |file| then s
      else s.(procs := s.procs[p := Holding(ChunkOf(Valid(file), rows[0]), set r | r in rows)])
  }

  ghost function Next(file: seq<Row>, s: State, step: Step): State {
    match step
    case Tick(ms) => s.(now := s.now + ms)
    case Confirm => if s.job == Validated then s.(job := Processing) else s
    case Cancel => if s.job == Validated then s.(job := Cancelled) else s
    case Claim(p) =>
      if p in s.procs || s.job != Processing || (s.lockedAt.Some? && !(s.lockedAt.value < s.now - STALE)) then s
      else s.(lockedAt := Some(s.now), claims := s.claims + [s.now], procs := s.procs[p := Idle])
    case Take(p) => if p in s.procs && s.procs[p].Idle? then Taking(file, s, p) else s
    case Post(p, read) => if p in s.procs && s.procs[p].Holding? then Attempted(file, s, p, read) else s
    case Fold(p) =>
      if p !in s.procs || !s.procs[p].Folding? || s.procs[p].chunk !in s.batches then s
      else
        var Folding(c, rows, ok, bad) := s.procs[p];
        s.(folded := s.folded + s.batches[c].lines, batches := s.batches[c := s.batches[c].(fate := Folded)],
           procs := s.procs[p := Marking(c, rows, ok, bad)])
    case Retry(p) =>
      if p !in s.procs || s.procs[p].Idle? then s
      else s.(batches := Dropping(s, p), procs := s.procs[p := Holding(s.procs[p].chunk, s.procs[p].rows)])
    case Mark(p, some) =>
      if p !in s.procs || !s.procs[p].Marking? then s
      else s.(status := Marked(s.status, some, s.procs[p].ok, s.procs[p].bad))
    case Advance(p) =>
      if p !in s.procs || !s.procs[p].Marking? then s
      else
        var Marking(_, rows, ok, bad) := s.procs[p];
        var after := if ok == {} && bad == {} then Marked(s.status, rows, {}, rows) else Marked(s.status, rows, ok, bad);
        s.(status := after, procs := s.procs[p := Idle])
    case Finish(p) =>
      if p !in s.procs || !s.procs[p].Idle? || Pending in s.status then s
      else s.(job := Finished, lockedAt := None, procs := Without(s.procs, p))
    case Fail(p) =>
      if p !in s.procs then s
      else s.(job := Stopped, lockedAt := None, batches := Dropping(s, p), procs := Without(s.procs, p))
    case Crash(p) => s.(batches := Dropping(s, p), procs := Without(s.procs, p))
  }

  ghost function After(file: seq<Row>, s: State, steps: seq<Step>): State {
    if steps == [] then s else Next(file, After(file, s, steps[..|steps| - 1]), steps[|steps| - 1])
  }

  ghost function Run(file: seq<Row>, steps: seq<Step>): State {
    After(file, Start(file), steps)
  }

  // ---------------------------------------------------------------------------------------
  // Rows, chunks and batches
  // ---------------------------------------------------------------------------------------

  ghost predicate RowsOf(file: seq<Row>, c: nat, rows: set<nat>) {
    forall r :: r in rows ==> r < |file| && file[r].valid && ChunkOf(Valid(file), r) == c
  }

  ghost predicate LinesOf(file: seq<Row>, c: nat, lines: seq<Line>) {
    && (forall i :: 0 <= i < |lines| ==> RowIn(file, c, lines[i].row))
    && (forall i, j :: 0 <= i < j < |lines| ==> lines[i].row != lines[j].row)
  }

  ghost predicate RowIn(file: seq<Row>, c: nat, r: nat) {
    r < |file| && file[r].valid && ChunkOf(Valid(file), r) == c
  }

  function Flatten(order: seq<nat>, batches: map<nat, Batch>): seq<Line> {
    if order == [] then []
    else
      var c := order[|order| - 1];
      Flatten(order[..|order| - 1], batches) + if c in batches then batches[c].lines else []
  }

  ghost predicate BatchesOk(file: seq<Row>, s: State) {
    && Distinct(s.order) && (forall c :: c in s.order <==> c in s.batches)
    && (forall c :: c in s.batches ==> LinesOf(file, c, s.batches[c].lines))
    && s.ledger == Flatten(s.order, s.batches)
  }

  ghost predicate ProcsOk(file: seq<Row>, s: State) {
    forall p :: p in s.procs && !s.procs[p].Idle? ==>
      && RowsOf(file, s.procs[p].chunk, s.procs[p].rows)
      && (s.procs[p].Folding? ==> s.procs[p].chunk in s.batches && s.batches[s.procs[p].chunk].fate == InHand(p))
  }

  ghost predicate HandsOk(s: State) {
    forall c :: c in s.batches && s.batches[c].fate.InHand? ==>
      var p := s.batches[c].fate.p; p in s.procs && s.procs[p].Folding? && s.procs[p].chunk == c
  }

  ghost predicate Inv(file: seq<Row>, s: State) {
    Staged(Valid(file), s.status) && BatchesOk(file, s) && ProcsOk(file, s) && HandsOk(s)
  }

  lemma {:induction false} FlattenSame(order: seq<nat>, b: map<nat, Batch>, d: map<nat, Batch>)
    requires forall c :: c in order ==> (c in b <==> c in d) && (c in b ==> b[c].lines == d[c].lines)
    ensures Flatten(order, b) == Flatten(order, d)
  {
    if order != [] {
      FlattenSame(order[..|order| - 1], b, d);
    }
  }

  lemma {:induction false} BatchesGrow(file: seq<Row>, s: State, c: nat, lines: seq<Line>, fate: Fate, t: State)
    requires BatchesOk(file, s) && c !in s.batches && LinesOf(file, c, lines)
    requires t.ledger == s.ledger + lines && t.order == s.order + [c] && t.batches == s.batches[c := Batch(lines, fate)]
    ensures BatchesOk(file, t)
  {
    hide LinesOf, Flatten, Distinct;
    FlattenSame(s.order, s.batches, t.batches);
    FlattenSnoc(s.order, c, t.batches);
    DistinctSnoc(s.order, c);
  }

  lemma {:induction false} FlattenSnoc(order: seq<nat>, c: nat, batches: map<nat, Batch>)
    ensures Flatten(order + [c], batches) == Flatten(order, batches) + if c in batches then batches[c].lines else []
  {
    assert (order + [c])[..|order|] == order;
  }

  lemma {:induction false} PostableLines(file: seq<Row>, c: nat, rows: set<nat>, lines: seq<Line>)
    requires RowsOf(file, c, rows) && Postable(file, rows, lines)
    ensures LinesOf(file, c, lines)
  {
    hide ChunkOf;
  }

  lemma {:induction false} HandsGrow(file: seq<Row>, s: State, p: nat, c: nat, rows: set<nat>, lines: seq<Line>,
                                            ok: set<nat>, bad: set<nat>, t: State)
    requires ProcsOk(file, s) && HandsOk(s) && p in s.procs && s.procs[p].Holding? && c !in s.batches && RowsOf(file, c, rows)
    requires t.batches == s.batches[c := Batch(lines, InHand(p))] && t.procs == s.procs[p := Folding(c, rows, ok, bad)]
    ensures ProcsOk(file, t) && HandsOk(t)
  {
    hide RowsOf;
  }

  lemma {:induction false} PostKeeps(file: seq<Row>, s: State, p: nat, lines: seq<Line>, ok: set<nat>, bad: set<nat>)
    requires Inv(file, s) && p in s.procs && s.procs[p].Holding?
    ensures Inv(file, Entered(file, s, p, lines, ok, bad))
  {
    var Holding(c, rows) := s.procs[p];
    var t := Entered(file, s, p, lines, ok, bad);
    hide BatchesOk, RowsOf, Postable, Staged;
    if Postable(file, rows, lines) && ok <= rows && bad <= rows && lines != [] && c !in s.batches {
      hide ProcsOk, HandsOk;
      assert RowsOf(file, c, rows) by { HeldRows(file, s, p); }
      PostableLines(file, c, rows, lines);
      BatchesGrow(file, s, c, lines, InHand(p), t);
      HandsGrow(file, s, p, c, rows, lines, ok, bad, t);
    } else {
      FatesChange(file, s, t);
    }
  }

  lemma {:induction false} HeldRows(file: seq<Row>, s: State, p: nat)
    requires ProcsOk(file, s) && p in s.procs && !s.procs[p].Idle?
    ensures RowsOf(file, s.procs[p].chunk, s.procs[p].rows)
  {
  }

  lemma {:induction false} FatesChange(file: seq<Row>, s: State, t: State)
    requires BatchesOk(file, s) && t.order == s.order && t.ledger == s.ledger && t.batches.Keys == s.batches.Keys
    requires forall c :: c in s.batches ==> t.batches[c].lines == s.batches[c].lines
    ensures BatchesOk(file, t)
  {
    hide LinesOf;
    FlattenSame(s.order, s.batches, t.batches);
  }

  lemma {:induction false} DroppingIs(s: State, p: nat)
    ensures var b := Dropping(s, p);
            && b.Keys == s.batches.Keys && (forall c :: c in b ==> b[c].lines == s.batches[c].lines)
            && (forall c :: c in b ==>
                  b[c].fate == if p in s.procs && s.procs[p].Folding? && s.procs[p].chunk == c then Dropped else s.batches[c].fate)
  {
  }

  lemma {:induction false} LeaveKeeps(file: seq<Row>, s: State, t: State, p: nat)
    requires Inv(file, s)
    requires t == s.(batches := Dropping(s, p), procs := t.procs, job := t.job, lockedAt := t.lockedAt)
    requires t.procs == Without(s.procs, p)
             || (p in s.procs && !s.procs[p].Idle? && t.procs == s.procs[p := Holding(s.procs[p].chunk, s.procs[p].rows)])
    ensures Inv(file, t)
  {
    hide RowsOf, Staged, Dropping, BatchesOk;
    DroppingIs(s, p);
    FatesChange(file, s, t);
  }

  lemma {:induction false} FoldKeeps(file: seq<Row>, s: State, p: nat)
    requires Inv(file, s)
    ensures Inv(file, Next(file, s, Fold(p)))
  {
    hide RowsOf, Staged, BatchesOk, ProcsOk, HandsOk;
    var t := Next(file, s, Fold(p));
    if t != s {
      assert forall c :: c in s.batches ==> c in t.batches && t.batches[c].lines == s.batches[c].lines;
      assert t.batches.Keys == s.batches.Keys;
      FatesChange(file, s, t);
      HandsFold(file, s, t, p);
    }
  }

  lemma {:induction false} HandsFold(file: seq<Row>, s: State, t: State, p: nat)
    requires ProcsOk(file, s) && HandsOk(s) && p in s.procs && s.procs[p].Folding? && s.procs[p].chunk in s.batches
    requires var Folding(c, rows, ok, bad) := s.procs[p];
             && t.batches == s.batches[c := s.batches[c].(fate := Folded)] && t.procs == s.procs[p := Marking(c, rows, ok, bad)]
    ensures ProcsOk(file, t) && HandsOk(t)
  {
    hide RowsOf;
  }

  lemma {:induction false} TakeKeeps(file: seq<Row>, s: State, p: nat)
    requires Inv(file, s) && p in s.procs && s.procs[p].Idle?
    ensures Inv(file, Taking(file, s, p))
  {
    var valid := Valid(file);
    hide BatchesOk, TakeUp, ChunkOf;
    WholeChunkTakenUp(valid, s.status, CHUNK_SIZE);
    PendingRowsAre(s.status);
    var rows := TakeUp(valid, s.status, CHUNK_SIZE);
    var t := Taking(file, s, p);
    FatesChange(file, s, t);
    if rows != [] {
      assert rows[0] in rows;
      assert RowsOf(file, ChunkOf(valid, rows[0]), set r | r in rows);
    }
  }

  lemma {:induction false} AttemptKeeps(file: seq<Row>, s: State, p: nat, read: Reading)
    requires Inv(file, s) && p in s.procs && s.procs[p].Holding?
    ensures Inv(file, Attempted(file, s, p, read))
  {
    hide Written, Taken, OkRows, BadRows, Entered, RowsOf, LinesOf, Staged;
    var Holding(c, rows) := s.procs[p];
    var posted := c in s.batches || Taken(file, rows, read);
    PostKeeps(file, s, p, if posted then Written(file, rows, read, |file|) else [],
              OkRows(file, rows, read, posted), BadRows(file, rows, read, posted));
  }

  lemma {:induction false} StepKeeps(file: seq<Row>, s: State, step: Step)
    requires Inv(file, s)
    ensures Inv(file, Next(file, s, step))
  {
    hide BatchesOk, Attempted, Taking, RowsOf, Dropping, ChunkOf;
    match step
    case Post(p, read) => if p in s.procs && s.procs[p].Holding? { AttemptKeeps(file, s, p, read); }
    case Take(p) => if p in s.procs && s.procs[p].Idle? { TakeKeeps(file, s, p); }
    case Fold(p) => FoldKeeps(file, s, p);
    case Retry(p) => if p in s.procs && !s.procs[p].Idle? { LeaveKeeps(file, s, Next(file, s, step), p); }
    case Fail(p) => if p in s.procs { LeaveKeeps(file, s, Next(file, s, step), p); }
    case Crash(p) => LeaveKeeps(file, s, Next(file, s, step), p);
    case _ => OtherKeeps(file, s, step);
  }

  lemma {:induction false} OtherKeeps(file: seq<Row>, s: State, step: Step)
    requires Inv(file, s)
    requires step.Tick? || step.Confirm? || step.Cancel? || step.Claim? || step.Mark? || step.Advance? || step.Finish?
    ensures Inv(file, Next(file, s, step))
  {
    hide RowsOf, LinesOf, BatchesOk;
    var t := Next(file, s, step);
    assert t.order == s.order && t.ledger == s.ledger && t.batches == s.batches;
    FatesChange(file, s, t);
  }

  lemma {:induction false} RunKeeps(file: seq<Row>, s: State, steps: seq<Step>)
    requires Inv(file, s)
    ensures Inv(file, After(file, s, steps))
  {
    if steps != [] {
      hide Inv, Next;
      RunKeeps(file, s, steps[..|steps| - 1]);
      StepKeeps(file, After(file, s, steps[..|steps| - 1]), steps[|steps| - 1]);
    }
  }

  lemma {:induction false} StartIsOk(file: seq<Row>)
    ensures Inv(file, Start(file))
  {
  }

  // ---------------------------------------------------------------------------------------
  // Each row once
  // ---------------------------------------------------------------------------------------

  ghost predicate RowsDistinct(lines: seq<Line>) {
    forall i, j :: 0 <= i < j < |lines| ==> lines[i].row != lines[j].row
  }

  lemma {:induction false} FlattenRows(file: seq<Row>, order: seq<nat>, batches: map<nat, Batch>)
    requires Distinct(order) && forall c :: c in order ==> c in batches && LinesOf(file, c, batches[c].lines)
    ensures RowsDistinct(Flatten(order, batches))
    ensures forall i :: 0 <= i < |Flatten(order, batches)| ==>
              var r := Flatten(order, batches)[i].row; r < |file| && file[r].valid && ChunkOf(Valid(file), r) in order
  {
    hide ChunkOf;
    if order != [] {
      var n := |order| - 1;
      FlattenRows(file, order[..n], batches);
      assert order[n] !in order[..n];
    }
  }

  /**
   * Every row of the file enters the ledger at most once, in every run: whatever crashes, retries,
   * resumptions and takeovers there are, two processors at work on one chunk included.
   */
  lemma {:induction false} EachRowOnce(file: seq<Row>, steps: seq<Step>)
    ensures var s := Run(file, steps);
            && RowsDistinct(s.ledger)
            && forall i :: 0 <= i < |s.ledger| ==> s.ledger[i].row < |file| && file[s.ledger[i].row].valid
  {
    StartIsOk(file);
    RunKeeps(file, Start(file), steps);
    var s := Run(file, steps);
    hide LinesOf, Flatten, ChunkOf;
    FlattenRows(file, s.order, s.batches);
  }

  lemma {:induction false} StepKeepsLines(file: seq<Row>, s: State, step: Step, c: nat)
    requires c in s.batches
    ensures c in Next(file, s, step).batches && Next(file, s, step).batches[c].lines == s.batches[c].lines
  {
    hide Taking, Postable, Marked;
    if step.Take? { TakingKeepsBooks(file, s, step.p); }
  }

  lemma {:induction false} RunKeepsLines(file: seq<Row>, s: State, steps: seq<Step>, c: nat)
    requires c in s.batches
    ensures c in After(file, s, steps).batches && After(file, s, steps).batches[c].lines == s.batches[c].lines
  {
    if steps != [] {
      hide Next;
      RunKeepsLines(file, s, steps[..|steps| - 1], c);
      StepKeepsLines(file, After(file, s, steps[..|steps| - 1]), steps[|steps| - 1], c);
    }
  }

  ghost predicate HasRow(lines: seq<Line>, r: nat) {
    exists i :: 0 <= i < |lines| && lines[i].row == r
  }

  lemma {:induction false} FlattenHasRow(file: seq<Row>, order: seq<nat>, batches: map<nat, Batch>, r: nat)
    requires forall c :: c in order ==> c in batches && LinesOf(file, c, batches[c].lines)
    requires r < |file| && HasRow(Flatten(order, batches), r)
    ensures var c := ChunkOf(Valid(file), r); c in order && HasRow(batches[c].lines, r)
  {
    hide ChunkOf;
    if order != [] {
      var n := |order| - 1;
      var front, last := Flatten(order[..n], batches), batches[order[n]].lines;
      var all := front + last;
      var i :| 0 <= i < |all| && all[i].row == r;
      if i < |front| {
        assert front[i].row == r;
        FlattenHasRow(file, order[..n], batches, r);
      } else {
        assert last[i - |front|].row == r;
        assert RowIn(file, order[n], last[i - |front|].row);
      }
    }
  }

  /**
   * Once its chunk's key is used, a row that was not in the posting never enters the ledger, whatever
   * happens later, although a later attempt that accepts it reports it as processed.
   */
  lemma {:induction false} LeftOutForGood(file: seq<Row>, s: State, steps: seq<Step>, r: nat)
    requires Inv(file, s) && r < |file| && ChunkOf(Valid(file), r) in s.batches
    requires !HasRow(s.batches[ChunkOf(Valid(file), r)].lines, r)
    ensures !HasRow(After(file, s, steps).ledger, r)
  {
    hide Valid, ChunkOf, Flatten, LinesOf, HasRow;
    var c := ChunkOf(Valid(file), r);
    RunKeeps(file, s, steps);
    RunKeepsLines(file, s, steps, c);
    var t := After(file, s, steps);
    if HasRow(t.ledger, r) {
      FlattenHasRow(file, t.order, t.batches, r);
    }
  }

  // ---------------------------------------------------------------------------------------
  // What an attempt posts
  // ---------------------------------------------------------------------------------------

  /** The row is let through by the balances the attempt read, and moves stock. */
  predicate LetThrough(file: seq<Row>, a: Attempt, r: nat) {
    r < |file| && r in a.rows && Judge(file[r], a.read).Posts?
  }

  /** The line a row that is let through posts. */
  ghost predicate IsLineOf(file: seq<Row>, a: Attempt, l: Line) {
    && LetThrough(file, a, l.row)
    && l.quantity == Judge(file[l.row], a.read).quantity
    && l.place == FiledAt(a.read.cat, file[l.row].place).GetOr(file[l.row].place)
  }

  /** The figures an attempt read for a place; a place without a balance holds nothing. */
  predicate Reads(read: Reading, g: Grain, book: Book) {
    if g in read.books then book == read.books[g] else book.onHand == 0 && book.reserved == 0
  }

  /**
   * What the sheets promise. A fresh inventory's row moves stock when its figure is not the shelf's, and
   * may not go below what is reserved. A master sheet's moves what it says: it may always bring stock in,
   * and take away only from a place that is not both new and empty, leaving neither less than nothing nor
   * less than is reserved.
   */
  predicate MovesStock(row: Row, book: Book) {
    if row.sheet == Fresh then row.quantity != book.onHand && row.quantity >= book.reserved
    else row.quantity > 0
         || (row.quantity < 0 && !(row.isNew && book.onHand == 0)
             && book.onHand + row.quantity >= 0 && book.onHand + row.quantity >= book.reserved)
  }

  /** It asks for nothing, or for what is there already. */
  predicate AsksNothing(row: Row, book: Book) {
    if row.sheet == Fresh then row.quantity == book.onHand else row.quantity == 0
  }

  /** The movement a row is filed as. */
  predicate FiledAs(row: Row, book: Book, kind: Projection.Kind) {
    if row.sheet == Fresh then kind == Projection.Count
    else if row.quantity < 0 then kind == Projection.Adjustment
    else if row.isNew && book.onHand == 0 then kind == Projection.Opening
    else kind == Projection.Receipt
  }

  /** The judgements are those. */
  lemma {:induction false} JudgedExactlyWhen(row: Row, read: Reading, book: Book)
    requires Reads(read, row.place, book)
    ensures var j := Judge(row, read);
            && (j.Posts? <==> MovesStock(row, book)) && (j == NoChange <==> AsksNothing(row, book))
            && (j.Posts? ==> && FiledAs(row, book, KindOf(j)) && j.before == book.onHand && j.after == book.onHand + j.quantity
                             && (if row.sheet == Fresh then j.after == row.quantity else j.quantity == row.quantity))
  {
  }

  lemma {:induction false} PostsMove(row: Row, read: Reading)
    ensures var j := Judge(row, read);
            j.Posts? ==> j.quantity != 0 && j.after == j.before + j.quantity
                         && (row.sheet == Intake ==> j.quantity == row.quantity)
                         && (row.sheet == Fresh ==> j.after == row.quantity)
                         && Posting.SignFits(KindOf(j), j.quantity)
  {
  }

  lemma {:induction false} HasRowSnoc(ls: seq<Line>, l: Line, r: nat)
    ensures HasRow(ls + [l], r) <==> HasRow(ls, r) || l.row == r
  {
    var after := ls + [l];
    if HasRow(ls, r) {
      var i :| 0 <= i < |ls| && ls[i].row == r;
      assert after[i].row == r;
    }
    assert after[|ls|] == l;
  }

  lemma {:induction false} WrittenHas(file: seq<Row>, a: Attempt, n: nat, r: nat)
    requires n <= |file|
    ensures HasRow(Written(file, a.rows, a.read, n), r) <==> r < n && LetThrough(file, a, r)
  {
    hide Judge, FiledAt;
    if n > 0 {
      WrittenHas(file, a, n - 1, r);
      var front, ls := Written(file, a.rows, a.read, n - 1), Written(file, a.rows, a.read, n);
      if LetThrough(file, a, n - 1) { HasRowSnoc(front, ls[|front|], r); }
    }
  }

  ghost predicate LinesOk(file: seq<Row>, a: Attempt, ls: seq<Line>, n: nat) {
    && (forall i :: 0 <= i < |ls| ==> IsLineOf(file, a, ls[i]) && ls[i].row < n)
    && (forall i, j :: 0 <= i < j < |ls| ==> ls[i].row < ls[j].row)
  }

  lemma {:induction false} LinesGrow(file: seq<Row>, a: Attempt, front: seq<Line>, l: Line, n: nat)
    requires LinesOk(file, a, front, n)
    ensures LinesOk(file, a, front, n + 1) && (IsLineOf(file, a, l) && l.row == n ==> LinesOk(file, a, front + [l], n + 1))
  {
    hide IsLineOf;
  }

  lemma {:induction false} WrittenRows(file: seq<Row>, a: Attempt, n: nat)
    requires n <= |file|
    ensures LinesOk(file, a, Written(file, a.rows, a.read, n), n)
  {
    hide Judge, FiledAt;
    if n > 0 {
      WrittenRows(file, a, n - 1);
      var j := Judge(file[n - 1], a.read);
      var l := Line(n - 1, if j.Posts? then j.quantity else 0, FiledAt(a.read.cat, file[n - 1].place).GetOr(file[n - 1].place));
      LinesGrow(file, a, Written(file, a.rows, a.read, n - 1), l, n - 1);
      hide LinesOk;
    }
  }

  lemma {:induction false} WrittenIs(file: seq<Row>, a: Attempt, n: nat)
    requires n <= |file|
    ensures var ls := Written(file, a.rows, a.read, n);
            && (forall i :: 0 <= i < |ls| ==> IsLineOf(file, a, ls[i]) && ls[i].row < n)
            && (forall i, j :: 0 <= i < j < |ls| ==> ls[i].row < ls[j].row)
            && (forall r: nat :: HasRow(ls, r) <==> r < n && LetThrough(file, a, r))
  {
    WrittenRows(file, a, n);
    forall r: nat ensures HasRow(Written(file, a.rows, a.read, n), r) <==> r < n && LetThrough(file, a, r) {
      WrittenHas(file, a, n, r);
    }
  }

  /** The guard on lines never bites: what an attempt computes is a line per row at most, of whole units. */
  lemma {:induction false} WrittenPostable(file: seq<Row>, a: Attempt)
    ensures Postable(file, a.rows, Written(file, a.rows, a.read, |file|))
  {
    hide Judge, FiledAt, Written, HasRow;
    WrittenIs(file, a, |file|);
    var ls := Written(file, a.rows, a.read, |file|);
    forall i | 0 <= i < |ls| ensures ls[i].row in a.rows && ls[i].quantity != 0 {
      assert IsLineOf(file, a, ls[i]);
      PostsMove(file[ls[i].row], a.read);
    }
  }

  /** The lines of the first n rows, as they are handed to the ledger. */
  function Requests(file: seq<Row>, rows: set<nat>, read: Reading, n: nat): seq<Posting.Request>
    requires n <= |file|
  {
    if n == 0 then []
    else
      var front, j := Requests(file, rows, read, n - 1), Judge(file[n - 1], read);
      if n - 1 in rows && j.Posts? then front + [RequestOf(file[n - 1], j)] else front
  }

  /** The movement a line becomes, with the figures on file beside it. */
  ghost predicate EntersAs(row: Row, read: Reading, place: Grain, quantity: int, e: Posting.Entry, now: int) {
    && e.movement.grain == place && e.movement.quantity == quantity && e.movement.effective == Some(now)
    && e.movement.cls == Projection.Physical
    && exists book :: Reads(read, row.place, book) && FiledAs(row, book, e.movement.kind)
                      && e.before == Some(book.onHand) && e.after == Some(book.onHand + quantity)
  }

  /** The line checks let the request through as it is, but for a blank SKU. */
  lemma {:induction false} RequestChecks(row: Row, j: Judged)
    requires j.Posts? && j.quantity != 0 && j.after == j.before + j.quantity && Posting.SignFits(KindOf(j), j.quantity)
    ensures var checked := Posting.ValidateLine(RequestOf(row, j), false);
            if Trim(row.place.sku) == "" then checked.Err?
            else checked == Posting.Result.Ok(Posting.Checked(KindOf(j), Projection.Physical, j.quantity, Trim(row.place.sku),
                                                              Some(j.before), Some(j.after),
                                                              Posting.Cleaned(Some(row.place.location)), None, None))
  {
    hide Trim, Upper, Posting.Cleaned;
    var kind := KindOf(j);
    Posting.NamesAreRead(kind);
    UpperFixed(Posting.NameOf(kind));
    hide Posting.NameOf, Posting.KindNamed;
  }

  /** And resolves where the catalogue files the place. */
  lemma {:induction false} CheckedResolves(g: Grain, c: Posting.Checked, cat: Catalogue, now: int)
    requires c.sku == Trim(g.sku) && c.location == Posting.Cleaned(Some(g.location))
    ensures var e, filed := Posting.Resolve(c, now, cat), FiledAt(cat, g);
            && (Trim(g.sku) == "" ==> filed.None?) && (Trim(g.sku) != "" ==> (e.Ok? <==> filed.Some?))
            && (Trim(g.sku) != "" && e.Ok? ==>
                  && e.value.movement == Projection.Movement(filed.value, c.cls, c.kind, c.quantity, Some(now))
                  && e.value.before == c.before && e.value.after == c.after)
  {
    hide Trim, Posting.Cleaned;
  }

  /** One line through the ledger's own checks. */
  lemma {:induction false} RequestGoesThrough(row: Row, read: Reading, now: int)
    requires Judge(row, read).Posts?
    ensures var j, filed := Judge(row, read), FiledAt(read.cat, row.place);
            var checked := Posting.ValidateLine(RequestOf(row, j), false);
            && (checked.Err? ==> filed.None?)
            && (checked.Ok? ==> Posting.DateOf(checked.value, now, now) == Posting.Result.Ok(now))
            && (checked.Ok? ==>
                  var e := Posting.Resolve(checked.value, now, read.cat);
                  && (e.Ok? <==> filed.Some?)
                  && (e.Ok? ==> EntersAs(row, read, filed.value, j.quantity, e.value, now)))
  {
    hide Trim, Judge, Posting.Cleaned, Posting.ValidateLine, RequestOf, FiledAs, Reads, FiledAt, BookAt, Posting.Resolve, KindOf;
    hide Posting.SignFits, MovesStock, AsksNothing;
    var j, book := Judge(row, read), BookAt(read, row.place);
    BookIsRead(read, row.place);
    PostsMove(row, read);
    JudgedExactlyWhen(row, read, book);
    RequestChecks(row, j);
    var c := Posting.Checked(KindOf(j), Projection.Physical, j.quantity, Trim(row.place.sku), Some(j.before), Some(j.after),
                             Posting.Cleaned(Some(row.place.location)), None, None);
    CheckedResolves(row.place, c, read.cat, now);
  }

  lemma {:induction false} BookIsRead(read: Reading, g: Grain)
    ensures Reads(read, g, BookAt(read, g))
  {
  }

  lemma {:induction false} RequestsAre(file: seq<Row>, a: Attempt, n: nat)
    requires n <= |file|
    ensures var rs, ls := Requests(file, a.rows, a.read, n), Written(file, a.rows, a.read, n);
            |rs| == |ls| && forall i :: 0 <= i < |ls| ==> ls[i].row < |file| && Judge(file[ls[i].row], a.read).Posts?
                                                          && rs[i] == RequestOf(file[ls[i].row], Judge(file[ls[i].row], a.read))
  {
    hide Judge, FiledAt, RequestOf;
    if n > 0 {
      RequestsAre(file, a, n - 1);
    }
  }

  ghost predicate EnteredAs(file: seq<Row>, a: Attempt, l: Line, e: Posting.Entry, now: int) {
    l.row < |file| && EntersAs(file[l.row], a.read, l.place, l.quantity, e, now)
  }

  /**
   * The ledger's own preparation takes an attempt's lines exactly when its catalogue files every one of
   * them, and enters them where it files them.
   */
  lemma {:induction false} LedgerTakesExactlyWhen(file: seq<Row>, a: Attempt, now: int)
    ensures var ls := Written(file, a.rows, a.read, |file|);
            var r := Posting.Prepared(Requests(file, a.rows, a.read, |file|), false, None, now, a.read.cat);
            && (r.Ok? <==> Taken(file, a.rows, a.read))
            && (r.Ok? ==> |r.value| == |ls| && forall i :: 0 <= i < |ls| ==> EnteredAs(file, a, ls[i], r.value[i], now))
  {
    hide EnteredAs, Judge, FiledAt, RequestOf, Written, Requests, HasRow, Posting.ValidateLine, Posting.Resolve;
    hide Posting.DateOf, Posting.Each;
    var rs, ls, cat := Requests(file, a.rows, a.read, |file|), Written(file, a.rows, a.read, |file|), a.read.cat;
    WrittenIs(file, a, |file|);
    RequestsAre(file, a, |file|);
    assert Taken(file, a.rows, a.read) <==> AllFiled(file, a, ls) by { TakenIsFiled(file, a, ls); }
    var checked := Posting.Each(Posting.Checks(rs, false));
    Posting.EachIs(Posting.Checks(rs, false));
    forall i | 0 <= i < |ls| ensures LineGoes(file, a, ls, rs, i, now) { LineGoesThrough(file, a, ls, rs, i, now); }
    if checked.Ok? {
      var cs := checked.value;
      var ats := Posting.Each(Posting.Dates(cs, now, now));
      Posting.EachIs(Posting.Dates(cs, now, now));
      forall i | 0 <= i < |cs| ensures Posting.Dates(cs, now, now)[i] == Posting.Result.Ok(now) {
        assert Posting.Checks(rs, false)[i] == Posting.Result.Ok(cs[i]);
        assert LineGoes(file, a, ls, rs, i, now);
      }
      assert ats.Ok? && forall i :: 0 <= i < |cs| ==> ats.value[i] == now;
      var entries := Posting.Resolutions(cs, ats.value, cat);
      Posting.EachIs(entries);
      forall i | 0 <= i < |cs|
        ensures entries[i] == Posting.Resolve(cs[i], now, cat) && LineGoes(file, a, ls, rs, i, now)
        ensures Posting.ValidateLine(rs[i], false) == Posting.Result.Ok(cs[i])
      {
        assert Posting.Checks(rs, false)[i] == Posting.Result.Ok(cs[i]);
      }
    } else {
      var i :| 0 <= i < |rs| && Posting.Checks(rs, false)[i].Err?;
      assert LineGoes(file, a, ls, rs, i, now);
    }
  }

  ghost predicate AllFiled(file: seq<Row>, a: Attempt, ls: seq<Line>) {
    forall i :: 0 <= i < |ls| ==> ls[i].row < |file| && FiledAt(a.read.cat, file[ls[i].row].place).Some?
  }

  lemma {:induction false} TakenIsFiled(file: seq<Row>, a: Attempt, ls: seq<Line>)
    requires ls == Written(file, a.rows, a.read, |file|)
    ensures Taken(file, a.rows, a.read) <==> AllFiled(file, a, ls)
  {
    hide Judge, FiledAt, Written;
    WrittenIs(file, a, |file|);
    if AllFiled(file, a, ls) {
      forall r | r in a.rows && r < |file| && Judge(file[r], a.read).Posts? ensures FiledAt(a.read.cat, file[r].place).Some? {
        assert HasRow(ls, r);
      }
    }
    if Taken(file, a.rows, a.read) {
      forall i | 0 <= i < |ls| ensures ls[i].row < |file| && FiledAt(a.read.cat, file[ls[i].row].place).Some? {
        assert IsLineOf(file, a, ls[i]);
      }
    }
  }

  /** What RequestGoesThrough says, of line i. */
  ghost predicate LineGoes(file: seq<Row>, a: Attempt, ls: seq<Line>, rs: seq<Posting.Request>, i: nat, now: int)
    requires i < |ls| == |rs|
  {
    && ls[i].row < |file|
    && var filed, checked := FiledAt(a.read.cat, file[ls[i].row].place), Posting.ValidateLine(rs[i], false);
       && (checked.Err? ==> filed.None?)
       && (checked.Ok? ==> Posting.DateOf(checked.value, now, now) == Posting.Result.Ok(now))
       && (checked.Ok? ==>
             var e := Posting.Resolve(checked.value, now, a.read.cat);
             (e.Ok? <==> filed.Some?) && (e.Ok? ==> EnteredAs(file, a, ls[i], e.value, now)))
  }

  lemma {:induction false} LineGoesThrough(file: seq<Row>, a: Attempt, ls: seq<Line>, rs: seq<Posting.Request>, i: nat, now: int)
    requires i < |ls| == |rs| && IsLineOf(file, a, ls[i]) && rs[i] == RequestOf(file[ls[i].row], Judge(file[ls[i].row], a.read))
    ensures LineGoes(file, a, ls, rs, i, now)
  {
    hide Judge, FiledAt, RequestOf, Posting.ValidateLine, Posting.Resolve, Posting.DateOf;
    RequestGoesThrough(file[ls[i].row], a.read, now);
  }

  /** Every batch is what the attempt that posted it computed, and the ledger could file all of it. */
  ghost predicate BatchesJudged(file: seq<Row>, s: State) {
    forall c :: c in s.batches ==> && c in s.attempts && RowsOf(file, c, s.attempts[c].rows)
                                   && s.batches[c].lines == Written(file, s.attempts[c].rows, s.attempts[c].read, |file|)
                                   && Taken(file, s.attempts[c].rows, s.attempts[c].read)
  }

  lemma {:induction false} AttemptJudged(file: seq<Row>, s: State, p: nat, read: Reading)
    requires Inv(file, s) && BatchesJudged(file, s) && p in s.procs && s.procs[p].Holding?
    ensures BatchesJudged(file, Attempted(file, s, p, read))
  {
    hide Written, Taken, OkRows, BadRows, RowsOf, Postable, BatchesOk, HandsOk, Staged;
    HeldRows(file, s, p);
  }

  lemma {:induction false} StepJudged(file: seq<Row>, s: State, step: Step)
    requires Inv(file, s) && BatchesJudged(file, s)
    ensures BatchesJudged(file, Next(file, s, step))
  {
    hide Written, Taken, Attempted, Taking, RowsOf, Inv, Marked;
    if step.Post? {
      if step.p in s.procs && s.procs[step.p].Holding? { AttemptJudged(file, s, step.p, step.read); }
    } else if step.Take? {
      TakingKeepsBooks(file, s, step.p);
    } else {
      var t := Next(file, s, step);
      assert t.attempts == s.attempts && t.batches.Keys == s.batches.Keys;
      assert forall c :: c in s.batches ==> t.batches[c].lines == s.batches[c].lines;
    }
  }

  lemma {:induction false} RunJudged(file: seq<Row>, steps: seq<Step>)
    ensures BatchesJudged(file, Run(file, steps))
  {
    if steps != [] {
      hide Next, Inv, BatchesJudged;
      RunJudged(file, steps[..|steps| - 1]);
      RunIsInv(file, steps[..|steps| - 1]);
      StepJudged(file, Run(file, steps[..|steps| - 1]), steps[|steps| - 1]);
    }
  }

  /**
   * In every run a row is in the ledger exactly when its chunk was posted by an attempt that still held
   * the row, and the row moves stock on the figures that attempt read, whatever is reported about it.
   */
  lemma {:induction false} PostedExactlyWhen(file: seq<Row>, steps: seq<Step>, r: nat)
    requires r < |file| && file[r].valid
    ensures var s, c := Run(file, steps), ChunkOf(Valid(file), r);
            HasRow(s.ledger, r) <==>
            && c in s.batches && c in s.attempts && r in s.attempts[c].rows
            && exists book :: Reads(s.attempts[c].read, file[r].place, book) && MovesStock(file[r], book)
  {
    var s, c := Run(file, steps), ChunkOf(Valid(file), r);
    if c in s.attempts { LetThroughIs(file, s.attempts[c], r); }
    hide Written, LetThrough, RowsOf, LinesOf, Flatten, HasRow, ChunkOf, Run, Valid, Reads, MovesStock;
    RunIsInv(file, steps);
    RunJudged(file, steps);
    if c in s.batches {
      WrittenIs(file, s.attempts[c], |file|);
      if HasRow(s.batches[c].lines, r) { FlattenHolds(s.order, s.batches, c, r); }
    }
    if HasRow(s.ledger, r) { FlattenHasRow(file, s.order, s.batches, r); }
  }

  lemma {:induction false} LetThroughIs(file: seq<Row>, a: Attempt, r: nat)
    requires r < |file|
    ensures LetThrough(file, a, r) <==>
            r in a.rows && exists book :: Reads(a.read, file[r].place, book) && MovesStock(file[r], book)
  {
    var book := BookAt(a.read, file[r].place);
    JudgedExactlyWhen(file[r], a.read, book);
    forall b | Reads(a.read, file[r].place, b) ensures b == book {}
    assert Reads(a.read, file[r].place, book);
  }

  /**
   * And every line of the ledger is what the sheet asks for on the balances read: a master sheet's own
   * quantity, a fresh inventory's difference to the shelf; a deduction leaves neither less than nothing
   * nor less than is reserved.
   */
  lemma {:induction false} LinesFollowTheSheet(file: seq<Row>, steps: seq<Step>, i: nat)
    requires i < |Run(file, steps).ledger|
    ensures var s := Run(file, steps);
            var l := s.ledger[i];
            && l.row < |file| && file[l.row].valid && ChunkOf(Valid(file), l.row) in s.attempts
            && exists book ::
                 && Reads(s.attempts[ChunkOf(Valid(file), l.row)].read, file[l.row].place, book)
                 && (file[l.row].sheet == Intake ==> l.quantity == file[l.row].quantity)
                 && (file[l.row].sheet == Intake && l.quantity < 0 ==>
                       book.onHand + l.quantity >= 0 && book.onHand + l.quantity >= book.reserved)
                 && (file[l.row].sheet == Fresh ==> book.onHand + l.quantity == file[l.row].quantity >= book.reserved)
  {
    hide Written, RowsOf, LinesOf, Flatten, ChunkOf, Run, Judge, FiledAt, HasRow, Valid;
    var s := Run(file, steps);
    RunIsInv(file, steps);
    RunJudged(file, steps);
    var c := LineOfBatch(s.order, s.batches, i);
    var k :| 0 <= k < |s.batches[c].lines| && s.batches[c].lines[k] == s.ledger[i];
    WrittenIs(file, s.attempts[c], |file|);
    assert IsLineOf(file, s.attempts[c], s.batches[c].lines[k]);
    RowAtHome(file, s, c, k);
    JudgedLine(file[s.ledger[i].row], s.attempts[c].read);
    assert Reads(s.attempts[c].read, file[s.ledger[i].row].place, BookAt(s.attempts[c].read, file[s.ledger[i].row].place));
  }

  lemma {:induction false} RowAtHome(file: seq<Row>, s: State, c: nat, k: nat)
    requires BatchesOk(file, s) && c in s.batches && k < |s.batches[c].lines|
    ensures var r := s.batches[c].lines[k].row; r < |file| && file[r].valid && ChunkOf(Valid(file), r) == c
  {
    assert LinesOf(file, c, s.batches[c].lines);
    assert RowIn(file, c, s.batches[c].lines[k].row);
  }

  lemma {:induction false} JudgedLine(row: Row, read: Reading)
    ensures var j, book := Judge(row, read), BookAt(read, row.place);
            j.Posts? ==>
              && (row.sheet == Intake ==> j.quantity == row.quantity)
              && (row.sheet == Intake && j.quantity < 0 ==> book.onHand + j.quantity >= 0 && book.onHand + j.quantity >= book.reserved)
              && (row.sheet == Fresh ==> book.onHand + j.quantity == row.quantity >= book.reserved)
  {
  }

  /** The chunk whose batch brought a line of the ledger. */
  lemma {:induction false} LineOfBatch(order: seq<nat>, batches: map<nat, Batch>, i: nat) returns (c: nat)
    requires i < |Flatten(order, batches)|
    ensures c in order && c in batches && Flatten(order, batches)[i] in batches[c].lines
  {
    var n := |order| - 1;
    var front := Flatten(order[..n], batches);
    if i < |front| {
      c := LineOfBatch(order[..n], batches, i);
    } else {
      c := order[n];
      assert Flatten(order, batches)[i] == batches[c].lines[i - |front|];
    }
  }

  /** A later attempt at a used key, master data written: the row is reported and nothing is posted. */
  lemma {:induction false} ReportedAnyway(file: seq<Row>, s: State, p: nat, read: Reading, r: nat)
    requires Inv(file, s) && p in s.procs && s.procs[p].Holding? && r in s.procs[p].rows && s.procs[p].chunk in s.batches
    requires r < |file| && file[r].sheet == Intake && r in read.landed && r < |s.status| && s.status[r] == Pending
    ensures var t := Next(file, Next(file, s, Post(p, read)), Advance(p));
            |t.status| == |s.status| && t.status[r] == Processed && t.ledger == s.ledger
  {
    hide Written, Taken, BadRows, RowsOf, Staged, BatchesOk, HandsOk;
    var Holding(c, rows) := s.procs[p];
    WrittenPostable(file, Attempt(rows, read));
    assert r in OkRows(file, rows, read, true);
    HeldRows(file, s, p);
    OkAndBadHeld(file, rows, read, true);
    hide Postable, OkRows;
    var u := Next(file, s, Post(p, read));
    assert u.procs[p].Marking? && r in u.procs[p].ok && r in u.procs[p].rows;
  }

  /** What an attempt reports of a row, from the sheet and the figures read. */
  ghost predicate ReportedOk(row: Row, landed: bool, read: Reading, posted: bool) {
    if row.sheet == Intake then landed
    else exists book :: Reads(read, row.place, book) && (AsksNothing(row, book) || (MovesStock(row, book) && posted))
  }

  lemma {:induction false} ReportedIs(file: seq<Row>, rows: set<nat>, read: Reading, posted: bool, r: nat)
    requires r in rows && r < |file|
    ensures r in OkRows(file, rows, read, posted) <==> ReportedOk(file[r], r in read.landed, read, posted)
    ensures !ReportedOk(file[r], r in read.landed, read, posted) ==> r in BadRows(file, rows, read, posted)
  {
    var book := BookAt(read, file[r].place);
    BookIsRead(read, file[r].place);
    JudgedExactlyWhen(file[r], read, book);
    forall b | Reads(read, file[r].place, b) ensures b == book {}
    hide Judge, Reads, MovesStock, AsksNothing;
  }

  /**
   * An attempt that nothing interrupts reports every row it holds: a master sheet's as a success exactly
   * when its master data was written, a fresh inventory's exactly when it asks for what is there already,
   * or moves stock and the ledger took the chunk's lines or had them before.
   */
  lemma {:induction false} AttemptReportsExactlyWhen(file: seq<Row>, s: State, p: nat, read: Reading, r: nat)
    requires Inv(file, s) && p in s.procs && s.procs[p].Holding? && r in s.procs[p].rows
    requires r < |s.status| && s.status[r] == Pending
    ensures var posted := s.procs[p].chunk in s.batches || Taken(file, s.procs[p].rows, read);
            var t := Next(file, Next(file, Next(file, s, Post(p, read)), Fold(p)), Advance(p));
            && r < |file| && |t.status| == |s.status|
            && t.status[r] == if ReportedOk(file[r], r in read.landed, read, posted) then Processed else Failed
  {
    hide Written, Taken, RowsOf, Staged, BatchesOk, HandsOk, ReportedOk;
    var Holding(c, rows) := s.procs[p];
    var posted := c in s.batches || Taken(file, rows, read);
    HeldRows(file, s, p);
    assert r < |file| by { HeldIsRow(file, c, rows, r); }
    WrittenPostable(file, Attempt(rows, read));
    NothingPostable(file, rows);
    ReportedIs(file, rows, read, posted, r);
    OkAndBadHeld(file, rows, read, posted);
    hide Postable, OkRows, BadRows;
    var t1 := Next(file, s, Post(p, read));
    var t2 := Next(file, t1, Fold(p));
    assert t2.procs[p] == Marking(c, rows, OkRows(file, rows, read, posted), BadRows(file, rows, read, posted));
  }

  lemma {:induction false} HeldIsRow(file: seq<Row>, c: nat, rows: set<nat>, r: nat)
    requires RowsOf(file, c, rows) && r in rows
    ensures r < |file|
  {
  }

  lemma {:induction false} NothingPostable(file: seq<Row>, rows: set<nat>)
    ensures Postable(file, rows, [])
  {
  }

  lemma {:induction false} OkAndBadHeld(file: seq<Row>, rows: set<nat>, read: Reading, posted: bool)
    ensures OkRows(file, rows, read, posted) <= rows && BadRows(file, rows, read, posted) <= rows
  {
    hide Judge;
  }

  /** A catalogue that files every place of the file, balances that refuse row 0, and then some that do not. */
  function Refusing(cat: Catalogue): Reading {
    Reading(map[], {0, 1}, cat)
  }

  function Accepting2(file: seq<Row>, cat: Catalogue): Reading
    requires |file| == 2
  {
    Reading(map[file[0].place := Book(-file[0].quantity, 0)], {0, 1}, cat)
  }

  /** The first attempt refuses row 0 and stops after posting; the one that takes over accepts both rows. */
  function RefusedThenAccepted(file: seq<Row>, cat: Catalogue): seq<Step>
    requires |file| == 2
  {
    [Confirm, Claim(0), Take(0), Post(0, Refusing(cat)), Crash(0), Tick((STALE + 1) as nat),
     Claim(1), Take(1), Post(1, Accepting2(file, cat)), Advance(1)]
  }

  lemma {:induction false} BothInChunkZero(valid: seq<bool>)
    requires valid == [true, true]
    ensures ChunkOf(valid, 0) == 0 && ChunkOf(valid, 1) == 0
  {
    assert Rank(valid, 0) == 0 && Rank(valid, 1) == 1;
  }

  lemma {:induction false} BothTakenUp(valid: seq<bool>, status: seq<Status>)
    requires valid == [true, true] && status == [Pending, Pending]
    ensures var rows := TakeUp(valid, status, CHUNK_SIZE);
            rows != [] && ChunkOf(valid, 0) == 0 && ChunkOf(valid, 1) == 0 && forall i :: i in rows <==> i == 0 || i == 1
  {
    BothInChunkZero(valid);
    PendingRowsAre(status);
    assert Staged(valid, status);
    hide Rank, ChunkOf, TakeUp, PendingRows;
    WholeChunkTakenUp(valid, status, CHUNK_SIZE);
    assert 0 in PendingRows(status);
    var first := PendingRows(status)[0];
    assert first in PendingRows(status);
  }

  lemma {:induction false} TakesBoth(file: seq<Row>, s: State, p: nat)
    requires |file| == 2 && file[0].valid && file[1].valid && s.status == [Pending, Pending]
    ensures Taking(file, s, p) == s.(procs := s.procs[p := Holding(0, {0, 1})])
  {
    hide ChunkOf, TakeUp;
    var valid := Valid(file);
    assert valid == [true, true];
    BothTakenUp(valid, s.status);
    var rows := TakeUp(valid, s.status, CHUNK_SIZE);
    assert rows[0] in rows && Staged(valid, s.status);
    var all := set r | r in rows;
    assert all == {0, 1};
    assert Holding(ChunkOf(valid, rows[0]), all) == Holding(0, {0, 1});
  }

  /** A master sheet of two valid rows, the first deducting from a place that holds nothing yet, the second coming in. */
  ghost predicate OutAndIn(file: seq<Row>, cat: Catalogue) {
    && |file| == 2 && file[0].valid && file[1].valid && file[0].sheet == Intake && file[1].sheet == Intake
    && file[0].quantity < 0 < file[1].quantity
    && FiledAt(cat, file[0].place).Some? && FiledAt(cat, file[1].place).Some?
  }

  function InLine(file: seq<Row>, cat: Catalogue): Line
    requires |file| == 2
  {
    Line(1, file[1].quantity, FiledAt(cat, file[1].place).GetOr(file[1].place))
  }

  lemma {:induction false} FirstWrites(file: seq<Row>, cat: Catalogue)
    requires OutAndIn(file, cat)
    ensures Written(file, {0, 1}, Refusing(cat), 2) == [InLine(file, cat)] && Taken(file, {0, 1}, Refusing(cat))
    ensures Postable(file, {0, 1}, [InLine(file, cat)])
  {
    hide FiledAt;
    var read := Refusing(cat);
    assert Judge(file[0], read) == Refused && Judge(file[1], read).Posts? && Judge(file[1], read).quantity == file[1].quantity;
    assert Written(file, {0, 1}, read, 0) == [] && Written(file, {0, 1}, read, 1) == [];
    assert [] + [InLine(file, cat)] == [InLine(file, cat)];
  }

  lemma {:induction false} FirstAttempt(file: seq<Row>, cat: Catalogue)
    requires OutAndIn(file, cat)
    ensures var s := Next(file, Next(file, Next(file, Next(file, Next(file, Start(file), Confirm), Claim(0)), Take(0)),
                                     Post(0, Refusing(cat))), Crash(0));
            && s.job == Processing && s.lockedAt == Some(0) && s.now == 0 && s.procs == map[] && s.ledger == [InLine(file, cat)]
            && s.status == [Pending, Pending] && 0 in s.batches
  {
    hide Dropping, Taking, Written, Taken, OkRows, BadRows, Postable, FiledAt;
    var s := Next(file, Next(file, Start(file), Confirm), Claim(0));
    assert s.status == [Pending, Pending] && s.procs == map[0 := Idle];
    TakesBoth(file, s, 0);
    var t := Next(file, s, Take(0));
    assert t.procs[0] == Holding(0, {0, 1});
    FirstWrites(file, cat);
    OkAndBadHeld(file, {0, 1}, Refusing(cat), true);
    var u := Next(file, t, Post(0, Refusing(cat)));
    DroppingIs(u, 0);
  }

  lemma {:induction false} SecondReads(file: seq<Row>, cat: Catalogue)
    requires OutAndIn(file, cat)
    ensures var read := Accepting2(file, cat);
            && Judge(file[0], read).Posts? && OkRows(file, {0, 1}, read, true) == {0, 1}
            && Postable(file, {0, 1}, Written(file, {0, 1}, read, 2)) && BadRows(file, {0, 1}, read, true) <= {0, 1}
  {
    hide Written, FiledAt;
    var read := Accepting2(file, cat);
    WrittenPostable(file, Attempt({0, 1}, read));
    OkAndBadHeld(file, {0, 1}, read, true);
  }

  lemma {:induction false} SecondAttempt(file: seq<Row>, cat: Catalogue, s: State)
    requires OutAndIn(file, cat)
    requires s.job == Processing && s.lockedAt == Some(0) && s.now == 0 && s.procs == map[]
    requires s.status == [Pending, Pending] && 0 in s.batches
    ensures var read := Accepting2(file, cat);
            var t := Next(file, Next(file, Next(file, Next(file, Next(file, s, Tick((STALE + 1) as nat)), Claim(1)), Take(1)),
                                     Post(1, read)), Advance(1));
            t.ledger == s.ledger && t.status == [Processed, Processed] && Judge(file[0], read).Posts?
  {
    hide Taking, Written, Taken, OkRows, BadRows, Postable, Judge, FiledAt;
    var t := Next(file, Next(file, s, Tick((STALE + 1) as nat)), Claim(1));
    assert t.procs == map[1 := Idle];
    TakesBoth(file, t, 1);
    var read := Accepting2(file, cat);
    SecondReads(file, cat);
    var u := Next(file, Next(file, t, Take(1)), Post(1, read));
    assert u.procs[1] == Marking(0, {0, 1}, {0, 1}, BadRows(file, {0, 1}, read, true));
  }

  /**
   * And it happens, even to a row the later attempt lets through: refused once, the attempt stopped after
   * posting, taken over, let through, reported as processed, and never posted.
   */
  lemma {:induction false} ProcessedButNotPosted(file: seq<Row>, cat: Catalogue)
    requires OutAndIn(file, cat)
    ensures var s := Run(file, RefusedThenAccepted(file, cat));
            && s.status == [Processed, Processed] && s.ledger == [InLine(file, cat)] && !HasRow(s.ledger, 0)
            && Judge(file[0], Accepting2(file, cat)).Posts?
  {
    hide Next, Start, Judge, FiledAt;
    var x := RefusedThenAccepted(file, cat);
    FirstAttempt(file, cat);
    var s := After(file, Start(file), x[..5]);
    AfterFive(file, Start(file), x[..5]);
    SecondAttempt(file, cat, s);
    AfterFive(file, s, x[5..]);
    AfterSplits(file, Start(file), x[..5], x[5..]);
    assert x[..5] + x[5..] == x;
  }

  lemma {:induction false} AfterSplits(file: seq<Row>, s: State, front: seq<Step>, rest: seq<Step>)
    ensures After(file, s, front + rest) == After(file, After(file, s, front), rest)
    decreases |rest|
  {
    hide Next;
    if rest == [] {
      assert front + rest == front;
    } else {
      var n := |rest| - 1;
      AfterSplits(file, s, front, rest[..n]);
      assert (front + rest)[..|front + rest| - 1] == front + rest[..n];
    }
  }

  lemma {:induction false} AfterFive(file: seq<Row>, s: State, x: seq<Step>)
    requires |x| == 5
    ensures After(file, s, x) == Next(file, Next(file, Next(file, Next(file, Next(file, s, x[0]), x[1]), x[2]), x[3]), x[4])
  {
    hide Next;
    assert x[..4][..3] == x[..3] && x[..3][..2] == x[..2] && x[..2][..1] == x[..1] && x[..1][..0] == [];
    assert After(file, s, x[..1]) == Next(file, s, x[0]);
    assert After(file, s, x[..2]) == Next(file, After(file, s, x[..1]), x[1]);
    assert After(file, s, x[..3]) == Next(file, After(file, s, x[..2]), x[2]);
    assert After(file, s, x[..4]) == Next(file, After(file, s, x[..3]), x[3]);
  }

  // ---------------------------------------------------------------------------------------
  // Balances
  // ---------------------------------------------------------------------------------------

  function Share(file: seq<Row>, l: Line, place: Grain): int {
    if l.place == place then l.quantity else 0
  }

  /** What lines add to one balance. */
  function Net(file: seq<Row>, lines: seq<Line>, place: Grain): int {
    if lines == [] then 0
    else Net(file, lines[..|lines| - 1], place) + Share(file, lines[|lines| - 1], place)
  }

  lemma {:induction false} NetSplits(file: seq<Row>, s: seq<Line>, t: seq<Line>, place: Grain)
    ensures Net(file, s + t, place) == Net(file, s, place) + Net(file, t, place)
    decreases |t|
  {
    if t == [] {
      assert s + t == s;
    } else {
      assert (s + t)[..|s + t| - 1] == s + t[..|t| - 1];
      NetSplits(file, s, t[..|t| - 1], place);
    }
  }

  /** What the chunks not folded in would have added. */
  function Unfolded(file: seq<Row>, order: seq<nat>, batches: map<nat, Batch>, place: Grain): int {
    if order == [] then 0
    else
      var c := order[|order| - 1];
      Unfolded(file, order[..|order| - 1], batches, place) +
      if c in batches && batches[c].fate != Folded then Net(file, batches[c].lines, place) else 0
  }

  ghost predicate Balanced(file: seq<Row>, s: State, place: Grain) {
    Net(file, s.folded, place) + Unfolded(file, s.order, s.batches, place) == Net(file, s.ledger, place)
  }

  predicate SameFold(b: map<nat, Batch>, d: map<nat, Batch>, c: nat) {
    (c in b <==> c in d) && (c in b ==> b[c].lines == d[c].lines && (b[c].fate == Folded <==> d[c].fate == Folded))
  }

  lemma {:induction false} UnfoldedSame(file: seq<Row>, order: seq<nat>, b: map<nat, Batch>, d: map<nat, Batch>, place: Grain)
    requires forall c :: c in order ==> SameFold(b, d, c)
    ensures Unfolded(file, order, b, place) == Unfolded(file, order, d, place)
  {
    hide Net;
    if order != [] {
      assert SameFold(b, d, order[|order| - 1]);
      UnfoldedSame(file, order[..|order| - 1], b, d, place);
    }
  }

  lemma {:induction false} UnfoldedLess(file: seq<Row>, order: seq<nat>, b: map<nat, Batch>, c: nat, place: Grain)
    requires Distinct(order) && c in order && c in b && b[c].fate != Folded
    ensures Unfolded(file, order, b[c := b[c].(fate := Folded)], place) ==
            Unfolded(file, order, b, place) - Net(file, b[c].lines, place)
  {
    hide Net;
    var n := |order| - 1;
    var d := b[c := b[c].(fate := Folded)];
    if order[n] == c {
      assert c !in order[..n];
      forall x | x in order[..n] ensures SameFold(b, d, x) {}
      UnfoldedSame(file, order[..n], b, d, place);
    } else {
      UnfoldedLess(file, order[..n], b, c, place);
    }
  }

  lemma {:induction false} PostBalances(file: seq<Row>, s: State, p: nat, lines: seq<Line>, ok: set<nat>, bad: set<nat>, place: Grain)
    requires Inv(file, s) && Balanced(file, s, place) && p in s.procs && s.procs[p].Holding?
    ensures Balanced(file, Entered(file, s, p, lines, ok, bad), place)
  {
    hide Net, Postable, ProcsOk, HandsOk, Staged, LinesOf, Flatten, Unfolded;
    var c := s.procs[p].chunk;
    var t := Entered(file, s, p, lines, ok, bad);
    if t.ledger != s.ledger {
      NetSplits(file, s.ledger, lines, place);
      assert c !in s.order;
      UnfoldedSnoc(file, s.order, t.batches, c, place);
      forall x | x in s.order ensures SameFold(s.batches, t.batches, x) {}
      UnfoldedSame(file, s.order, s.batches, t.batches, place);
    }
  }

  lemma {:induction false} UnfoldedSnoc(file: seq<Row>, order: seq<nat>, batches: map<nat, Batch>, c: nat, place: Grain)
    ensures Unfolded(file, order + [c], batches, place) == Unfolded(file, order, batches, place)
            + if c in batches && batches[c].fate != Folded then Net(file, batches[c].lines, place) else 0
  {
    hide Net;
    assert (order + [c])[..|order|] == order;
  }

  lemma {:induction false} DroppingBalances(file: seq<Row>, s: State, p: nat, place: Grain)
    requires Inv(file, s)
    ensures Unfolded(file, s.order, Dropping(s, p), place) == Unfolded(file, s.order, s.batches, place)
  {
    hide Dropping, BatchesOk, Staged;
    DroppingIs(s, p);
    forall x | x in s.order ensures SameFold(s.batches, Dropping(s, p), x) {}
    UnfoldedSame(file, s.order, s.batches, Dropping(s, p), place);
  }

  lemma {:induction false} StepBalances(file: seq<Row>, s: State, step: Step, place: Grain)
    requires Inv(file, s) && Balanced(file, s, place)
    ensures Balanced(file, Next(file, s, step), place)
  {
    hide Net, Unfolded, Entered, Taking, Dropping, Staged, LinesOf, Flatten, Written, Taken, OkRows, BadRows;
    match step
    case Post(p, read) =>
      if p in s.procs && s.procs[p].Holding? {
        var Holding(c, rows) := s.procs[p];
        var posted := c in s.batches || Taken(file, rows, read);
        PostBalances(file, s, p, if posted then Written(file, rows, read, |file|) else [],
                     OkRows(file, rows, read, posted), BadRows(file, rows, read, posted), place);
      }
    case Fold(p) =>
      if p in s.procs && s.procs[p].Folding? {
        var c := s.procs[p].chunk;
        NetSplits(file, s.folded, s.batches[c].lines, place);
        UnfoldedLess(file, s.order, s.batches, c, place);
      }
    case Take(p) => TakingKeepsBooks(file, s, p);
    case Retry(p) => DroppingBalances(file, s, p, place);
    case Fail(p) => DroppingBalances(file, s, p, place);
    case Crash(p) => DroppingBalances(file, s, p, place);
    case _ =>
  }

  lemma {:induction false} TakingKeepsBooks(file: seq<Row>, s: State, p: nat)
    ensures var t := Taking(file, s, p);
            t.folded == s.folded && t.order == s.order && t.batches == s.batches && t.ledger == s.ledger && t.status == s.status
            && t.attempts == s.attempts
  {
  }

  /** No processor will fold what was dropped. */
  ghost predicate NothingDropped(s: State) {
    forall c :: c in s.batches ==> s.batches[c].fate != Dropped
  }

  lemma {:induction false} RunBalances(file: seq<Row>, steps: seq<Step>, place: Grain)
    ensures Balanced(file, Run(file, steps), place)
  {
    if steps != [] {
      hide Balanced, Next, Inv;
      StartIsOk(file);
      RunKeeps(file, Start(file), steps[..|steps| - 1]);
      RunBalances(file, steps[..|steps| - 1], place);
      StepBalances(file, Run(file, steps[..|steps| - 1]), steps[|steps| - 1], place);
    }
  }

  lemma {:induction false} UnfoldedZero(file: seq<Row>, order: seq<nat>, batches: map<nat, Batch>, place: Grain)
    requires forall c :: c in batches ==> batches[c].fate == Folded
    ensures Unfolded(file, order, batches, place) == 0
  {
    if order != [] {
      UnfoldedZero(file, order[..|order| - 1], batches, place);
    }
  }

  /**
   * In every state of every run each balance has moved by the ledger's lines less those not folded
   * in; with nobody at work, by exactly the ledger's lines unless a poster was lost, or retried,
   * between posting a chunk and folding it in.
   */
  lemma {:induction false} BalanceFollowsLedger(file: seq<Row>, steps: seq<Step>, place: Grain)
    ensures var s := Run(file, steps);
            && Net(file, s.folded, place) == Net(file, s.ledger, place) - Unfolded(file, s.order, s.batches, place)
            && (s.procs == map[] && NothingDropped(s) ==> Net(file, s.folded, place) == Net(file, s.ledger, place))
  {
    hide Net, Unfolded, BatchesOk, Staged;
    RunBalances(file, steps, place);
    StartIsOk(file);
    RunKeeps(file, Start(file), steps);
    var s := Run(file, steps);
    if s.procs == map[] && NothingDropped(s) {
      assert forall c :: c in s.batches ==> s.batches[c].fate == Folded;
      UnfoldedZero(file, s.order, s.batches, place);
    }
  }

  // ---------------------------------------------------------------------------------------
  // A run that drains
  // ---------------------------------------------------------------------------------------

  predicate Wanted(file: seq<Row>, r: nat) {
    r < |file| && file[r].valid && file[r].quantity != 0
  }

  /** An attempt that refuses no row: a line for every row that moves stock, for its quantity. */
  ghost predicate Accepting(file: seq<Row>, rows: set<nat>, lines: seq<Line>) {
    && (forall r: nat :: r in rows && Wanted(file, r) ==> HasRow(lines, r))
    && (forall i :: 0 <= i < |lines| ==> AsAsked(file, lines[i]))
  }

  /** The line is for the row's own quantity at the row's own place. */
  predicate AsAsked(file: seq<Row>, l: Line) {
    l.row < |file| && l.quantity == file[l.row].quantity && l.place == file[l.row].place
  }

  /** The attempt posts, or replays, every row it holds that moves stock. */
  ghost predicate Accepts(file: seq<Row>, s: State, step: Step) {
    step.Post? && step.p in s.procs && s.procs[step.p].Holding? ==>
      var rows := s.procs[step.p].rows;
      Taken(file, rows, step.read) && Accepting(file, rows, Written(file, rows, step.read, |file|))
  }

  ghost predicate AllAccepted(file: seq<Row>, steps: seq<Step>) {
    steps == [] ||
    (AllAccepted(file, steps[..|steps| - 1]) && Accepts(file, Run(file, steps[..|steps| - 1]), steps[|steps| - 1]))
  }

  /** A master sheet that only brings stock in. */
  predicate BringsIn(file: seq<Row>) {
    forall r :: 0 <= r < |file| && file[r].valid ==> file[r].sheet == Intake && file[r].quantity >= 0
  }

  /** Whenever the run posts, the catalogue files every row of the file where the row says. */
  ghost predicate FiledThroughout(file: seq<Row>, steps: seq<Step>) {
    forall k, r :: 0 <= k < |steps| && steps[k].Post? && 0 <= r < |file| && file[r].valid ==>
      FiledAt(steps[k].read.cat, file[r].place) == Some(file[r].place)
  }

  lemma {:induction false} BroughtInIsAccepted(file: seq<Row>, rows: set<nat>, read: Reading)
    requires BringsIn(file) && forall r :: r in rows ==> r < |file| && file[r].valid
    requires forall r :: 0 <= r < |file| && file[r].valid ==> FiledAt(read.cat, file[r].place) == Some(file[r].place)
    ensures Taken(file, rows, read) && Accepting(file, rows, Written(file, rows, read, |file|))
  {
    hide FiledAt, Written, HasRow;
    var a := Attempt(rows, read);
    WrittenIs(file, a, |file|);
    forall r: nat | r in rows && Wanted(file, r) ensures LetThrough(file, a, r) {}
  }

  lemma {:induction false} BroughtInRunAccepts(file: seq<Row>, steps: seq<Step>)
    requires BringsIn(file) && FiledThroughout(file, steps)
    ensures AllAccepted(file, steps)
  {
    if steps != [] {
      hide Run, FiledAt, Written, Taken, Accepting;
      var n := |steps| - 1;
      assert FiledThroughout(file, steps[..n]);
      BroughtInRunAccepts(file, steps[..n]);
      RunIsInv(file, steps[..n]);
      var s, step := Run(file, steps[..n]), steps[n];
      if step.Post? && step.p in s.procs && s.procs[step.p].Holding? {
        HeldRows(file, s, step.p);
        hide Inv;
        BroughtInIsAccepted(file, s.procs[step.p].rows, step.read);
      }
    }
  }

  ghost predicate WholeBatch(file: seq<Row>, c: nat, lines: seq<Line>) {
    && (forall r: nat :: Wanted(file, r) && ChunkOf(Valid(file), r) == c ==> HasRow(lines, r))
    && (forall i :: 0 <= i < |lines| ==> AsAsked(file, lines[i]))
  }

  ghost predicate WholeBatches(file: seq<Row>, s: State) {
    forall c :: c in s.batches ==> WholeBatch(file, c, s.batches[c].lines)
  }

  /** A row no longer pending belongs to a posted chunk, if it moves stock at all. */
  ghost predicate SettledPosted(file: seq<Row>, s: State) {
    forall r: nat :: Wanted(file, r) && r < |s.status| && s.status[r] != Pending ==> ChunkOf(Valid(file), r) in s.batches
  }

  ghost predicate HoldsAll(file: seq<Row>, s: State, x: Processor) {
    !x.Idle? ==>
      && (forall r: nat :: Wanted(file, r) && ChunkOf(Valid(file), r) == x.chunk && r !in x.rows ==> x.chunk in s.batches)
      && (x.Marking? || x.Folding? ==> x.ok <= x.rows && x.bad <= x.rows)
      && (x.Marking? ==> forall r: nat :: r in x.rows && Wanted(file, r) ==> x.chunk in s.batches)
  }

  ghost predicate Complete(file: seq<Row>, s: State) {
    WholeBatches(file, s) && SettledPosted(file, s) && forall p :: p in s.procs ==> HoldsAll(file, s, s.procs[p])
  }

  lemma {:induction false} SameBatches(file: seq<Row>, s: State, t: State)
    requires Complete(file, s) && s.batches.Keys <= t.batches.Keys
    ensures SettledPosted(file, t.(status := s.status))
    ensures forall p :: p in s.procs ==> HoldsAll(file, t, s.procs[p])
  {
    hide Wanted, ChunkOf, WholeBatches;
  }

  lemma {:induction false} PostCompletes(file: seq<Row>, s: State, p: nat, lines: seq<Line>, ok: set<nat>, bad: set<nat>)
    requires Inv(file, s) && Complete(file, s) && p in s.procs && s.procs[p].Holding?
    requires Accepting(file, s.procs[p].rows, lines)
    ensures Complete(file, Entered(file, s, p, lines, ok, bad))
  {
    var Holding(c, rows) := s.procs[p];
    var t := Entered(file, s, p, lines, ok, bad);
    hide Postable, BatchesOk, HandsOk, Staged, Wanted, ChunkOf;
    SameBatches(file, s, t);
    assert HoldsAll(file, s, s.procs[p]);
    if t != s && lines != [] && c !in s.batches {
      assert WholeBatch(file, c, lines);
    }
  }

  lemma {:induction false} MarkCompletes(file: seq<Row>, s: State, p: nat, some: set<nat>, ok: set<nat>, bad: set<nat>)
    requires Inv(file, s) && Complete(file, s) && p in s.procs && s.procs[p].Marking?
    requires ok <= s.procs[p].rows && bad <= s.procs[p].rows
    ensures SettledPosted(file, s.(status := Marked(s.status, some, ok, bad)))
  {
    hide BatchesOk, HandsOk, Staged, Wanted, ChunkOf, WholeBatches;
    assert HoldsAll(file, s, s.procs[p]);
    HeldRows(file, s, p);
    assert forall r :: r in s.procs[p].rows ==> ChunkOf(Valid(file), r) == s.procs[p].chunk;
  }

  lemma {:induction false} TakeCompletes(file: seq<Row>, s: State, p: nat)
    requires Inv(file, s) && Complete(file, s) && p in s.procs && s.procs[p].Idle?
    ensures Complete(file, Taking(file, s, p))
  {
    var valid := Valid(file);
    hide BatchesOk, TakeUp, ChunkOf, ProcsOk, HandsOk, WholeBatch;
    WholeChunkTakenUp(valid, s.status, CHUNK_SIZE);
    var rows := TakeUp(valid, s.status, CHUNK_SIZE);
    var t := Taking(file, s, p);
    TakingKeepsBooks(file, s, p);
    SameBatches(file, s, t);
    if rows != [] && rows[0] < |file| {
      assert rows[0] in rows;
      var x := Holding(ChunkOf(valid, rows[0]), set r | r in rows);
      assert t.procs == s.procs[p := x];
      assert HoldsAll(file, t, x);
    }
  }

  lemma {:induction false} LeaveCompletes(file: seq<Row>, s: State, t: State, p: nat)
    requires Complete(file, s) && t.batches == Dropping(s, p) && t.status == s.status
    requires forall q :: q in t.procs ==>
      (q in s.procs && t.procs[q] == s.procs[q])
      || (p in s.procs && !s.procs[p].Idle? && t.procs[q] == Holding(s.procs[p].chunk, s.procs[p].rows))
    ensures Complete(file, t)
  {
    hide Dropping, WholeBatch, Wanted, ChunkOf;
    DroppingIs(s, p);
    SameBatches(file, s, t);
    assert p in s.procs ==> HoldsAll(file, t, s.procs[p]);
  }

  lemma {:induction false} AttemptCompletes(file: seq<Row>, s: State, p: nat, read: Reading)
    requires Inv(file, s) && Complete(file, s) && p in s.procs && s.procs[p].Holding?
    requires Accepts(file, s, Post(p, read))
    ensures Complete(file, Attempted(file, s, p, read))
  {
    hide Inv, Written, Taken, OkRows, BadRows, Entered, Wanted, ChunkOf, HasRow, WholeBatch, Accepting;
    var rows := s.procs[p].rows;
    PostCompletes(file, s, p, Written(file, rows, read, |file|), OkRows(file, rows, read, true), BadRows(file, rows, read, true));
  }

  lemma {:induction false} StepCompletes(file: seq<Row>, s: State, step: Step)
    requires Inv(file, s) && Complete(file, s) && Accepts(file, s, step)
    ensures Complete(file, Next(file, s, step))
  {
    hide Inv, WholeBatches, SettledPosted, Attempted, Taking, Accepting, Written, Taken, Marked, Dropping;
    var t := Next(file, s, step);
    match step
    case Post(p, read) =>
      if p in s.procs && s.procs[p].Holding? { AttemptCompletes(file, s, p, read); }
    case Take(p) => if p in s.procs && s.procs[p].Idle? { TakeCompletes(file, s, p); }
    case Fold(p) => FoldCompletes(file, s, p);
    case Retry(p) => if p in s.procs && !s.procs[p].Idle? { LeaveCompletes(file, s, t, p); }
    case Fail(p) => if p in s.procs { LeaveCompletes(file, s, t, p); }
    case Crash(p) => LeaveCompletes(file, s, t, p);
    case _ => OtherCompletes(file, s, step);
  }

  lemma {:induction false} FoldCompletes(file: seq<Row>, s: State, p: nat)
    requires Inv(file, s) && Complete(file, s)
    ensures Complete(file, Next(file, s, Fold(p)))
  {
    hide BatchesOk, HandsOk, Staged, WholeBatch, Wanted, ChunkOf;
    var t := Next(file, s, Fold(p));
    if t != s {
      SameBatches(file, s, t);
      assert t.batches.Keys == s.batches.Keys;
      assert HoldsAll(file, t, s.procs[p]);
    }
  }

  lemma {:induction false} OtherCompletes(file: seq<Row>, s: State, step: Step)
    requires Inv(file, s) && Complete(file, s)
    requires step.Tick? || step.Confirm? || step.Cancel? || step.Claim? || step.Mark? || step.Advance? || step.Finish?
    ensures Complete(file, Next(file, s, step))
  {
    hide Inv, Marked, Wanted, ChunkOf, WholeBatch;
    var t := Next(file, s, step);
    if step.Mark? && step.p in s.procs && s.procs[step.p].Marking? {
      var x := s.procs[step.p];
      assert HoldsAll(file, s, x);
      MarkCompletes(file, s, step.p, step.some, x.ok, x.bad);
    }
    if step.Advance? && step.p in s.procs && s.procs[step.p].Marking? {
      var x := s.procs[step.p];
      assert HoldsAll(file, s, x);
      MarkCompletes(file, s, step.p, x.rows, {}, x.rows);
      MarkCompletes(file, s, step.p, x.rows, x.ok, x.bad);
    }
    SameBatches(file, s, t);
  }

  lemma {:induction false} RunCompletes(file: seq<Row>, steps: seq<Step>)
    requires AllAccepted(file, steps)
    ensures Complete(file, Run(file, steps))
  {
    if steps != [] {
      hide Complete, Next, Inv, Accepts;
      StartIsOk(file);
      RunKeeps(file, Start(file), steps[..|steps| - 1]);
      RunCompletes(file, steps[..|steps| - 1]);
      StepCompletes(file, Run(file, steps[..|steps| - 1]), steps[|steps| - 1]);
    }
  }

  /** What each row of the file adds to one balance. */
  function Weights(file: seq<Row>, place: Grain): (w: seq<int>)
    ensures |w| == |file|
  {
    seq(|file|, i requires 0 <= i < |file| => if file[i].valid && file[i].place == place then file[i].quantity else 0)
  }

  function RowsIn(lines: seq<Line>): (r: seq<nat>)
    ensures |r| == |lines|
  {
    seq(|lines|, i requires 0 <= i < |lines| => lines[i].row)
  }

  lemma {:induction false} NetIsPicked(file: seq<Row>, lines: seq<Line>, place: Grain)
    requires forall i :: 0 <= i < |lines| ==> AsAsked(file, lines[i]) && file[lines[i].row].valid
    ensures (forall i :: 0 <= i < |RowsIn(lines)| ==> RowsIn(lines)[i] < |Weights(file, place)|)
            && Net(file, lines, place) == Sum(Pick(Weights(file, place), RowsIn(lines)))
  {
    if lines != [] {
      var n := |lines| - 1;
      NetIsPicked(file, lines[..n], place);
      var w, at := Weights(file, place), RowsIn(lines);
      assert Pick(w, at)[..n] == Pick(w, RowsIn(lines[..n]));
    }
  }

  lemma {:induction false} FlattenHolds(order: seq<nat>, batches: map<nat, Batch>, c: nat, r: nat)
    requires c in order && c in batches && HasRow(batches[c].lines, r)
    ensures HasRow(Flatten(order, batches), r)
  {
    var n := |order| - 1;
    var front := Flatten(order[..n], batches);
    var all := Flatten(order, batches);
    if order[n] == c {
      var i :| 0 <= i < |batches[c].lines| && batches[c].lines[i].row == r;
      assert all[|front| + i].row == r;
    } else {
      FlattenHolds(order[..n], batches, c, r);
      var i :| 0 <= i < |front| && front[i].row == r;
      assert all[i].row == r;
    }
  }

  lemma {:induction false} FlattenQuantities(file: seq<Row>, order: seq<nat>, batches: map<nat, Batch>)
    requires forall c :: c in order && c in batches ==> WholeBatch(file, c, batches[c].lines)
    ensures forall i :: 0 <= i < |Flatten(order, batches)| ==>
              AsAsked(file, Flatten(order, batches)[i])
  {
    hide Wanted, ChunkOf, HasRow;
    if order != [] {
      FlattenQuantities(file, order[..|order| - 1], batches);
    }
  }

  lemma {:induction false} DrainedLedger(file: seq<Row>, s: State)
    requires Inv(file, s) && Complete(file, s) && Pending !in s.status
    ensures forall i :: 0 <= i < |s.ledger| ==> AsAsked(file, s.ledger[i])
    ensures forall r: nat :: Wanted(file, r) ==> HasRow(s.ledger, r)
  {
    hide ProcsOk, HandsOk, LinesOf, Flatten, HoldsAll, ChunkOf;
    FlattenQuantities(file, s.order, s.batches);
    forall r: nat | Wanted(file, r) ensures HasRow(s.ledger, r) {
      assert s.status[r] in s.status;
      var c := ChunkOf(Valid(file), r);
      assert WholeBatch(file, c, s.batches[c].lines);
      FlattenHolds(s.order, s.batches, c, r);
    }
  }

  /**
   * Exactly once. A run over a master sheet that only brings stock in, with a catalogue that files its
   * rows, leaves the ledger holding exactly the file's rows once nothing is pending: each balance's lines
   * add up to what the valid rows ask for. With nobody left at work and no poster lost before folding, so
   * much has that balance moved.
   */
  lemma {:induction false} ExactlyOnce(file: seq<Row>, steps: seq<Step>, place: Grain)
    requires BringsIn(file) && FiledThroughout(file, steps) && Pending !in Run(file, steps).status
    ensures var s := Run(file, steps);
            && Net(file, s.ledger, place) == Sum(Weights(file, place))
            && (s.procs == map[] && NothingDropped(s) ==> Net(file, s.folded, place) == Sum(Weights(file, place)))
  {
    hide Net, Sum, Inv, Complete, Run, Pick, FiledThroughout, AllAccepted;
    var s := Run(file, steps);
    BroughtInRunAccepts(file, steps);
    RunIsInv(file, steps);
    RunCompletes(file, steps);
    DrainedLedger(file, s);
    EachRowOnce(file, steps);
    NetIsPicked(file, s.ledger, place);
    var w, at := Weights(file, place), RowsIn(s.ledger);
    forall j: nat | Wanted(file, j) ensures j in at {
      var i :| 0 <= i < |s.ledger| && s.ledger[i].row == j;
      assert at[i] == j;
    }
    assert forall j: nat :: j < |w| && w[j] != 0 ==> Wanted(file, j);
    SumOfPicked(w, at);
    BalanceFollowsLedger(file, steps, place);
  }

  /** Under the same conditions a row reported one way or the other, at any time, is in the ledger if it moves stock. */
  lemma {:induction false} ReportedIsPosted(file: seq<Row>, steps: seq<Step>, r: nat)
    requires BringsIn(file) && FiledThroughout(file, steps) && Wanted(file, r)
    requires var s := Run(file, steps); r < |s.status| && s.status[r] != Pending
    ensures HasRow(Run(file, steps).ledger, r)
  {
    hide Inv, Run, FiledThroughout, AllAccepted, ChunkOf, HasRow, Flatten;
    var s, c := Run(file, steps), ChunkOf(Valid(file), r);
    BroughtInRunAccepts(file, steps);
    RunIsInv(file, steps);
    RunCompletes(file, steps);
    assert WholeBatch(file, c, s.batches[c].lines);
    assert c in s.order && s.ledger == Flatten(s.order, s.batches) by { LedgerOfInv(file, s); }
    FlattenHolds(s.order, s.batches, c, r);
  }

  lemma {:induction false} LedgerOfInv(file: seq<Row>, s: State)
    requires Inv(file, s)
    ensures s.ledger == Flatten(s.order, s.batches) && forall c :: c in s.batches ==> c in s.order
  {
    hide LinesOf;
  }

  lemma {:induction false} RunIsInv(file: seq<Row>, steps: seq<Step>)
    ensures Inv(file, Run(file, steps))
  {
    StartIsOk(file);
    RunKeeps(file, Start(file), steps);
  }

  // ---------------------------------------------------------------------------------------
  // The processing claim
  // ---------------------------------------------------------------------------------------

  ghost predicate ClaimsApart(s: State) {
    && (forall i, j :: 0 <= i < j < |s.claims| ==> s.claims[i] + STALE < s.claims[j])
    && (s.claims != [] ==> s.claims[|s.claims| - 1] <= s.now)
    && (s.job == Processing && s.claims != [] ==> s.lockedAt == Some(s.claims[|s.claims| - 1]))
    && (s.job == Validated || s.job == Cancelled ==> s.claims == [] && s.procs == map[] && s.ledger == [] && s.folded == [])
    && (s.job == Processing && s.claims == [] ==> s.lockedAt == None)
    && (s.job == Validated ==> s.lockedAt == None)
  }

  lemma {:induction false} StepClaims(file: seq<Row>, s: State, step: Step)
    requires ClaimsApart(s)
    ensures ClaimsApart(Next(file, s, step))
  {
    hide Attempted, Taking, Marked, Dropping;
    if step.Post? && step.p in s.procs && s.procs[step.p].Holding? { AttemptKeepsJob(file, s, step.p, step.read); }
    if step.Take? && step.p in s.procs { TakingKeepsJob(file, s, step.p); }
  }

  lemma {:induction false} AttemptKeepsJob(file: seq<Row>, s: State, p: nat, read: Reading)
    requires p in s.procs && s.procs[p].Holding?
    ensures var t := Attempted(file, s, p, read);
            && t.now == s.now && t.job == s.job && t.lockedAt == s.lockedAt && t.claims == s.claims && p in t.procs
  {
    hide Written, Taken, OkRows, BadRows, Postable;
  }

  lemma {:induction false} TakingKeepsJob(file: seq<Row>, s: State, p: nat)
    requires p in s.procs
    ensures var t := Taking(file, s, p);
            && t.now == s.now && t.job == s.job && t.lockedAt == s.lockedAt && t.claims == s.claims && p in t.procs
  {
    hide TakeUp, ChunkOf;
  }

  /**
   * Two claims on one job are always more than the stale window apart, so a second processor only
   * ever joins one that has been at it for longer; and an import that was never confirmed, or was
   * cancelled, has moved no stock.
   */
  lemma {:induction false} ClaimsAreApart(file: seq<Row>, steps: seq<Step>)
    ensures ClaimsApart(Run(file, steps))
  {
    if steps != [] {
      hide Next, ClaimsApart;
      ClaimsAreApart(file, steps[..|steps| - 1]);
      StepClaims(file, Run(file, steps[..|steps| - 1]), steps[|steps| - 1]);
    }
  }

  /** A job that has ended stays as it ended once nobody is at work on it. */
  lemma {:induction false} EndedStaysEnded(file: seq<Row>, s: State, steps: seq<Step>)
    requires s.procs == map[] && (s.job == Finished || s.job == Stopped || s.job == Cancelled)
    ensures After(file, s, steps) == s.(now := After(file, s, steps).now)
  {
    if steps != [] {
      hide Taking, Entered, Marked;
      EndedStaysEnded(file, s, steps[..|steps| - 1]);
    }
  }

  /** But a processor that was taken over can still stop a job its successor finished. */
  lemma {:induction false} ZombieStops(file: seq<Row>, s: State, p: nat)
    ensures Next(file, s, Fail(p)).job == Stopped <==> p in s.procs || s.job == Stopped
  {
  }

  // ---------------------------------------------------------------------------------------
  // A processor left alone
  // ---------------------------------------------------------------------------------------

  /** What moves a job on, and when. */
  lemma {:induction false} JobMovesExactlyWhen(file: seq<Row>, s: State, step: Step)
    ensures var t := Next(file, s, step);
            var done := step.Finish? && step.p in s.procs && s.procs[step.p] == Idle && Pending !in s.status;
            && t.job == (if step.Confirm? && s.job == Validated then Processing
                         else if step.Cancel? && s.job == Validated then Cancelled
                         else if done then Finished
                         else if step.Fail? && step.p in s.procs then Stopped
                         else s.job)
            && t.now == s.now + (if step.Tick? then step.ms else 0)
            && (t.claims == s.claims + [s.now] <==>
                  step.Claim? && step.p !in s.procs && s.job == Processing && (s.lockedAt == None || s.now - s.lockedAt.value > 900_000))
            && t.lockedAt == (if t.claims != s.claims then Some(s.now)
                              else if done || (step.Fail? && step.p in s.procs) then None else s.lockedAt)
            && (done || (step.Fail? && step.p in s.procs) || step.Crash? ==> t.procs == map q | q in s.procs && q != step.p :: s.procs[q])
  {
    hide Marked, Dropping, Attempted, Taking;
    if step.Post? && step.p in s.procs && s.procs[step.p].Holding? { AttemptKeepsJob(file, s, step.p, step.read); }
    if step.Take? && step.p in s.procs { TakingKeepsJob(file, s, step.p); }
  }

  /** An import nobody confirms moves no stock and reports no row. */
  lemma {:induction false} UnconfirmedMovesNothing(file: seq<Row>, steps: seq<Step>)
    requires Confirm !in steps
    ensures var s := Run(file, steps);
            && (s.job == Validated || s.job == Cancelled) && s.procs == map[] && s.ledger == [] && s.folded == [] && s.claims == []
            && |s.status| == |file| && forall r :: 0 <= r < |file| ==> s.status[r] == if file[r].valid then Pending else Skipped
  {
    if steps != [] {
      hide Attempted, Taking, Marked;
      var n := |steps| - 1;
      UnconfirmedMovesNothing(file, steps[..n]);
      assert steps[n] in steps;
    }
  }

  /** A processor that posts its chunk, folds it and marks its rows, with nobody in between. */
  ghost function Alone(file: seq<Row>, s: State, p: nat, read: Reading): State {
    Next(file, Next(file, Next(file, Next(file, Next(file, s, Claim(p)), Take(p)), Post(p, read)), Fold(p)), Advance(p))
  }

  /** The rows still pending in the first unfinished chunk. */
  ghost function NextRows(file: seq<Row>, status: seq<Status>, c: nat): set<nat>
    requires |status| == |file|
  {
    set r: nat | r < |file| && status[r] == Pending && ChunkOf(Valid(file), r) == c
  }

  lemma {:induction false} TakesNext(file: seq<Row>, s: State, p: nat, first: nat)
    requires Staged(Valid(file), s.status) && PendingRows(s.status) != [] && PendingRows(s.status)[0] == first
    ensures first < |file| && s.status[first] == Pending
    ensures var c := ChunkOf(Valid(file), first);
            Taking(file, s, p) == s.(procs := s.procs[p := Holding(c, NextRows(file, s.status, c))])
  {
    hide ChunkOf, TakeUp, Rank;
    var valid := Valid(file);
    WholeChunkTakenUp(valid, s.status, CHUNK_SIZE);
    PendingRowsAre(s.status);
    assert first in PendingRows(s.status);
    var taken, c := TakeUp(valid, s.status, CHUNK_SIZE), ChunkOf(valid, first);
    assert taken[0] in taken;
    var rows := set r | r in taken;
    assert ChunkOf(valid, taken[0]) == c;
    assert rows == NextRows(file, s.status, c);
    assert taken != [] && taken[0] < |file|;
    assert Holding(ChunkOf(valid, taken[0]), rows) == Holding(c, NextRows(file, s.status, c));
  }

  /**
   * Left alone on a job whose lock is free or stale, a processor takes up the first unfinished chunk, and when the
   * ledger takes its lines, all of them are in the ledger and in the balances, every row of the chunk is reported,
   * and no other row is touched.
   */
  lemma {:induction false} AloneFinishesChunk(file: seq<Row>, s: State, p: nat, read: Reading, first: nat, rows: set<nat>)
    requires Inv(file, s) && p !in s.procs && s.job == Processing && (s.lockedAt == None || s.now - s.lockedAt.value > STALE)
    requires PendingRows(s.status) != [] && PendingRows(s.status)[0] == first && first < |file|
    requires rows == NextRows(file, s.status, ChunkOf(Valid(file), first))
    requires ChunkOf(Valid(file), first) !in s.batches && Taken(file, rows, read) && Written(file, rows, read, |file|) != []
    ensures var t, c, lines := Alone(file, s, p, read), ChunkOf(Valid(file), first), Written(file, rows, read, |file|);
            && t.ledger == s.ledger + lines && t.folded == s.folded + lines && t.order == s.order + [c]
            && t.batches == s.batches[c := Batch(lines, Folded)] && t.attempts == s.attempts[c := Attempt(rows, read)]
            && t.procs == s.procs[p := Idle] && t.lockedAt == Some(s.now)
            && |t.status| == |s.status| == |file|
            && forall r :: 0 <= r < |file| ==>
                 t.status[r] == if r !in rows then s.status[r]
                                else if ReportedOk(file[r], r in read.landed, read, true) then Processed else Failed
  {
    hide ChunkOf, Taking, Taken, Written, Postable, ReportedOk, BatchesOk, ProcsOk, HandsOk, Judge, OkRows, BadRows;
    var c := ChunkOf(Valid(file), first);
    var claimed := Next(file, s, Claim(p));
    TakesNext(file, claimed, p, first);
    WrittenPostable(file, Attempt(rows, read));
    OkAndBadHeld(file, rows, read, true);
    forall r | r in rows
      ensures r in OkRows(file, rows, read, true) <==> ReportedOk(file[r], r in read.landed, read, true)
      ensures !ReportedOk(file[r], r in read.landed, read, true) ==> r in BadRows(file, rows, read, true)
    {
      ReportedIs(file, rows, read, true, r);
    }
    PostsAlone(file, Next(file, claimed, Take(p)), p, c, rows, read);
  }

  lemma {:induction false} PostsAlone(file: seq<Row>, s: State, p: nat, c: nat, rows: set<nat>, read: Reading)
    requires p in s.procs && s.procs[p] == Holding(c, rows) && c !in s.batches && Taken(file, rows, read)
    requires var lines := Written(file, rows, read, |file|); lines != [] && Postable(file, rows, lines)
    requires OkRows(file, rows, read, true) <= rows && BadRows(file, rows, read, true) <= rows && rows != {}
    requires OkRows(file, rows, read, true) + BadRows(file, rows, read, true) == rows
    ensures var t, lines := Next(file, Next(file, Next(file, s, Post(p, read)), Fold(p)), Advance(p)), Written(file, rows, read, |file|);
            && t == s.(ledger := s.ledger + lines, folded := s.folded + lines, order := s.order + [c],
                       batches := s.batches[c := Batch(lines, Folded)], attempts := s.attempts[c := Attempt(rows, read)],
                       procs := s.procs[p := Idle],
                       status := Marked(s.status, rows, OkRows(file, rows, read, true), BadRows(file, rows, read, true)))
  {
    hide Taken, Written, Postable, OkRows, BadRows, Marked;
    var t := Next(file, s, Post(p, read));
    assert t.procs[p].Folding? && t.procs[p].chunk == c;
    assert s.batches[c := Batch(Written(file, rows, read, |file|), InHand(p))][c := Batch(Written(file, rows, read, |file|), Folded)]
        == s.batches[c := Batch(Written(file, rows, read, |file|), Folded)];
  }

  /** An attempt that is retried starts over with the same rows, and what it posted and did not fold is dropped. */
  lemma {:induction false} RetryStartsOver(file: seq<Row>, s: State, p: nat)
    requires Inv(file, s) && p in s.procs && !s.procs[p].Idle?
    ensures var t, x := Next(file, s, Retry(p)), s.procs[p];
            && t.procs == s.procs[p := Holding(x.chunk, x.rows)] && t.ledger == s.ledger && t.folded == s.folded && t.status == s.status
            && (forall c :: c in t.batches <==> c in s.batches)
            && forall c :: c in s.batches ==>
                 && t.batches[c].lines == s.batches[c].lines
                 && t.batches[c].fate == if x.Folding? && c == x.chunk then Dropped else s.batches[c].fate
  {
    hide RowsOf, Staged, BatchesOk, HandsOk;
    DroppingIs(s, p);
  }

  /** Rows marked before an interruption come out as if all had been marked at once; rows nothing is reported of fail. */
  lemma {:induction false} MarkedInParts(file: seq<Row>, s: State, p: nat, some: set<nat>)
    requires p in s.procs && s.procs[p].Marking? && s.procs[p].ok <= s.procs[p].rows && s.procs[p].bad <= s.procs[p].rows
    ensures var t, x := Next(file, s, Mark(p, some)), s.procs[p];
            && (forall r :: 0 <= r < |s.status| && r in some && s.status[r] == Pending ==>
                  && (r in x.ok ==> t.status[r] == Processed) && (r in x.bad && r !in x.ok ==> t.status[r] == Failed))
            && (some <= x.rows ==> Next(file, t, Advance(p)) == Next(file, s, Advance(p)))
    ensures var t, x := Next(file, s, Advance(p)), s.procs[p];
            x.ok == {} && x.bad == {} ==>
              forall r :: 0 <= r < |s.status| && r in x.rows && s.status[r] == Pending ==> t.status[r] == Failed
  {
    var t := Next(file, s, Mark(p, some));
    if some <= s.procs[p].rows {
      assert Next(file, t, Advance(p)).status == Next(file, s, Advance(p)).status;
    }
  }
}
