/**
 * All count sessions together, their operations split where they read and where they write
 * (backend/modules/inventory/count.service.js, backend/models/StockCount.js,
 * backend/models/StockCountLine.js). An operation loads its session, checks the status it loaded,
 * and saves later; others may have saved in between, and it may stop before it saves. Posting writes
 * the ledger first and the stored balances after, and only if the ledger batch was new.
 */
module CountRuns {
  import opened Options
  import opened Sums
  import opened StockCount
  import Projection

  type Grain = Projection.Grain

  /** A movement of one balance, in the ledger or applied to the stored balance; a count's own name it. */
  datatype Move = Move(place: Grain, quantity: int, source: Option<nat>)

  /** `frozenAt` and `ledgerAt`: how many changes of balances, and movements, there were at the freeze. */
  datatype Count = Count(status: Status, history: seq<Status>, frozenAt: nat, ledgerAt: nat, sheets: map<Grain, Line>)

  /** Where a posted variance stands: with its poster, applied to the balances, or dropped on the way. */
  datatype Fate = InHand(w: nat) | Applied | Dropped

  datatype Batch = Batch(moves: seq<Move>, fate: Fate)

  datatype Worker =
    | Loaded(id: nat, was: Status, to: Status)
    | Recording(id: nat)
    | Booking(id: nat)
    | Applying(id: nat, places: set<Grain>)
    | Stamping(id: nat, places: set<Grain>)
    | Closing(id: nat)
    | Releasing(id: nat)

  /** `changes` is the history of the stored balances, which others change as well: by postings, rebuilds, hand. */
  datatype State = State(
    ledger: seq<Move>, balances: map<Grain, int>, changes: seq<Move>,
    counts: map<nat, Count>, batches: map<nat, Batch>, workers: map<nat, Worker>)

  datatype Step =
    | OtherPost(place: Grain, quantity: int)
    | OtherChange(place: Grain, quantity: int)
    | Create(id: nat, places: set<Grain>)
    | Load(w: nat, id: nat, to: Status)
    | LoadRecord(w: nat, id: nat)
    | Write(w: nat, place: Grain, entry: Entry)
    | Save(w: nat)
    | Book(w: nat, order: seq<Grain>)
    | Apply(w: nat)
    | Stamp(w: nat)
    | Release(w: nat)
    | Stop(w: nat)

  function Sum(ms: seq<Move>, place: Grain): int {
    if ms == [] then 0
    else
      var m := ms[|ms| - 1];
      Sum(ms[..|ms| - 1], place) + if m.place == place then m.quantity else 0
  }

  /** What the stored balance says is on hand. */
  function OnHand(balances: map<Grain, int>, place: Grain): int {
    if place in balances then balances[place] else 0
  }

  function Changed(balances: map<Grain, int>, ms: seq<Move>): map<Grain, int> {
    if ms == [] then balances
    else
      var m, before := ms[|ms| - 1], Changed(balances, ms[..|ms| - 1]);
      before[m.place := OnHand(before, m.place) + m.quantity]
  }

  /** The adjustment flag says that the line was counted and differs. */
  predicate Flagged(l: Line) {
    l.required <==> l.counted.Some? && l.counted.value != l.expected
  }

  predicate LockedBy(s: State, id: nat, place: Grain) {
    id in s.counts && place in s.counts[id].sheets && s.counts[id].sheets[place].locked
  }

  /** The partial unique index: one open line per SKU, brand and location. */
  ghost predicate Free(s: State, places: set<Grain>) {
    forall id, g :: g in places ==> !LockedBy(s, id, g)
  }

  function Dismiss(s: State, w: nat): State {
    s.(workers := map v | v in s.workers && v != w :: s.workers[v])
  }

  /** A worker that stops before applying what it posted: the key is used, so nobody will apply it. */
  function Dropping(s: State, w: nat): State {
    if w in s.workers && s.workers[w].Applying? && s.workers[w].id in s.batches
    then s.(batches := s.batches[s.workers[w].id := s.batches[s.workers[w].id].(fate := Dropped)])
    else s
  }

  function Moved(c: Count, to: Status): Count {
    if c.status == to then c else c.(status := to, history := c.history + [to])
  }

  function Ready(c: Count): set<Grain> {
    set g | g in c.sheets && c.sheets[g].required && !c.sheets[g].posted
  }

  function Variance(c: Count, id: nat, g: Grain): Move
    requires g in c.sheets
  {
    Move(g, Difference(c.sheets[g]), Some(id))
  }

  function Variances(c: Count, id: nat, order: seq<Grain>): (r: seq<Move>)
    requires forall i :: 0 <= i < |order| ==> order[i] in c.sheets
    ensures |r| == |order| && forall i :: 0 <= i < |r| ==> r[i] == Variance(c, id, order[i])
  {
    seq(|order|, i requires 0 <= i < |order| => Variance(c, id, order[i]))
  }

  /** The lines to post, each once, in the order the query happens to return them. */
  ghost predicate Enumerates(order: seq<Grain>, places: set<Grain>) {
    Distinct(order) && forall g :: g in order <==> g in places
  }

  ghost function Booked(s: State, w: nat, id: nat, order: seq<Grain>): State
    requires id in s.counts
  {
    var c := s.counts[id];
    if !Enumerates(order, Ready(c)) then s
    else
      assert forall i :: 0 <= i < |order| ==> order[i] in Ready(c);
      if order == [] then s.(workers := s.workers[w := Closing(id)])
      else if id in s.batches then s.(workers := s.workers[w := Stamping(id, Ready(c))])
      else
        var moves := Variances(c, id, order);
        s.(ledger := s.ledger + moves, batches := s.batches[id := Batch(moves, InHand(w))],
           workers := s.workers[w := Applying(id, Ready(c))])
  }

  /** The save hook refuses a session that was loaded as Posted; otherwise the new status is written. */
  function Saved(s: State, w: nat): State
    requires w in s.workers && s.workers[w].id in s.counts
  {
    var id, c := s.workers[w].id, s.counts[s.workers[w].id];
    if s.workers[w].Closing? then
      s.(counts := s.counts[id := Moved(c, Posted)], workers := s.workers[w := Releasing(id)])
    else if !s.workers[w].Loaded? then s
    else if s.workers[w].was == Posted then Dismiss(s, w)
    else
      var to := s.workers[w].to;
      var t := s.(counts := s.counts[id := Moved(c, to)]);
      if to == Cancelled then t.(workers := t.workers[w := Releasing(id)]) else Dismiss(t, w)
  }

  function Opened(s: State, places: set<Grain>): Count {
    Count(Draft, [Draft], |s.changes|, |s.ledger|,
          map g: Grain | g in places :: Frozen(Balance(Item(g.sku, g.brand), OnHand(s.balances, g))))
  }

  ghost function Next(s: State, step: Step): State {
    match step
    case OtherPost(place, quantity) => s.(ledger := s.ledger + [Move(place, quantity, None)])
    case OtherChange(place, quantity) =>
      var m := [Move(place, quantity, None)];
      s.(balances := Changed(s.balances, m), changes := s.changes + m)
    case Create(id, places) =>
      if id in s.counts then s
      else if Free(s, places) then s.(counts := s.counts[id := Opened(s, places)])
      else s.(counts := s.counts[id := Count(Cancelled, [Draft, Cancelled], |s.changes|, |s.ledger|, map[])])
    case Load(w, id, to) =>
      if w in s.workers || id !in s.counts || !Allowed(s.counts[id].status, to) then s
      else s.(workers := s.workers[w := if to == Posted then Booking(id) else Loaded(id, s.counts[id].status, to)])
    case LoadRecord(w, id) =>
      if w in s.workers || id !in s.counts || s.counts[id].status != Counting then s
      else s.(workers := s.workers[w := Recording(id)])
    case Write(w, place, entry) =>
      if w !in s.workers || !s.workers[w].Recording? || s.workers[w].id !in s.counts || entry.counted.None? then s
      else
        var id, c := s.workers[w].id, s.counts[s.workers[w].id];
        if place !in c.sheets then s
        else s.(counts := s.counts[id := c.(sheets := c.sheets[place := Recorded(c.sheets[place], entry)])])
    case Save(w) => if w in s.workers && s.workers[w].id in s.counts then Saved(s, w) else s
    case Book(w, order) =>
      if w in s.workers && s.workers[w].Booking? && s.workers[w].id in s.counts then Booked(s, w, s.workers[w].id, order) else s
    case Apply(w) =>
      if w !in s.workers || !s.workers[w].Applying? || s.workers[w].id !in s.batches then s
      else
        var id, places, moves := s.workers[w].id, s.workers[w].places, s.batches[s.workers[w].id].moves;
        s.(balances := Changed(s.balances, moves), changes := s.changes + moves,
           batches := s.batches[id := Batch(moves, Applied)], workers := s.workers[w := Stamping(id, places)])
    case Stamp(w) =>
      if w !in s.workers || !s.workers[w].Stamping? || s.workers[w].id !in s.counts then s
      else
        var id, c, places := s.workers[w].id, s.counts[s.workers[w].id], s.workers[w].places;
        var stamped := map g | g in c.sheets :: if g in places then c.sheets[g].(posted := true) else c.sheets[g];
        s.(counts := s.counts[id := c.(sheets := stamped)], workers := s.workers[w := Closing(id)])
    case Release(w) =>
      if w !in s.workers || !s.workers[w].Releasing? || s.workers[w].id !in s.counts then s
      else
        var id, c := s.workers[w].id, s.counts[s.workers[w].id];
        Dismiss(s, w).(counts := s.counts[id := c.(sheets := map g | g in c.sheets :: c.sheets[g].(locked := false))])
    case Stop(w) => Dismiss(Dropping(s, w), w)
  }

  ghost function After(s: State, steps: seq<Step>): State {
    if steps == [] then s else Next(After(s, steps[..|steps| - 1]), steps[|steps| - 1])
  }

  const Empty := State([], map[], [], map[], map[], map[])

  // ---------------------------------------------------------------------------------------
  // What every run keeps
  // ---------------------------------------------------------------------------------------

  ghost predicate OneLock(s: State) {
    forall id, jd, g :: id != jd && LockedBy(s, id, g) ==> !LockedBy(s, jd, g)
  }

  ghost predicate OncePosted(s: State) {
    && (forall i, j :: 0 <= i < j < |s.ledger| && s.ledger[i].source.Some? && s.ledger[i].source == s.ledger[j].source ==>
          s.ledger[i].place != s.ledger[j].place)
    && (forall i :: 0 <= i < |s.ledger| && s.ledger[i].source.Some? ==> s.ledger[i].source.value in s.batches)
  }

  /** Nobody holds a session it loaded as Posted: the check on load has refused it first. */
  ghost predicate GuardNeverFires(s: State) {
    forall w :: w in s.workers && s.workers[w].Loaded? ==>
      s.workers[w].was != Posted && s.workers[w].to != Posted && Allowed(s.workers[w].was, s.workers[w].to)
  }

  lemma {:induction false} CreateOneLock(s: State, id: nat, places: set<Grain>)
    requires OneLock(s) && id !in s.counts
    ensures OneLock(Next(s, Create(id, places)))
  {
    hide OnHand;
    var t := Next(s, Create(id, places));
    assert forall g :: LockedBy(t, id, g) ==> g in places;
    assert forall jd, g :: jd != id ==> (LockedBy(t, jd, g) <==> LockedBy(s, jd, g));
  }

  lemma {:induction false} OtherLocks(s: State, step: Step, id: nat, g: Grain)
    requires !step.Create?
    ensures LockedBy(Next(s, step), id, g) ==> LockedBy(s, id, g)
  {
    hide Enumerates, OnHand, Ready, Changed;
  }

  lemma {:induction false} StepOneLock(s: State, step: Step)
    requires OneLock(s)
    ensures OneLock(Next(s, step))
  {
    if step.Create? {
      if step.id !in s.counts { CreateOneLock(s, step.id, step.places); }
    } else {
      hide Next, LockedBy;
      forall id, g ensures LockedBy(Next(s, step), id, g) ==> LockedBy(s, id, g) { OtherLocks(s, step, id, g); }
    }
  }

  lemma {:induction false} StepOncePosted(s: State, step: Step)
    requires OncePosted(s)
    ensures OncePosted(Next(s, step))
  {
    hide Free, OnHand, Ready, Moved, Variance, Changed;
    if step.Book? && step.w in s.workers && s.workers[step.w].Booking? && s.workers[step.w].id in s.counts {
      BookOncePosted(s, step.w, s.workers[step.w].id, step.order);
    }
  }

  lemma {:induction false} BookOncePosted(s: State, w: nat, id: nat, order: seq<Grain>)
    requires OncePosted(s) && id in s.counts
    ensures OncePosted(Booked(s, w, id, order))
  {
    hide OnHand;
    var c := s.counts[id];
    if Enumerates(order, Ready(c)) && order != [] && id !in s.batches {
      assert forall i :: 0 <= i < |order| ==> order[i] in Ready(c);
      var vs := Variances(c, id, order);
      assert forall i :: 0 <= i < |vs| ==> vs[i].source == Some(id) && vs[i].place == order[i];
    }
  }

  lemma {:induction false} StepGuard(s: State, step: Step)
    requires GuardNeverFires(s)
    ensures GuardNeverFires(Next(s, step))
  {
    hide Free, OnHand, Ready, Enumerates, Changed;
  }

  /** A batch is in the hand of the one worker that posted it and has not applied it yet. */
  ghost predicate HandsOk(s: State) {
    && (forall id :: id in s.batches && s.batches[id].fate.InHand? ==>
          var w := s.batches[id].fate.w; w in s.workers && s.workers[w].Applying? && s.workers[w].id == id)
    && (forall w :: w in s.workers && s.workers[w].Applying? ==>
          s.workers[w].id in s.batches && s.batches[s.workers[w].id].fate == InHand(w))
  }

  lemma {:induction false} BookHands(s: State, w: nat, id: nat, order: seq<Grain>)
    requires HandsOk(s) && id in s.counts && w in s.workers && s.workers[w].Booking?
    ensures HandsOk(Booked(s, w, id, order))
  {
    hide Ready, Enumerates, Variances;
  }

  lemma {:induction false} ApplyHands(s: State, w: nat)
    requires HandsOk(s)
    ensures HandsOk(Next(s, Apply(w)))
  {
    hide Changed;
  }

  lemma {:induction false} StopHands(s: State, w: nat)
    requires HandsOk(s)
    ensures HandsOk(Next(s, Stop(w)))
  {
  }

  /** Steps of workers that hold no batch, which take none up. */
  lemma {:induction false} EmptyHands(s: State, t: State)
    requires HandsOk(s) && t.batches == s.batches
    requires forall w :: w in t.workers && t.workers[w].Applying? ==> w in s.workers && t.workers[w] == s.workers[w]
    requires forall w :: w in s.workers && s.workers[w].Applying? ==> w in t.workers && t.workers[w] == s.workers[w]
    ensures HandsOk(t)
  {
  }

  lemma {:induction false} StepHands(s: State, step: Step)
    requires HandsOk(s)
    ensures HandsOk(Next(s, step))
  {
    hide Free, OnHand, Ready, Changed, Recorded, Moved, Allowed;
    match step
    case Book(w, order) =>
      hide HandsOk, Booked;
      if w in s.workers && s.workers[w].Booking? && s.workers[w].id in s.counts { BookHands(s, w, s.workers[w].id, order); }
    case Apply(w) => hide HandsOk, Next; ApplyHands(s, w);
    case Stop(w) => hide HandsOk, Next; StopHands(s, w);
    case _ =>
      hide HandsOk;
      EmptyHands(s, Next(s, step));
  }

  /** The stored balances are what their history adds up to. */
  ghost predicate Kept(s: State) {
    forall g :: OnHand(s.balances, g) == Sum(s.changes, g)
  }

  lemma {:induction false} SumSplits(s: seq<Move>, t: seq<Move>, g: Grain)
    ensures Sum(s + t, g) == Sum(s, g) + Sum(t, g)
    decreases |t|
  {
    if t == [] {
      assert s + t == s;
    } else {
      assert (s + t)[..|s + t| - 1] == s + t[..|t| - 1];
      SumSplits(s, t[..|t| - 1], g);
    }
  }

  lemma {:induction false} ChangedAdds(balances: map<Grain, int>, ms: seq<Move>, g: Grain)
    ensures OnHand(Changed(balances, ms), g) == OnHand(balances, g) + Sum(ms, g)
  {
    if ms != [] {
      ChangedAdds(balances, ms[..|ms| - 1], g);
    }
  }

  lemma {:induction false} StepKept(s: State, step: Step)
    requires Kept(s)
    ensures Kept(Next(s, step))
  {
    hide Free, OnHand, Ready, Enumerates, Changed, Variance, Sum;
    var t := Next(s, step);
    var more := if step.OtherChange? then [Move(step.place, step.quantity, None)]
                else if step.Apply? && t != s then s.batches[s.workers[step.w].id].moves else [];
    if t.balances != s.balances || t.changes != s.changes {
      forall g ensures OnHand(t.balances, g) == Sum(t.changes, g) {
        ChangedAdds(s.balances, more, g);
        SumSplits(s.changes, more, g);
      }
    }
  }

  /**
   * In every run, whatever overlaps, stops half way or is tried again: a count's variance of one
   * balance is posted at most once, no balance is in two open counts, the guard on posted sessions
   * never has anything to refuse, and a posted batch is with its poster, applied, or dropped.
   */
  lemma {:induction false} EveryRun(steps: seq<Step>)
    ensures var s := After(Empty, steps); OncePosted(s) && OneLock(s) && GuardNeverFires(s) && HandsOk(s) && Kept(s)
  {
    if steps != [] {
      hide Next, OncePosted, OneLock, GuardNeverFires, HandsOk, Kept;
      EveryRun(steps[..|steps| - 1]);
      var s, step := After(Empty, steps[..|steps| - 1]), steps[|steps| - 1];
      StepOneLock(s, step);
      StepOncePosted(s, step);
      StepGuard(s, step);
      StepHands(s, step);
      StepKept(s, step);
    } else {
      assert forall id, g :: !LockedBy(Empty, id, g);
    }
  }

  // ---------------------------------------------------------------------------------------
  // Operations on one session do not overlap
  // ---------------------------------------------------------------------------------------

  predicate Closed(c: Count) {
    c.status == Approved || c.status == Posted
  }

  /** The step finds its session in the status it was loaded in; posting may be tried twice. */
  predicate Undisturbed(s: State, step: Step) {
    match step
    case Save(w) =>
      w in s.workers && s.workers[w].id in s.counts ==>
        (s.workers[w].Loaded? ==> s.counts[s.workers[w].id].status == s.workers[w].was)
    case Book(w, _) => w in s.workers && s.workers[w].id in s.counts ==> Closed(s.counts[s.workers[w].id])
    case Write(w, _, _) => w in s.workers && s.workers[w].id in s.counts ==> s.counts[s.workers[w].id].status == Counting
    case _ => true
  }

  ghost predicate AllUndisturbed(steps: seq<Step>) {
    steps == [] ||
    (AllUndisturbed(steps[..|steps| - 1]) && Undisturbed(After(Empty, steps[..|steps| - 1]), steps[|steps| - 1]))
  }

  ghost predicate Paths(s: State) {
    forall id :: id in s.counts ==> PathOf(s.counts[id])
  }

  /** What a session owes the ledger: its variances under its key, none of them before the key is used. */
  ghost predicate Settled(s: State, id: nat) {
    id in s.counts ==>
      var c := s.counts[id];
      && c.frozenAt <= |s.changes| && c.ledgerAt <= |s.ledger|
      && (id in s.batches ==> Closed(c))
      && (c.status == Posted ==> id in s.batches || forall g :: g in c.sheets ==> !c.sheets[g].required)
      && (forall g :: g in c.sheets && c.sheets[g].posted ==> id in s.batches)
  }

  ghost predicate WorkersOk(s: State) {
    forall w :: w in s.workers ==>
      && (s.workers[w].Stamping? || s.workers[w].Applying? ==> s.workers[w].id in s.batches && s.workers[w].id in s.counts)
      && (s.workers[w].Closing? ==>
            && s.workers[w].id in s.counts && Closed(s.counts[s.workers[w].id])
            && (s.workers[w].id in s.batches ||
                forall g :: g in s.counts[s.workers[w].id].sheets ==> !s.counts[s.workers[w].id].sheets[g].required))
  }

  ghost predicate Orderly(s: State) {
    && GuardNeverFires(s) && Paths(s) && WorkersOk(s)
    && (forall id :: Settled(s, id)) && (forall id :: id in s.batches ==> id in s.counts)
  }

  ghost predicate PathOf(c: Count) {
    IsPath(c.history) && c.history[|c.history| - 1] == c.status
  }

  lemma {:induction false} SavePaths(s: State, w: nat)
    requires Orderly(s) && Undisturbed(s, Save(w)) && w in s.workers && s.workers[w].id in s.counts
    ensures Paths(Saved(s, w))
  {
    hide Settled, IsPath, Moved;
    var id, x := s.workers[w].id, s.workers[w];
    var c := s.counts[id];
    assert PathOf(c);
    if x.Loaded? { PathGrows(c, x.to); }
    if x.Closing? { PathGrows(c, Posted); }
  }

  lemma {:induction false} StepPaths(s: State, step: Step)
    requires Orderly(s) && Undisturbed(s, step)
    ensures Paths(Next(s, step))
  {
    hide Free, Booked, Settled, Saved, IsPath, WorkersOk, GuardNeverFires, PathOf;
    match step
    case Save(w) => if w in s.workers && s.workers[w].id in s.counts { SavePaths(s, w); }
    case Create(_, _) => CreatePaths(s, step);
    case Book(w, order) => if w in s.workers && s.workers[w].id in s.counts { BookKeepsCounts(s, w, s.workers[w].id, order); }
    case _ =>
      hide Next;
      forall id | id in Next(s, step).counts ensures PathOf(Next(s, step).counts[id]) {
        SamePath(s, step, id);
      }
  }

  lemma {:induction false} CreatePaths(s: State, step: Step)
    requires Paths(s) && step.Create?
    ensures Paths(Next(s, step))
  {
    hide Free, IsPath, OnHand;
    assert IsPath([Draft]) && IsPath([Draft, Cancelled]) by { ShortPaths(); }
  }

  /** Any other step leaves every status and history alone. */
  lemma {:induction false} SamePath(s: State, step: Step, id: nat)
    requires !step.Save? && !step.Book? && !step.Create? && id in Next(s, step).counts
    ensures id in s.counts && Next(s, step).counts[id].history == s.counts[id].history
    ensures Next(s, step).counts[id].status == s.counts[id].status
    ensures Paths(s) ==> PathOf(Next(s, step).counts[id])
  {
    hide Changed, Recorded, Allowed, IsPath;
  }

  lemma {:induction false} BookKeepsCounts(s: State, w: nat, id: nat, order: seq<Grain>)
    requires id in s.counts
    ensures Booked(s, w, id, order).counts == s.counts
  {
    hide Enumerates, Ready;
  }

  lemma {:induction false} ShortPaths()
    ensures IsPath([Draft]) && IsPath([Draft, Cancelled])
  {
  }

  lemma {:induction false} PathGrows(c: Count, to: Status)
    requires PathOf(c) && (c.status == to || Allowed(c.status, to))
    ensures PathOf(Moved(c, to))
  {
  }

  /** A save of an undisturbed operation never touches a session that is approved or posted. */
  lemma {:induction false} SavesLeaveClosed(s: State, w: nat)
    requires Orderly(s) && Undisturbed(s, Save(w)) && w in s.workers && s.workers[w].id in s.counts && s.workers[w].Loaded?
    ensures !Closed(s.counts[s.workers[w].id])
  {
  }

  lemma {:induction false} SaveSettles(s: State, w: nat, id: nat)
    requires Orderly(s) && Undisturbed(s, Save(w)) && w in s.workers && s.workers[w].id in s.counts
    ensures Settled(Saved(s, w), id)
  {
    hide Paths;
    assert Settled(s, id) && Settled(s, s.workers[w].id);
    if s.workers[w].Loaded? { SavesLeaveClosed(s, w); }
  }

  lemma {:induction false} StampSettles(s: State, w: nat, id: nat)
    requires Orderly(s) && w in s.workers && s.workers[w].Stamping?
    ensures Settled(Next(s, Stamp(w)), id) && WorkersOk(Next(s, Stamp(w)))
  {
    hide Paths, GuardNeverFires;
    assert Settled(s, id);
    var jd := s.workers[w].id;
    assert Settled(s, jd);
    var t := Next(s, Stamp(w));
    assert forall g :: g in t.counts[jd].sheets ==> t.counts[jd].sheets[g].required == s.counts[jd].sheets[g].required;
  }

  lemma {:induction false} WriteSettles(s: State, step: Step, id: nat)
    requires Orderly(s) && Undisturbed(s, step) && step.Write?
    ensures Settled(Next(s, step), id) && WorkersOk(Next(s, step))
  {
    hide Paths, GuardNeverFires;
    assert Settled(s, id);
  }

  lemma {:induction false} ReleaseSettles(s: State, w: nat, id: nat)
    requires Orderly(s)
    ensures Settled(Next(s, Release(w)), id) && WorkersOk(Next(s, Release(w)))
  {
    hide Paths, GuardNeverFires;
    assert Settled(s, id);
    var t := Next(s, Release(w));
    if t != s {
      var jd := s.workers[w].id;
      assert forall g :: g in t.counts[jd].sheets ==>
        t.counts[jd].sheets[g].required == s.counts[jd].sheets[g].required
        && t.counts[jd].sheets[g].posted == s.counts[jd].sheets[g].posted;
    }
  }

  lemma {:induction false} BookSettles(s: State, w: nat, id: nat, order: seq<Grain>, jd: nat)
    requires Orderly(s) && id in s.counts && Closed(s.counts[id]) && w in s.workers && s.workers[w].Booking? && s.workers[w].id == id
    ensures Settled(Booked(s, w, id, order), jd) && WorkersOk(Booked(s, w, id, order))
  {
    hide Paths, GuardNeverFires;
    assert Settled(s, jd) && Settled(s, id);
    var c := s.counts[id];
    if Enumerates(order, Ready(c)) && order == [] && id !in s.batches {
      assert forall g :: g in c.sheets && c.sheets[g].required ==> g in Ready(c);
      assert forall g :: g in Ready(c) ==> g in order;
    }
  }

  lemma {:induction false} SaveWorkers(s: State, w: nat)
    requires Orderly(s) && Undisturbed(s, Save(w)) && w in s.workers && s.workers[w].id in s.counts
    ensures WorkersOk(Saved(s, w))
  {
    hide Paths, Settled;
    if s.workers[w].Loaded? { SavesLeaveClosed(s, w); }
  }

  lemma {:induction false} OtherSettles(s: State, step: Step, id: nat)
    requires Orderly(s)
    requires step.OtherPost? || step.OtherChange? || step.Create? || step.Load? || step.LoadRecord? || step.Apply? || step.Stop?
    ensures Settled(Next(s, step), id) && WorkersOk(Next(s, step))
  {
    hide Paths, GuardNeverFires, Free, OnHand;
    OtherWorkers(s, step);
    hide WorkersOk;
    assert Settled(s, id);
  }

  lemma {:induction false} OtherWorkers(s: State, step: Step)
    requires Orderly(s)
    requires step.OtherPost? || step.OtherChange? || step.Create? || step.Load? || step.LoadRecord? || step.Apply? || step.Stop?
    ensures WorkersOk(Next(s, step))
  {
    hide Paths, GuardNeverFires, Free, OnHand, Settled, Opened;
  }

  lemma {:induction false} StepSettled(s: State, step: Step, id: nat)
    requires Orderly(s) && Undisturbed(s, step)
    ensures Settled(Next(s, step), id) && WorkersOk(Next(s, step))
  {
    assert Settled(s, id) && WorkersOk(s);
    match step
    case Save(w) =>
      hide Settled, WorkersOk, Saved;
      if w in s.workers && s.workers[w].id in s.counts { SaveSettles(s, w, id); SaveWorkers(s, w); }
    case Book(w, order) =>
      hide Settled, WorkersOk, Booked;
      if w in s.workers && s.workers[w].Booking? && s.workers[w].id in s.counts { BookSettles(s, w, s.workers[w].id, order, id); }
    case Stamp(w) =>
      hide Settled, WorkersOk;
      if w in s.workers && s.workers[w].Stamping? { StampSettles(s, w, id); }
    case Write(_, _, _) => hide Settled, WorkersOk; WriteSettles(s, step, id);
    case Release(w) => hide Settled, WorkersOk; ReleaseSettles(s, w, id);
    case _ => hide Settled, WorkersOk; OtherSettles(s, step, id);
  }

  lemma {:induction false} StepKeys(s: State, step: Step)
    requires forall id :: id in s.batches ==> id in s.counts
    ensures forall id :: id in Next(s, step).batches ==> id in Next(s, step).counts
  {
    hide Free, OnHand, Ready, Enumerates;
  }

  lemma {:induction false} RunOrderly(steps: seq<Step>)
    requires AllUndisturbed(steps)
    ensures Orderly(After(Empty, steps))
  {
    if steps != [] {
      hide Next, GuardNeverFires, Paths, WorkersOk, Settled, Undisturbed;
      var s, step := After(Empty, steps[..|steps| - 1]), steps[|steps| - 1];
      RunOrderly(steps[..|steps| - 1]);
      StepGuard(s, step);
      StepPaths(s, step);
      StepKeys(s, step);
      StepSettled(s, step, 0);
      forall id ensures Settled(Next(s, step), id) { StepSettled(s, step, id); }
    }
  }

  // ---------------------------------------------------------------------------------------
  // The variance is posted as a delta
  // ---------------------------------------------------------------------------------------

  /** What a count's own movements, and what all others, added to one balance. */
  function Own(ms: seq<Move>, id: nat, g: Grain): int {
    if ms == [] then 0
    else
      var m := ms[|ms| - 1];
      Own(ms[..|ms| - 1], id, g) + if m.place == g && m.source == Some(id) then m.quantity else 0
  }

  function Others(ms: seq<Move>, id: nat, g: Grain): int {
    if ms == [] then 0
    else
      var m := ms[|ms| - 1];
      Others(ms[..|ms| - 1], id, g) + if m.place == g && m.source != Some(id) then m.quantity else 0
  }

  lemma {:induction false} OwnAndOthers(ms: seq<Move>, id: nat, g: Grain)
    ensures Sum(ms, g) == Own(ms, id, g) + Others(ms, id, g)
  {
    if ms != [] {
      OwnAndOthers(ms[..|ms| - 1], id, g);
    }
  }

  lemma {:induction false} OwnSplits(s: seq<Move>, t: seq<Move>, id: nat, g: Grain)
    ensures Own(s + t, id, g) == Own(s, id, g) + Own(t, id, g)
    decreases |t|
  {
    if t == [] {
      assert s + t == s;
    } else {
      assert (s + t)[..|s + t| - 1] == s + t[..|t| - 1];
      OwnSplits(s, t[..|t| - 1], id, g);
    }
  }

  lemma {:induction false} OwnOfAnother(ms: seq<Move>, id: nat, g: Grain)
    requires forall i :: 0 <= i < |ms| ==> ms[i].source != Some(id)
    ensures Own(ms, id, g) == 0
  {
    if ms != [] {
      OwnOfAnother(ms[..|ms| - 1], id, g);
    }
  }

  lemma {:induction false} OwnOfVariances(c: Count, id: nat, order: seq<Grain>, g: Grain)
    requires Distinct(order) && g in c.sheets
    requires forall i :: 0 <= i < |order| ==> order[i] in c.sheets
    ensures Own(Variances(c, id, order), id, g) == if g in order then Difference(c.sheets[g]) else 0
  {
    if order != [] {
      var n := |order| - 1;
      OwnOfVariances(c, id, order[..n], g);
      assert Variances(c, id, order)[..n] == Variances(c, id, order[..n]);
      assert order[n] !in order[..n];
    }
  }

  /** The variance of the session has reached the stored balances. */
  predicate HasApplied(s: State, id: nat) {
    id in s.batches && s.batches[id].fate == Applied
  }

  /** A batch holds the movements of its own session only. */
  ghost predicate MovesOk(s: State) {
    forall id :: id in s.batches ==> forall i :: 0 <= i < |s.batches[id].moves| ==> s.batches[id].moves[i].source == Some(id)
  }

  /**
   * One line of a session: the expectation is what the balance said at the freeze; once posted, the
   * session's movements in ledger and batch are its difference; once applied, in the balances too.
   */
  ghost predicate LineAccounted(s: State, id: nat, c: Count, g: Grain)
    requires g in c.sheets && c.frozenAt <= |s.changes| && c.ledgerAt <= |s.ledger|
  {
    && Flagged(c.sheets[g]) && c.sheets[g].expected == Sum(s.changes[..c.frozenAt], g)
    && Own(s.changes[c.frozenAt..], id, g) == (if HasApplied(s, id) then Difference(c.sheets[g]) else 0)
    && Own(s.ledger[c.ledgerAt..], id, g) == (if id in s.batches then Difference(c.sheets[g]) else 0)
    && (id in s.batches ==> Own(s.batches[id].moves, id, g) == Difference(c.sheets[g]))
  }

  ghost predicate Accounted(s: State, id: nat) {
    id in s.counts ==>
      var c := s.counts[id];
      c.frozenAt <= |s.changes| && c.ledgerAt <= |s.ledger| && forall g :: g in c.sheets ==> LineAccounted(s, id, c, g)
  }

  lemma {:induction false} StepMoves(s: State, step: Step)
    requires MovesOk(s)
    ensures MovesOk(Next(s, step))
  {
    hide Free, OnHand, Ready, Enumerates, Changed;
  }

  /** What stays of a session's account when others post and change balances, and its own lines keep their figures. */
  lemma {:induction false} StaysAccounted(s: State, t: State, posted: seq<Move>, applied: seq<Move>, id: nat)
    requires Accounted(s, id) && id in s.counts && id in t.counts
    requires t.ledger == s.ledger + posted && t.changes == s.changes + applied
    requires (id in s.batches <==> id in t.batches) && (HasApplied(s, id) <==> HasApplied(t, id))
    requires id in s.batches ==> t.batches[id].moves == s.batches[id].moves
    requires forall i :: 0 <= i < |posted| ==> posted[i].source != Some(id)
    requires forall i :: 0 <= i < |applied| ==> applied[i].source != Some(id)
    requires t.counts[id].frozenAt == s.counts[id].frozenAt && t.counts[id].ledgerAt == s.counts[id].ledgerAt
    requires t.counts[id].sheets.Keys == s.counts[id].sheets.Keys
    requires forall g :: g in s.counts[id].sheets ==>
               && (Flagged(s.counts[id].sheets[g]) ==> Flagged(t.counts[id].sheets[g]))
               && t.counts[id].sheets[g].expected == s.counts[id].sheets[g].expected
               && (id in s.batches ==> t.counts[id].sheets[g].counted == s.counts[id].sheets[g].counted)
    ensures Accounted(t, id)
  {
    hide Sum, Own, HasApplied;
    var c, d := s.counts[id], t.counts[id];
    var f, l := c.frozenAt, c.ledgerAt;
    assert t.changes[..f] == s.changes[..f] && t.changes[f..] == s.changes[f..] + applied;
    assert t.ledger[l..] == s.ledger[l..] + posted;
    forall g | g in d.sheets ensures LineAccounted(t, id, d, g) {
      assert LineAccounted(s, id, c, g);
      OwnSplits(s.changes[f..], applied, id, g);
      OwnSplits(s.ledger[l..], posted, id, g);
      OwnOfAnother(applied, id, g);
      OwnOfAnother(posted, id, g);
      AppliedIsPosted(s, id);
    }
  }

  lemma {:induction false} AppliedIsPosted(s: State, id: nat)
    ensures HasApplied(s, id) ==> id in s.batches
  {
  }

  lemma {:induction false} BookAccounts(s: State, w: nat, id: nat, order: seq<Grain>)
    requires Orderly(s) && Accounted(s, id) && id in s.counts
    ensures Accounted(Booked(s, w, id, order), id)
  {
    hide Sum, Own, Paths, WorkersOk, GuardNeverFires, LineAccounted;
    var c, t := s.counts[id], Booked(s, w, id, order);
    assert Settled(s, id);
    if t.ledger == s.ledger && t.batches == s.batches {
      assert t.ledger == s.ledger + [] && t.changes == s.changes + [];
      StaysAccounted(s, t, [], [], id);
    } else {
      assert forall i :: 0 <= i < |order| ==> order[i] in Ready(c);
      forall g | g in c.sheets ensures LineAccounted(t, id, c, g) {
        assert LineAccounted(s, id, c, g);
        PostedLine(s, t, id, c, order, g);
      }
    }
  }

  lemma {:induction false} PostedLine(s: State, t: State, id: nat, c: Count, order: seq<Grain>, g: Grain)
    requires g in c.sheets && c.frozenAt <= |s.changes| && c.ledgerAt <= |s.ledger| && LineAccounted(s, id, c, g)
    requires id !in s.batches && Enumerates(order, Ready(c)) && !c.sheets[g].posted
    requires forall i :: 0 <= i < |order| ==> order[i] in c.sheets
    requires t.ledger == s.ledger + Variances(c, id, order) && t.changes == s.changes
    requires id in t.batches && t.batches[id].moves == Variances(c, id, order) && t.batches[id].fate != Applied
    ensures LineAccounted(t, id, c, g)
  {
    hide Sum, Own, Variance;
    var more, l := Variances(c, id, order), c.ledgerAt;
    assert t.ledger[l..] == s.ledger[l..] + more;
    OwnSplits(s.ledger[l..], more, id, g);
    OwnOfVariances(c, id, order, g);
    assert g in order <==> c.sheets[g].required;
  }

  lemma {:induction false} BookOthers(s: State, w: nat, id: nat, order: seq<Grain>, jd: nat)
    requires Accounted(s, jd) && id in s.counts && jd in s.counts && id != jd
    ensures Accounted(Booked(s, w, id, order), jd)
  {
    hide Sum, Own, Accounted;
    var t := Booked(s, w, id, order);
    assert t.changes == s.changes + [];
    if t.ledger == s.ledger {
      assert t.ledger == s.ledger + [];
      StaysAccounted(s, t, [], [], jd);
    } else {
      assert forall i :: 0 <= i < |order| ==> order[i] in Ready(s.counts[id]);
      StaysAccounted(s, t, Variances(s.counts[id], id, order), [], jd);
    }
  }

  lemma {:induction false} ApplyAccounts(s: State, w: nat, id: nat)
    requires Orderly(s) && Accounted(s, id) && id in s.counts && MovesOk(s) && HandsOk(s)
    ensures Accounted(Next(s, Apply(w)), id)
  {
    hide Sum, Own, Paths, WorkersOk, GuardNeverFires, Settled, Changed, LineAccounted;
    var t := Next(s, Apply(w));
    if t != s {
      var jd := s.workers[w].id;
      var moves := s.batches[jd].moves;
      if jd != id {
        assert t.ledger == s.ledger + [];
        StaysAccounted(s, t, [], moves, id);
      } else {
        var c := s.counts[id];
        forall g | g in c.sheets ensures LineAccounted(t, id, c, g) {
          assert LineAccounted(s, id, c, g);
          AppliedLine(s, t, id, c, g);
        }
      }
    }
  }

  lemma {:induction false} AppliedLine(s: State, t: State, id: nat, c: Count, g: Grain)
    requires g in c.sheets && c.frozenAt <= |s.changes| && c.ledgerAt <= |s.ledger| && LineAccounted(s, id, c, g)
    requires id in s.batches && s.batches[id].fate != Applied
    requires t.ledger == s.ledger && t.changes == s.changes + s.batches[id].moves
    requires id in t.batches && t.batches[id] == Batch(s.batches[id].moves, Applied)
    ensures LineAccounted(t, id, c, g)
  {
    hide Sum, Own;
    var f := c.frozenAt;
    assert t.changes[..f] == s.changes[..f] && t.changes[f..] == s.changes[f..] + s.batches[id].moves;
    OwnSplits(s.changes[f..], s.batches[id].moves, id, g);
  }

  lemma {:induction false} CreateAccounts(s: State, id: nat, places: set<Grain>)
    requires id !in s.counts && id !in s.batches && Kept(s)
    ensures Accounted(Next(s, Create(id, places)), id)
  {
    hide Free, OnHand;
    assert s.ledger[|s.ledger|..] == [] && s.changes[|s.changes|..] == [] && s.changes[..|s.changes|] == s.changes;
  }

  /** A step that changes no book and leaves this session's lines their figures. */
  lemma {:induction false} SheetsKeptAccounts(s: State, t: State, id: nat)
    requires Accounted(s, id) && id in s.counts && id in t.counts
    requires t.ledger == s.ledger && t.changes == s.changes && t.batches == s.batches
    requires t.counts[id].frozenAt == s.counts[id].frozenAt && t.counts[id].ledgerAt == s.counts[id].ledgerAt
    requires t.counts[id].sheets.Keys == s.counts[id].sheets.Keys
    requires forall g :: g in s.counts[id].sheets ==>
               && (Flagged(s.counts[id].sheets[g]) ==> Flagged(t.counts[id].sheets[g]))
               && t.counts[id].sheets[g].expected == s.counts[id].sheets[g].expected
               && (id in s.batches ==> t.counts[id].sheets[g].counted == s.counts[id].sheets[g].counted)
    ensures Accounted(t, id)
  {
    hide Accounted, HasApplied, Flagged;
    assert t.ledger == s.ledger + [] && t.changes == s.changes + [];
    assert HasApplied(s, id) <==> HasApplied(t, id) by { SameApplied(s, t, id); }
    StaysAccounted(s, t, [], [], id);
  }

  lemma {:induction false} SameApplied(s: State, t: State, id: nat)
    requires t.batches == s.batches
    ensures HasApplied(s, id) <==> HasApplied(t, id)
  {
  }

  lemma {:induction false} WriteAccounts(s: State, step: Step, id: nat)
    requires Accounted(s, id) && id in s.counts && step.Write?
    requires id !in s.batches || step.w !in s.workers || s.workers[step.w].id != id
    ensures Accounted(Next(s, step), id)
  {
    hide Accounted;
    SheetsKeptAccounts(s, Next(s, step), id);
  }

  lemma {:induction false} StampOrReleaseAccounts(s: State, step: Step, id: nat)
    requires Accounted(s, id) && id in s.counts && (step.Stamp? || step.Release?)
    ensures Accounted(Next(s, step), id)
  {
    hide Accounted;
    SheetsKeptAccounts(s, Next(s, step), id);
  }

  lemma {:induction false} StopAccounts(s: State, w: nat, id: nat)
    requires Accounted(s, id) && id in s.counts && HandsOk(s)
    ensures Accounted(Next(s, Stop(w)), id)
  {
    hide Accounted, Flagged;
    var t := Next(s, Stop(w));
    assert t.ledger == s.ledger + [] && t.changes == s.changes + [];
    StaysAccounted(s, t, [], [], id);
  }

  lemma {:induction false} OtherAccounts(s: State, step: Step, id: nat)
    requires Accounted(s, id) && id in s.counts && (step.OtherPost? || step.OtherChange?)
    ensures Accounted(Next(s, step), id)
  {
    hide Accounted, Flagged, Changed;
    var m := [Move(step.place, step.quantity, None)];
    var posted, applied := if step.OtherPost? then m else [], if step.OtherChange? then m else [];
    var t := Next(s, step);
    assert t.ledger == s.ledger + posted && t.changes == s.changes + applied;
    SameApplied(s, t, id);
    StaysAccounted(s, t, posted, applied, id);
  }

  /** Steps that post and apply nothing of this session and write no figure into it once it is posted. */
  lemma {:induction false} QuietAccounts(s: State, step: Step, id: nat)
    requires Accounted(s, id) && id in s.counts && !step.Book? && !step.Apply? && HandsOk(s)
    requires step.Write? ==> id !in s.batches || step.w !in s.workers || s.workers[step.w].id != id
    ensures Accounted(Next(s, step), id)
  {
    hide OnHand, Sum, Own, Accounted, Free, Saved, Changed, HandsOk, Flagged, Next;
    match step
    case OtherPost(_, _) => OtherAccounts(s, step, id);
    case OtherChange(_, _) => OtherAccounts(s, step, id);
    case Write(_, _, _) => WriteAccounts(s, step, id);
    case Stamp(_) => StampOrReleaseAccounts(s, step, id);
    case Release(_) => StampOrReleaseAccounts(s, step, id);
    case Stop(w) => StopAccounts(s, w, id);
    case Save(w) => SaveAccounts(s, w, id);
    case _ => IdleAccounts(s, step, id);
  }

  lemma {:induction false} SaveAccounts(s: State, w: nat, id: nat)
    requires Accounted(s, id) && id in s.counts
    ensures Accounted(Next(s, Save(w)), id)
  {
    hide Accounted, Saved, Flagged;
    if w in s.workers && s.workers[w].id in s.counts { SavedSheets(s, w, id); }
    SheetsKeptAccounts(s, Next(s, Save(w)), id);
  }

  lemma {:induction false} IdleAccounts(s: State, step: Step, id: nat)
    requires Accounted(s, id) && id in s.counts && (step.Create? || step.Load? || step.LoadRecord?)
    ensures Accounted(Next(s, step), id)
  {
    hide Accounted, Flagged, OnHand, Free;
    SheetsKeptAccounts(s, Next(s, step), id);
  }

  lemma {:induction false} SavedSheets(s: State, w: nat, id: nat)
    requires w in s.workers && s.workers[w].id in s.counts && id in s.counts
    ensures var t := Saved(s, w);
            && id in t.counts && t.ledger == s.ledger && t.changes == s.changes && t.batches == s.batches
            && t.counts[id].sheets == s.counts[id].sheets
            && t.counts[id].frozenAt == s.counts[id].frozenAt && t.counts[id].ledgerAt == s.counts[id].ledgerAt
  {
  }

  lemma {:induction false} StepAccounts(s: State, step: Step, id: nat)
    requires Orderly(s) && Undisturbed(s, step) && Accounted(s, id) && MovesOk(s) && HandsOk(s) && Kept(s)
    ensures Accounted(Next(s, step), id)
  {
    hide Accounted, Booked, OnHand, Saved, Paths, GuardNeverFires, WorkersOk, MovesOk, HandsOk, Kept, Changed;
    assert Settled(s, id);
    if step.Book? {
      if step.w in s.workers && s.workers[step.w].Booking? && s.workers[step.w].id in s.counts {
        var jd := s.workers[step.w].id;
        if jd == id { BookAccounts(s, step.w, id, step.order); }
        else if id in s.counts { BookOthers(s, step.w, jd, step.order, id); }
        else { CountsStay(s, step, id); NotThere(Next(s, step), id); }
      }
    } else if id in s.counts {
      if step.Apply? { ApplyAccounts(s, step.w, id); } else { QuietAccounts(s, step, id); }
    } else if step.Create? && step.id == id {
      CreateAccounts(s, id, step.places);
    } else {
      CountsStay(s, step, id);
      NotThere(Next(s, step), id);
    }
  }

  lemma {:induction false} CountsStay(s: State, step: Step, id: nat)
    requires id !in s.counts && !(step.Create? && step.id == id)
    ensures id !in Next(s, step).counts
  {
    hide Free, OnHand, Ready, Enumerates, Changed;
  }

  lemma {:induction false} NotThere(s: State, id: nat)
    requires id !in s.counts
    ensures Accounted(s, id)
  {
  }

  lemma {:induction false} RunAccounts(steps: seq<Step>, id: nat)
    requires AllUndisturbed(steps)
    ensures Accounted(After(Empty, steps), id) && MovesOk(After(Empty, steps))
  {
    if steps != [] {
      hide Next, Orderly, Undisturbed, Accounted, MovesOk, HandsOk, Kept, OncePosted, OneLock, GuardNeverFires;
      var s, step := After(Empty, steps[..|steps| - 1]), steps[|steps| - 1];
      RunOrderly(steps[..|steps| - 1]);
      EveryRun(steps[..|steps| - 1]);
      RunAccounts(steps[..|steps| - 1], id);
      StepAccounts(s, step, id);
      StepMoves(s, step);
    }
  }

  /** A counted line of a posted session. */
  ghost predicate CountedAndPosted(s: State, id: nat, g: Grain) {
    id in s.counts && s.counts[id].status == Posted && g in s.counts[id].sheets && s.counts[id].sheets[g].counted.Some?
  }

  /**
   * In every run whose operations on one session do not overlap, repeated postings included: a posted
   * session came through Counting, Submitted and Approved; and a balance it counted holds what was
   * counted plus whatever else has changed it since the freeze exactly when the count found no
   * difference, or the worker that posted the variance also applied it.
   */
  lemma {:induction false} PostedAsDelta(steps: seq<Step>, id: nat, g: Grain)
    requires AllUndisturbed(steps) && CountedAndPosted(After(Empty, steps), id, g)
    ensures var s := After(Empty, steps);
            var c := s.counts[id];
            && |c.history| >= 5 && c.history[|c.history| - 4..] == [Counting, Submitted, Approved, Posted]
            && c.frozenAt <= |s.changes|
            && (OnHand(s.balances, g) == c.sheets[g].counted.value + Others(s.changes[c.frozenAt..], id, g)
                <==> Difference(c.sheets[g]) == 0 || HasApplied(s, id))
  {
    var s := After(Empty, steps);
    RunOrderly(steps);
    EveryRun(steps);
    RunAccounts(steps, id);
    assert PathOf(s.counts[id]) && Settled(s, id);
    hide OnHand, Others, Settled, Accounted, Orderly, IsPath, After, AllUndisturbed, OncePosted, OneLock, HandsOk, HasApplied;
    PostedWasReviewed(s.counts[id].history);
    DeltaOf(s, id, g);
  }

  lemma {:induction false} DeltaOf(s: State, id: nat, g: Grain)
    requires Settled(s, id) && Accounted(s, id) && Kept(s) && CountedAndPosted(s, id, g)
    ensures var c := s.counts[id];
            && c.frozenAt <= |s.changes|
            && (OnHand(s.balances, g) == c.sheets[g].counted.value + Others(s.changes[c.frozenAt..], id, g)
                <==> Difference(c.sheets[g]) == 0 || HasApplied(s, id))
  {
    hide OnHand, Own, Others, Sum;
    var c := s.counts[id];
    var f := c.frozenAt;
    assert LineAccounted(s, id, c, g);
    assert s.changes == s.changes[..f] + s.changes[f..];
    SumSplits(s.changes[..f], s.changes[f..], g);
    OwnAndOthers(s.changes[f..], id, g);
  }

  /**
   * The ledger itself says what was counted plus what else was posted since the freeze, applied or not,
   * exactly when balance and ledger agreed at the freeze.
   */
  lemma {:induction false} LedgerAsDelta(steps: seq<Step>, id: nat, g: Grain)
    requires AllUndisturbed(steps) && CountedAndPosted(After(Empty, steps), id, g)
    ensures var s := After(Empty, steps);
            var c := s.counts[id];
            && c.ledgerAt <= |s.ledger|
            && (Sum(s.ledger, g) == c.sheets[g].counted.value + Others(s.ledger[c.ledgerAt..], id, g)
                <==> c.sheets[g].expected == Sum(s.ledger[..c.ledgerAt], g))
  {
    var s := After(Empty, steps);
    RunOrderly(steps);
    RunAccounts(steps, id);
    assert Settled(s, id);
    hide Own, Others, Sum, Orderly, After, AllUndisturbed, HasApplied;
    var c := s.counts[id];
    var l := c.ledgerAt;
    assert LineAccounted(s, id, c, g);
    assert s.ledger == s.ledger[..l] + s.ledger[l..];
    SumSplits(s.ledger[..l], s.ledger[l..], g);
    OwnAndOthers(s.ledger[l..], id, g);
  }

  // ---------------------------------------------------------------------------------------
  // Operations that do overlap, and operations that stop
  // ---------------------------------------------------------------------------------------

  /** A save is judged by the status its caller loaded, not by the one it overwrites. */
  lemma {:induction false} StaleSaveGoesThrough(s: State, w: nat)
    requires w in s.workers && s.workers[w].Loaded? && s.workers[w].id in s.counts
    ensures var id := s.workers[w].id;
            (Next(s, Save(w)).counts[id].status == s.workers[w].to)
            <==> (s.workers[w].was != Posted || s.counts[id].status == s.workers[w].to)
  {
  }

  /** A cancellation loaded while the session was submitted, saved after it was approved and posted. */
  function Overlap(g: Grain): seq<Step> {
    [Create(0, {g})] + LoadThenSave(Counting) + LoadThenSave(Submitted) + [Load(1, 0, Cancelled)]
    + LoadThenSave(Approved) + [Load(0, 0, Posted), Book(0, []), Save(0)] + [Save(1)]
  }

  function LoadThenSave(to: Status): seq<Step> {
    [Load(0, 0, to), Save(0)]
  }

  lemma {:induction false} AfterSplits(s: State, front: seq<Step>, rest: seq<Step>)
    ensures After(s, front + rest) == After(After(s, front), rest)
    decreases |rest|
  {
    hide Next;
    if rest == [] {
      assert front + rest == front;
    } else {
      var n := |rest| - 1;
      AfterSplits(s, front, rest[..n]);
      assert (front + rest)[..|front + rest| - 1] == front + rest[..n];
    }
  }

  lemma {:induction false} AfterOne(s: State, step: Step)
    ensures After(s, [step]) == Next(s, step)
  {
    hide Next;
    assert [step][..0] == [] && After(s, []) == s;
  }

  lemma {:induction false} AfterTwo(s: State, x: Step, y: Step)
    ensures After(s, [x, y]) == Next(Next(s, x), y)
  {
    hide Next;
    assert [x, y][..1] == [x];
    AfterOne(s, x);
  }

  lemma {:induction false} LoadSaves(s: State, to: Status)
    requires 0 !in s.workers && 0 in s.counts && Allowed(s.counts[0].status, to) && to != Posted && to != Cancelled
    ensures var c := s.counts[0];
            After(s, LoadThenSave(to)) == s.(counts := s.counts[0 := c.(status := to, history := c.history + [to])])
  {
    hide After;
    AfterTwo(s, Load(0, 0, to), Save(0));
    var t := Next(s, Load(0, 0, to));
    assert Dismiss(t, 0).workers == s.workers;
  }

  lemma {:induction false} PostsUnvaried(s: State)
    requires 0 !in s.workers && 0 in s.counts && s.counts[0].status == Approved && Ready(s.counts[0]) == {}
    ensures var c := s.counts[0];
            After(s, [Load(0, 0, Posted), Book(0, []), Save(0)])
            == s.(counts := s.counts[0 := c.(status := Posted, history := c.history + [Posted])],
                  workers := s.workers[0 := Releasing(0)])
  {
    hide After, Ready;
    assert [Load(0, 0, Posted), Book(0, []), Save(0)] == [Load(0, 0, Posted), Book(0, [])] + [Save(0)];
    AfterSplits(s, [Load(0, 0, Posted), Book(0, [])], [Save(0)]);
    AfterTwo(s, Load(0, 0, Posted), Book(0, []));
    var t := Next(Next(s, Load(0, 0, Posted)), Book(0, []));
    AfterOne(t, Save(0));
    assert Enumerates([], {});
    assert t == s.(workers := s.workers[0 := Closing(0)]);
  }

  /** So "posted is terminal" holds only while operations on a session do not overlap. */
  lemma {:induction false} PostedCanBeCancelled(g: Grain)
    ensures var s := After(Empty, Overlap(g));
            0 in s.counts && s.counts[0].history == [Draft, Counting, Submitted, Approved, Posted, Cancelled]
  {
    hide After, Ready, LoadThenSave, Next, Overlap, Empty;
    CreatesOne(g);
    OverlapIs(g);
    var s1 := Next(Empty, Create(0, {g}));
    PostsAndCancels(s1);
  }

  lemma {:induction false} CreatesOne(g: Grain)
    ensures var s := Next(Empty, Create(0, {g}));
            && s.workers == map[] && 0 in s.counts && s.counts[0].status == Draft && s.counts[0].history == [Draft]
            && Ready(s.counts[0]) == {}
  {
    assert forall id, h :: !LockedBy(Empty, id, h);
  }

  lemma {:induction false} PostsAndCancels(s1: State)
    requires s1.workers == map[] && 0 in s1.counts && s1.counts[0].status == Draft && s1.counts[0].history == [Draft]
    requires Ready(s1.counts[0]) == {}
    ensures var s := Next(After(After(Next(After(After(s1, LoadThenSave(Counting)), LoadThenSave(Submitted)),
                                          Load(1, 0, Cancelled)), LoadThenSave(Approved)),
                                [Load(0, 0, Posted), Book(0, []), Save(0)]), Save(1));
            0 in s.counts && s.counts[0].history == [Draft, Counting, Submitted, Approved, Posted, Cancelled]
  {
    hide After, Ready, LoadThenSave, Next;
    var s2 := After(s1, LoadThenSave(Counting));
    LoadSaves(s1, Counting);
    var s3 := After(s2, LoadThenSave(Submitted));
    LoadSaves(s2, Submitted);
    var s4 := Next(s3, Load(1, 0, Cancelled));
    LoadsCancel(s3);
    var s5 := After(s4, LoadThenSave(Approved));
    LoadSaves(s4, Approved);
    ReadySame(s1.counts[0], s5.counts[0]);
    assert s5.counts[0].history == [Draft, Counting, Submitted, Approved];
    var s6 := After(s5, [Load(0, 0, Posted), Book(0, []), Save(0)]);
    PostsUnvaried(s5);
    SavesCancel(s6);
  }

  lemma {:induction false} ReadySame(c: Count, d: Count)
    requires c.sheets == d.sheets
    ensures Ready(c) == Ready(d)
  {
  }

  lemma {:induction false} LoadsCancel(s: State)
    requires 1 !in s.workers && 0 in s.counts && s.counts[0].status == Submitted
    ensures Next(s, Load(1, 0, Cancelled)) == s.(workers := s.workers[1 := Loaded(0, Submitted, Cancelled)])
  {
  }

  lemma {:induction false} SavesCancel(s: State)
    requires 1 in s.workers && s.workers[1] == Loaded(0, Submitted, Cancelled) && 0 in s.counts && s.counts[0].status == Posted
    ensures var t := Next(s, Save(1)); 0 in t.counts && t.counts[0].history == s.counts[0].history + [Cancelled]
  {
  }

  lemma {:induction false} OverlapIs(g: Grain)
    ensures After(Empty, Overlap(g)) ==
            Next(After(After(Next(After(After(Next(Empty, Create(0, {g})), LoadThenSave(Counting)), LoadThenSave(Submitted)),
                                  Load(1, 0, Cancelled)), LoadThenSave(Approved)),
                       [Load(0, 0, Posted), Book(0, []), Save(0)]), Save(1))
  {
    hide Next, After, LoadThenSave;
    var a := [Create(0, {g})];
    var b := a + LoadThenSave(Counting);
    var c := b + LoadThenSave(Submitted);
    var d := c + [Load(1, 0, Cancelled)];
    var e := d + LoadThenSave(Approved);
    var f := e + [Load(0, 0, Posted), Book(0, []), Save(0)];
    AfterOne(Empty, Create(0, {g}));
    AfterSplits(Empty, a, LoadThenSave(Counting));
    AfterSplits(Empty, b, LoadThenSave(Submitted));
    AfterSplits(Empty, c, [Load(1, 0, Cancelled)]);
    AfterOne(After(Empty, c), Load(1, 0, Cancelled));
    AfterSplits(Empty, d, LoadThenSave(Approved));
    AfterSplits(Empty, e, [Load(0, 0, Posted), Book(0, []), Save(0)]);
    AfterSplits(Empty, f, [Save(1)]);
    AfterOne(After(Empty, f), Save(1));
  }

  /** Every worker on the session has stopped and its lines are still locked. */
  ghost predicate Stranded(s: State, id: nat, g: Grain) {
    && id in s.counts && (s.counts[id].status == Posted || s.counts[id].status == Cancelled)
    && LockedBy(s, id, g) && forall w :: w in s.workers ==> s.workers[w].id != id
  }

  lemma {:induction false} StepStranded(s: State, step: Step, id: nat, g: Grain)
    requires Stranded(s, id, g)
    ensures Stranded(Next(s, step), id, g)
  {
    hide Free, OnHand, Enumerates, Ready;
  }

  /**
   * Posting and cancelling release the lines only after they have saved: if the process stops in
   * between, the lines stay locked in every continuation and no later count can cover them.
   */
  lemma {:induction false} StrandedForever(s: State, steps: seq<Step>, id: nat, g: Grain)
    requires Stranded(s, id, g)
    ensures Stranded(After(s, steps), id, g) && forall places :: g in places ==> !Free(After(s, steps), places)
  {
    if steps != [] {
      hide Next, Stranded;
      StrandedForever(s, steps[..|steps| - 1], id, g);
      StepStranded(After(s, steps[..|steps| - 1]), steps[|steps| - 1], id, g);
    }
    assert LockedBy(After(s, steps), id, g);
  }

  /** The save that closes a session holds its lines until its worker goes on to release them. */
  lemma {:induction false} StopStrands(s: State, w: nat, id: nat, g: Grain)
    requires w in s.workers && s.workers[w].Closing? && s.workers[w].id == id && LockedBy(s, id, g)
    requires forall v :: v in s.workers && v != w ==> s.workers[v].id != id
    ensures Stranded(Next(Next(s, Save(w)), Stop(w)), id, g)
    ensures !LockedBy(Next(Next(s, Save(w)), Release(w)), id, g)
  {
  }

  // ---------------------------------------------------------------------------------------
  // A worker that stops between posting and applying
  // ---------------------------------------------------------------------------------------

  lemma {:induction false} StepDropped(s: State, step: Step, id: nat)
    requires HandsOk(s) && id in s.batches && s.batches[id].fate == Dropped
    ensures id in Next(s, step).batches && Next(s, step).batches[id] == s.batches[id]
  {
    hide Free, OnHand, Ready, Enumerates, Changed;
  }

  /** Nobody ever applies a dropped variance: later attempts find the key used. */
  lemma {:induction false} DroppedForever(s: State, steps: seq<Step>, id: nat)
    requires HandsOk(s) && id in s.batches && s.batches[id].fate == Dropped
    ensures var t := After(s, steps); HandsOk(t) && id in t.batches && t.batches[id] == s.batches[id]
  {
    if steps != [] {
      hide Next, HandsOk;
      DroppedForever(s, steps[..|steps| - 1], id);
      StepHands(After(s, steps[..|steps| - 1]), steps[|steps| - 1]);
      StepDropped(After(s, steps[..|steps| - 1]), steps[|steps| - 1], id);
    }
  }

  /** Post the variance, stop, and post again. */
  function PostTwice(id: nat, g: Grain): seq<Step> {
    [Load(0, id, Posted), Book(0, [g]), Stop(0)] + [Load(1, id, Posted), Book(1, [g])] + [Stamp(1), Save(1)]
  }

  lemma {:induction false} BooksAndStops(s: State, id: nat, g: Grain)
    requires s.workers == map[] && id in s.counts && s.counts[id].status == Approved && id !in s.batches
    requires Ready(s.counts[id]) == {g}
    ensures var m := Variance(s.counts[id], id, g);
            After(s, [Load(0, id, Posted), Book(0, [g]), Stop(0)])
            == s.(ledger := s.ledger + [m], batches := s.batches[id := Batch([m], Dropped)])
  {
    hide Variance, After, Next;
    assert [Load(0, id, Posted), Book(0, [g]), Stop(0)] == [Load(0, id, Posted), Book(0, [g])] + [Stop(0)];
    AfterSplits(s, [Load(0, id, Posted), Book(0, [g])], [Stop(0)]);
    AfterTwo(s, Load(0, id, Posted), Book(0, [g]));
    BooksOne(s, id, g);
    var t := Next(Next(s, Load(0, id, Posted)), Book(0, [g]));
    AfterOne(t, Stop(0));
    StopsApplying(t, id, {g});
  }

  lemma {:induction false} BooksOne(s: State, id: nat, g: Grain)
    requires s.workers == map[] && id in s.counts && s.counts[id].status == Approved && id !in s.batches
    requires Ready(s.counts[id]) == {g}
    ensures var m := Variance(s.counts[id], id, g);
            Next(Next(s, Load(0, id, Posted)), Book(0, [g]))
            == s.(ledger := s.ledger + [m], batches := s.batches[id := Batch([m], InHand(0))], workers := map[0 := Applying(id, {g})])
  {
    hide Variance;
    var c := s.counts[id];
    assert g in Ready(c) && Enumerates([g], {g}) by { OneEnumerates(g); }
    BookedOne(c, id, g);
    hide Ready;
    hide Variances, Enumerates;
    assert s.workers[0 := Booking(id)][0 := Applying(id, {g})] == map[0 := Applying(id, {g})];
  }

  lemma {:induction false} OneEnumerates(g: Grain)
    ensures Enumerates([g], {g})
  {
  }

  lemma {:induction false} BookedOne(c: Count, id: nat, g: Grain)
    requires g in c.sheets
    ensures Variances(c, id, [g]) == [Variance(c, id, g)]
  {
    hide Variance;
  }

  lemma {:induction false} StopsApplying(t: State, id: nat, places: set<Grain>)
    requires t.workers == map[0 := Applying(id, places)] && id in t.batches
    ensures Next(t, Stop(0)) == t.(batches := t.batches[id := t.batches[id].(fate := Dropped)], workers := map[])
  {
    assert Next(t, Stop(0)).workers == map[];
  }

  lemma {:induction false} BooksAgain(s: State, id: nat, g: Grain)
    requires s.workers == map[] && id in s.counts && s.counts[id].status == Approved && id in s.batches
    requires Ready(s.counts[id]) == {g}
    ensures After(s, [Load(1, id, Posted), Book(1, [g])]) == s.(workers := map[1 := Stamping(id, {g})])
  {
    hide After;
    assert g in Ready(s.counts[id]);
    assert Enumerates([g], {g});
    AfterTwo(s, Load(1, id, Posted), Book(1, [g]));
  }

  lemma {:induction false} StampsAndSaves(s: State, id: nat, g: Grain)
    requires s.workers == map[1 := Stamping(id, {g})] && id in s.counts && s.counts[id].status == Approved
    ensures var t := After(s, [Stamp(1), Save(1)]);
            && id in t.counts && t.counts[id].status == Posted
            && t.ledger == s.ledger && t.balances == s.balances && t.changes == s.changes && t.batches == s.batches
  {
    hide After;
    AfterTwo(s, Stamp(1), Save(1));
  }

  /**
   * So a variance can be in the ledger, stamped and its session posted, with the stored balance where it
   * was: the worker stops between posting and applying, and the next one only replays.
   */
  lemma {:induction false} StopLeavesBalance(s: State, id: nat, g: Grain)
    requires s.workers == map[] && id in s.counts && s.counts[id].status == Approved && id !in s.batches
    requires Ready(s.counts[id]) == {g}
    ensures var t := After(s, PostTwice(id, g));
            && id in t.counts && t.counts[id].status == Posted && t.balances == s.balances
            && t.ledger == s.ledger + [Variance(s.counts[id], id, g)]
            && id in t.batches && t.batches[id].fate == Dropped
  {
    hide After, Variance, Next, Ready;
    var a, b, c := [Load(0, id, Posted), Book(0, [g]), Stop(0)], [Load(1, id, Posted), Book(1, [g])], [Stamp(1), Save(1)];
    BooksAndStops(s, id, g);
    var t := After(s, a);
    BooksAgain(t, id, g);
    StampsAndSaves(After(t, b), id, g);
    AfterSplits(s, a, b);
    AfterSplits(s, a + b, c);
  }

  // ---------------------------------------------------------------------------------------
  // A worker left alone
  // ---------------------------------------------------------------------------------------

  predicate FrozenAt(l: Line, g: Grain, onHand: int) {
    && l.item == Item(g.sku, g.brand) && l.expected == onHand && l.counted == None && l.reason == None && l.check == StockCount.Pending
    && l.locked && !l.posted && !l.required
  }

  /** A new count freezes the balances it covers, or is cancelled at once when another count holds one of them. */
  lemma {:induction false} CreatedExactlyWhen(s: State, id: nat, places: set<Grain>)
    requires id !in s.counts
    ensures var t := Next(s, Create(id, places));
            && id in t.counts && t == s.(counts := s.counts[id := t.counts[id]])
            && var c := t.counts[id];
               && (c.status == Draft <==> forall jd, g :: g in places ==> !LockedBy(s, jd, g))
               && (c.status == Draft ==>
                     && c.history == [Draft] && c.frozenAt == |s.changes| && c.ledgerAt == |s.ledger| && c.sheets.Keys == places
                     && forall g :: g in places ==> FrozenAt(c.sheets[g], g, OnHand(s.balances, g)))
               && (c.status != Draft ==> c.status == Cancelled && c.history == [Draft, Cancelled] && c.sheets == map[])
  {
    hide OnHand;
    assert Free(s, places) <==> forall jd, g :: g in places ==> !LockedBy(s, jd, g);
    hide LockedBy;
  }

  /** Movements of others change the ledger or the stored balances, never both in one step. */
  lemma {:induction false} OthersMove(s: State, g: Grain, q: int, h: Grain)
    ensures var t := Next(s, OtherPost(g, q));
            t == s.(ledger := t.ledger) && Sum(t.ledger, h) == Sum(s.ledger, h) + if g == h then q else 0
    ensures var t := Next(s, OtherChange(g, q));
            && t == s.(balances := t.balances, changes := t.changes)
            && OnHand(t.balances, h) == OnHand(s.balances, h) + if g == h then q else 0
  {
    var m := [Move(g, q, None)];
    SumSplits(s.ledger, m, h);
    ChangedAdds(s.balances, m, h);
    assert Sum(m, h) == (if g == h then q else 0) by { assert m[..0] == []; }
    hide OnHand, Sum, Changed;
  }

  /** A worker that records an entry writes it to its line and to no other. */
  lemma {:induction false} AloneRecords(s: State, w: nat, id: nat, g: Grain, entry: Entry)
    requires w !in s.workers && id in s.counts && s.counts[id].status == Counting && g in s.counts[id].sheets && entry.counted.Some?
    ensures var t, c := Next(Next(Next(s, LoadRecord(w, id)), Write(w, g, entry)), Stop(w)), s.counts[id];
            && t == s.(counts := t.counts) && t.counts == s.counts[id := c.(sheets := c.sheets[g := Recorded(c.sheets[g], entry)])]
  {
    hide Recorded;
    var u := Next(Next(s, LoadRecord(w, id)), Write(w, g, entry));
    assert u.workers == s.workers[w := Recording(id)];
    assert Dismiss(Dropping(u, w), w).workers == s.workers;
  }

  /** A worker that changes a status does so, and a cancellation releases the lines. */
  lemma {:induction false} AloneSaves(s: State, w: nat, id: nat, to: Status)
    requires w !in s.workers && id in s.counts && Allowed(s.counts[id].status, to) && to != Posted
    ensures var t, c := Next(Next(Next(s, Load(w, id, to)), Save(w)), Release(w)), s.counts[id];
            && t.workers == s.workers && t == s.(counts := t.counts)
            && t.counts == s.counts[id := c.(status := to, history := c.history + [to],
                 sheets := if to == Cancelled then map g | g in c.sheets :: c.sheets[g].(locked := false) else c.sheets)]
  {
    var c := s.counts[id];
    var u := Next(Next(s, Load(w, id, to)), Save(w));
    assert c.status != to && c.status != Posted;
    if to == Cancelled {
      assert u.workers == s.workers[w := Releasing(id)];
      assert Dismiss(u, w).workers == s.workers;
    } else {
      assert u.workers == s.workers;
    }
  }

  /** What became of the lines of a session a worker posted on its own. */
  ghost predicate PostedWhole(before: Count, after: Count) {
    && after.status == Posted && after.history == before.history + [Posted] && after.sheets.Keys == before.sheets.Keys
    && forall g :: g in before.sheets ==>
         after.sheets[g] == before.sheets[g].(locked := false, posted := before.sheets[g].posted || before.sheets[g].required)
  }

  ghost function AlonePosting(s: State, w: nat, id: nat, order: seq<Grain>): State {
    Next(Next(Next(Next(Next(Next(s, Load(w, id, Posted)), Book(w, order)), Apply(w)), Stamp(w)), Save(w)), Release(w))
  }

  lemma {:induction false} SumOfVariances(c: Count, id: nat, order: seq<Grain>, g: Grain)
    requires Distinct(order) && forall i :: 0 <= i < |order| ==> order[i] in c.sheets
    ensures g in order ==> g in c.sheets
    ensures Sum(Variances(c, id, order), g)
         == if g in order && c.sheets[g].counted.Some? then c.sheets[g].counted.value - c.sheets[g].expected else 0
  {
    if order != [] {
      var n := |order| - 1;
      SumOfVariances(c, id, order[..n], g);
      assert Variances(c, id, order)[..n] == Variances(c, id, order[..n]);
      assert order[n] !in order[..n];
    }
  }

  lemma {:induction false} BookedAlone(s: State, w: nat, id: nat, order: seq<Grain>)
    requires w !in s.workers && id in s.counts && s.counts[id].status == Approved && id !in s.batches
    requires order != [] && Enumerates(order, Ready(s.counts[id]))
    ensures Distinct(order) && forall i :: 0 <= i < |order| ==> order[i] in s.counts[id].sheets
    ensures var c := s.counts[id];
            var moves := Variances(c, id, order);
            Next(Next(Next(s, Load(w, id, Posted)), Book(w, order)), Apply(w))
            == s.(ledger := s.ledger + moves, balances := Changed(s.balances, moves), changes := s.changes + moves,
                  batches := s.batches[id := Batch(moves, Applied)], workers := s.workers[w := Stamping(id, Ready(c))])
  {
    hide Changed, Variances, Saved, Opened, Dropping, Dismiss, Recorded, Free;
    var c := s.counts[id];
    assert forall i :: 0 <= i < |order| ==> order[i] in Ready(c);
    var moves := Variances(c, id, order);
    assert s.batches[id := Batch(moves, InHand(w))][id := Batch(moves, Applied)] == s.batches[id := Batch(moves, Applied)];
  }

  lemma {:induction false} ClosedAlone(s: State, w: nat, id: nat, places: set<Grain>)
    requires w in s.workers && s.workers[w] == Stamping(id, places) && id in s.counts && s.counts[id].status == Approved
    requires places == Ready(s.counts[id])
    ensures var t := Next(Next(Next(s, Stamp(w)), Save(w)), Release(w));
            && id in t.counts && t == s.(counts := s.counts[id := t.counts[id]], workers := t.workers)
            && t.workers == Dismiss(s, w).workers && PostedWhole(s.counts[id], t.counts[id])
  {
    hide Dismiss, Opened, Dropping, Recorded, Free, Booked, Changed;
    var u := Next(Next(s, Stamp(w)), Save(w));
    DismissAny(s, u, w, Releasing(id));
    var t := Next(u, Release(w));
    assert t.counts == s.counts[id := t.counts[id]];
  }

  lemma {:induction false} DismissAny(s: State, u: State, w: nat, x: Worker)
    requires w in s.workers && u.workers == s.workers[w := x]
    ensures Dismiss(u, w) == u.(workers := Dismiss(s, w).workers)
  {
  }

  /**
   * A worker that posts an approved session on its own enters each variance once, in the ledger and in the stored
   * balance, stamps the lines, closes the session and releases every lock.
   */
  lemma {:induction false} AlonePosts(s: State, w: nat, id: nat, order: seq<Grain>, g: Grain)
    requires w !in s.workers && id in s.counts && s.counts[id].status == Approved && id !in s.batches
    requires order != [] && Enumerates(order, Ready(s.counts[id]))
    ensures var t, c := AlonePosting(s, w, id, order), s.counts[id];
            var posts := g in c.sheets && c.sheets[g].required && !c.sheets[g].posted && c.sheets[g].counted.Some?;
            var units := if posts then c.sheets[g].counted.value - c.sheets[g].expected else 0;
            && id in t.counts && PostedWhole(c, t.counts[id]) && t.counts == s.counts[id := t.counts[id]] && t.workers == s.workers
            && OnHand(t.balances, g) == OnHand(s.balances, g) + units && Sum(t.ledger, g) == Sum(s.ledger, g) + units
            && |t.ledger| == |s.ledger| + |order| && id in t.batches && t.batches[id].fate == Applied
  {
    hide Next, OnHand, Sum, Changed, PostedWhole;
    var c := s.counts[id];
    BookedAlone(s, w, id, order);
    var moves := Variances(c, id, order);
    var u := Next(Next(Next(s, Load(w, id, Posted)), Book(w, order)), Apply(w));
    ClosedAlone(u, w, id, Ready(c));
    assert Dismiss(u, w).workers == s.workers;
    ChangedAdds(s.balances, moves, g);
    SumSplits(s.ledger, moves, g);
    assert g in order <==> g in Ready(c);
    SumOfVariances(c, id, order, g);
  }
}
