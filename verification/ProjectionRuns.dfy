/**
 * Ledger and balances while posters and rebuilds run side by side
 * (backend/modules/inventory/balance.service.js, backend/modules/inventory/ledger.service.js). A poster
 * records its batch and applies it later, or stops in between; a rebuild aggregates the ledger, then
 * reads the balances, then writes, each a step of its own.
 */
module ProjectionRuns {
  import opened Options
  import opened Projection

  /** Whether the poster of a batch still holds it, has applied it, or has stopped. */
  datatype Fate = InHand | Folded | Lost

  datatype Posting = Posting(ms: seq<Movement>, fate: Fate)

  /** A rebuild at work: how far the ledger went when it aggregated, and the orphans it found. */
  datatype Rebuild = Rebuild(scope: Scope, asOf: Option<int>, upTo: nat, orphans: Option<set<Grain>>)

  datatype State = State(postings: seq<Posting>, balances: Balances, rebuilds: map<nat, Rebuild>)

  datatype Step =
    | Record(ms: seq<Movement>)
    | Apply(i: nat)
    | Lose(i: nat)
    | Aggregate(r: nat, scope: Scope, asOf: Option<int>)
    | Find(r: nat)
    | Write(r: nat)
    | Stop(r: nat)

  /** The whole ledger. */
  function All(ps: seq<Posting>): seq<Movement> {
    if ps == [] then [] else All(ps[..|ps| - 1]) + ps[|ps| - 1].ms
  }

  /** The movements whose posters are done with them, one way or the other. */
  function Settled(ps: seq<Posting>): seq<Movement> {
    if ps == [] then []
    else
      var p := ps[|ps| - 1];
      Settled(ps[..|ps| - 1]) + if p.fate == InHand then [] else p.ms
  }

  function Snapshot(s: State, rb: Rebuild): Balances {
    Aggregated(All(if rb.upTo <= |s.postings| then s.postings[..rb.upTo] else s.postings), rb.scope, rb.asOf)
  }

  function Without(rebuilds: map<nat, Rebuild>, r: nat): map<nat, Rebuild> {
    map q | q in rebuilds && q != r :: rebuilds[q]
  }

  function Next(s: State, step: Step): State {
    match step
    case Record(ms) => s.(postings := s.postings + [Posting(ms, InHand)])
    case Apply(i) =>
      if i >= |s.postings| || s.postings[i].fate != InHand then s
      else s.(postings := s.postings[i := s.postings[i].(fate := Folded)], balances := Applied(s.balances, s.postings[i].ms))
    case Lose(i) =>
      if i >= |s.postings| || s.postings[i].fate != InHand then s
      else s.(postings := s.postings[i := s.postings[i].(fate := Lost)])
    case Aggregate(r, scope, asOf) =>
      if r in s.rebuilds then s else s.(rebuilds := s.rebuilds[r := Rebuild(scope, asOf, |s.postings|, None)])
    case Find(r) =>
      if r !in s.rebuilds then s
      else
        var rb := s.rebuilds[r];
        s.(rebuilds := s.rebuilds[r := rb.(orphans := Some(Orphans(s.balances, Snapshot(s, rb), rb.scope, rb.asOf)))])
    case Write(r) =>
      if r !in s.rebuilds || s.rebuilds[r].orphans.None? then s
      else
        var rb := s.rebuilds[r];
        s.(balances := Rewritten(s.balances, Snapshot(s, rb), rb.orphans.value), rebuilds := Without(s.rebuilds, r))
    case Stop(r) => s.(rebuilds := Without(s.rebuilds, r))
  }

  function Run(s: State, steps: seq<Step>): State {
    if steps == [] then s else Next(Run(s, steps[..|steps| - 1]), steps[|steps| - 1])
  }

  const Empty := State([], map[], map[])

  // ---------------------------------------------------------------------------------------
  // Figures
  // ---------------------------------------------------------------------------------------

  /** The figures of a balance that add up: what is on hand, what is reserved, how many movements. */
  datatype Figures = Figures(onHand: int, reserved: int, count: int)

  function FiguresOf(d: Delta): Figures {
    Figures(d.onHand, d.reserved, d.count)
  }

  function Plus(a: Figures, b: Figures): Figures {
    Figures(a.onHand + b.onHand, a.reserved + b.reserved, a.count + b.count)
  }

  function Sums(ms: seq<Movement>, g: Grain): Figures {
    FiguresOf(Replayed(ms, g))
  }

  lemma {:induction false} SumsSplit(s: seq<Movement>, t: seq<Movement>, g: Grain)
    ensures Sums(s + t, g) == Plus(Sums(s, g), Sums(t, g))
  {
    hide Replayed, Combine;
    ReplaySplits(s, t, g);
    FiguresAdd(Replayed(s, g), Replayed(t, g));
  }

  lemma {:induction false} FiguresAdd(a: Delta, b: Delta)
    ensures FiguresOf(Combine(a, b)) == Plus(FiguresOf(a), FiguresOf(b))
  {
  }

  lemma {:induction false} SumsTouch(ms: seq<Movement>, g: Grain)
    ensures Sums(ms, g) == Figures(0, 0, 0) <==> g !in GrainsOf(ms)
    ensures Sums(ms, g).count == 0 <==> g !in GrainsOf(ms)
  {
    if g in GrainsOf(ms) { CountGrows(ms, g); } else { Untouched(ms, g); }
  }

  /** The stored figures are those of the movements whose posters are done. */
  ghost predicate InStep(s: State, g: Grain) {
    FiguresOf(Stored(s.balances, g)) == Sums(Settled(s.postings), g)
  }

  /** The stored balance is the replay of the whole ledger. */
  ghost predicate AgreesAt(s: State, g: Grain) {
    FiguresOf(Stored(s.balances, g)) == Sums(All(s.postings), g)
  }

  ghost predicate NothingInHand(ps: seq<Posting>, g: Grain) {
    forall i :: 0 <= i < |ps| && ps[i].fate == InHand ==> g !in GrainsOf(ps[i].ms)
  }

  lemma {:induction false} SettledIsAll(ps: seq<Posting>, g: Grain)
    requires NothingInHand(ps, g)
    ensures Replayed(Settled(ps), g) == Replayed(All(ps), g)
  {
    hide Replayed, Combine;
    if ps != [] {
      var n := |ps| - 1;
      SettledIsAll(ps[..n], g);
      ReplaySplits(All(ps[..n]), ps[n].ms, g);
      ReplaySplits(Settled(ps[..n]), ps[n].ms, g);
      assert Settled(ps[..n]) + [] == Settled(ps[..n]);
      if ps[n].fate == InHand {
        Untouched(ps[n].ms, g);
        CombineLaws(Replayed(All(ps[..n]), g), Zero, Zero);
      }
    }
  }

  /** With nothing of the balance in anybody's hand, being in step is agreeing with the ledger. */
  lemma {:induction false} InStepIsAgreement(s: State, g: Grain)
    requires NothingInHand(s.postings, g)
    ensures InStep(s, g) <==> AgreesAt(s, g)
  {
    SettledIsAll(s.postings, g);
  }

  lemma {:induction false} SettleOne(ps: seq<Posting>, i: nat, fate: Fate, g: Grain)
    requires i < |ps| && ps[i].fate == InHand && fate != InHand
    ensures Replayed(Settled(ps[i := ps[i].(fate := fate)]), g) == Combine(Replayed(Settled(ps), g), Replayed(ps[i].ms, g))
    decreases |ps|
  {
    hide Replayed, Combine;
    var n := |ps| - 1;
    var qs := ps[i := ps[i].(fate := fate)];
    var front := Settled(ps[..n]);
    assert front + [] == front;
    if i == n {
      assert qs[..n] == ps[..n];
      ReplaySplits(front, ps[n].ms, g);
    } else {
      assert qs[..n] == ps[..n][i := ps[i].(fate := fate)];
      SettleOne(ps[..n], i, fate, g);
      var t := if ps[n].fate == InHand then [] else ps[n].ms;
      ReplaySplits(front, t, g);
      ReplaySplits(Settled(qs[..n]), t, g);
      Rotate(Replayed(front, g), Replayed(ps[i].ms, g), Replayed(t, g));
    }
  }

  // ---------------------------------------------------------------------------------------
  // What a rebuild has seen
  // ---------------------------------------------------------------------------------------

  /** The movements later than the date. */
  function Later(ms: seq<Movement>, asOf: Option<int>): seq<Movement> {
    if ms == [] || asOf.None? then []
    else
      var m := ms[|ms| - 1];
      var front := Later(ms[..|ms| - 1], asOf);
      if m.effective.Some? && m.effective.value <= asOf.value then front else front + [m]
  }

  function Seen(ps: seq<Posting>, rb: Rebuild, i: nat): seq<Movement>
    requires i < |ps|
  {
    if i < rb.upTo then Dated(ps[i].ms, rb.asOf) else []
  }

  function Unseen(ps: seq<Posting>, rb: Rebuild, i: nat): seq<Movement>
    requires i < |ps|
  {
    if i < rb.upTo then Later(ps[i].ms, rb.asOf) else ps[i].ms
  }

  /** What the first n postings gave the aggregation. */
  function SeenOf(ps: seq<Posting>, rb: Rebuild, n: nat): seq<Movement>
    requires n <= |ps|
  {
    if n == 0 then [] else SeenOf(ps, rb, n - 1) + Seen(ps, rb, n - 1)
  }

  /** Counted by the rebuild although the poster is still going to apply it. */
  function Early(ps: seq<Posting>, rb: Rebuild, n: nat): seq<Movement>
    requires n <= |ps|
  {
    if n == 0 then [] else Early(ps, rb, n - 1) + if ps[n - 1].fate == InHand then Seen(ps, rb, n - 1) else []
  }

  /** Not seen by the rebuild although the poster is done with it. */
  function Overtaken(ps: seq<Posting>, rb: Rebuild, n: nat): seq<Movement>
    requires n <= |ps|
  {
    if n == 0 then [] else Overtaken(ps, rb, n - 1) + if ps[n - 1].fate == InHand then [] else Unseen(ps, rb, n - 1)
  }

  lemma {:induction false} DatedConcat(s: seq<Movement>, t: seq<Movement>, asOf: Option<int>)
    ensures Dated(s + t, asOf) == Dated(s, asOf) + Dated(t, asOf)
    decreases |t|
  {
    if t == [] {
      assert s + t == s && Dated(s, asOf) + [] == Dated(s, asOf);
    } else if asOf.Some? {
      assert (s + t)[..|s + t| - 1] == s + t[..|t| - 1];
      DatedConcat(s, t[..|t| - 1], asOf);
    }
  }

  lemma {:induction false} SumsByDate(ms: seq<Movement>, asOf: Option<int>, g: Grain)
    ensures Sums(ms, g) == Plus(Sums(Dated(ms, asOf), g), Sums(Later(ms, asOf), g))
  {
    hide Replayed, FiguresOf;
    if ms == [] || asOf.None? {
      assert ms + [] == ms;
      SumsSplit(ms, [], g);
    } else {
      var n := |ms| - 1;
      SumsByDate(ms[..n], asOf, g);
      assert ms[..n] + [ms[n]] == ms;
      SumsSplit(ms[..n], [ms[n]], g);
      SumsSplit(Dated(ms[..n], asOf), [ms[n]], g);
      SumsSplit(Later(ms[..n], asOf), [ms[n]], g);
    }
  }

  lemma {:induction false} SeenIsSnapshot(ps: seq<Posting>, rb: Rebuild, n: nat)
    requires n <= |ps|
    ensures SeenOf(ps, rb, n) == Dated(All(if rb.upTo <= n then ps[..rb.upTo] else ps[..n]), rb.asOf)
  {
    hide Dated, SeenOf, All;
    if n == 0 {
      NoneSeen(ps, rb);
      assert ps[..0] == [];
    } else {
      SeenIsSnapshot(ps, rb, n - 1);
      SeenSnoc(ps, rb, n);
      if n <= rb.upTo {
        AllUpTo(ps, n);
        DatedConcat(All(ps[..n - 1]), ps[n - 1].ms, rb.asOf);
      }
    }
  }

  lemma {:induction false} NoneSeen(ps: seq<Posting>, rb: Rebuild)
    ensures SeenOf(ps, rb, 0) == [] && All([]) == [] && Dated([], rb.asOf) == []
  {
  }

  lemma {:induction false} SeenSnoc(ps: seq<Posting>, rb: Rebuild, n: nat)
    requires 1 <= n <= |ps|
    ensures SeenOf(ps, rb, n) == SeenOf(ps, rb, n - 1) + if n <= rb.upTo then Dated(ps[n - 1].ms, rb.asOf) else []
  {
  }

  lemma {:induction false} AllUpTo(ps: seq<Posting>, n: nat)
    requires 1 <= n <= |ps|
    ensures All(ps[..n]) == All(ps[..n - 1]) + ps[n - 1].ms
  {
    assert ps[..n][..n - 1] == ps[..n - 1];
  }

  /** Seen and overtaken together are what is settled and what was counted early. */
  lemma {:induction false} SeenAndOvertaken(ps: seq<Posting>, rb: Rebuild, n: nat, g: Grain)
    requires n <= |ps|
    ensures Plus(Sums(SeenOf(ps, rb, n), g), Sums(Overtaken(ps, rb, n), g)) ==
            Plus(Sums(Settled(ps[..n]), g), Sums(Early(ps, rb, n), g))
  {
    hide Sums, Dated, Later;
    if n == 0 {
      assert ps[..0] == [];
    } else {
      SeenAndOvertaken(ps, rb, n - 1, g);
      var p := ps[n - 1];
      var hand := p.fate == InHand;
      assert ps[..n][..n - 1] == ps[..n - 1];
      SumsSplit(SeenOf(ps, rb, n - 1), Seen(ps, rb, n - 1), g);
      SumsSplit(Overtaken(ps, rb, n - 1), if hand then [] else Unseen(ps, rb, n - 1), g);
      SumsSplit(Early(ps, rb, n - 1), if hand then Seen(ps, rb, n - 1) else [], g);
      SumsSplit(Settled(ps[..n - 1]), if hand then [] else p.ms, g);
      SumsByDate(p.ms, rb.asOf, g);
      NoSums(g);
    }
  }

  lemma {:induction false} NoSums(g: Grain)
    ensures Sums([], g) == Figures(0, 0, 0)
  {
  }

  // ---------------------------------------------------------------------------------------
  // The write of a rebuild
  // ---------------------------------------------------------------------------------------

  /** The rebuild writes this balance: it aggregated it, or found it an orphan. */
  predicate Overwrites(s: State, rb: Rebuild, g: Grain) {
    g in Snapshot(s, rb) || (rb.orphans.Some? && g in rb.orphans.value && g in s.balances)
  }

  /** The orphans a rebuild found are balances it compares. */
  ghost predicate OrphansOk(s: State, rb: Rebuild) {
    && rb.upTo <= |s.postings|
    && (rb.orphans.Some? ==> forall g :: g in rb.orphans.value ==> Compares(rb.scope, rb.asOf, g))
  }

  lemma {:induction false} WriteStores(s: State, r: nat, g: Grain)
    requires r in s.rebuilds && s.rebuilds[r].orphans.Some? && OrphansOk(s, s.rebuilds[r])
    ensures var rb, after := s.rebuilds[r], Next(s, Write(r));
            if Overwrites(s, rb, g) then FiguresOf(Stored(after.balances, g)) == Sums(SeenOf(s.postings, rb, |s.postings|), g)
            else Stored(after.balances, g) == Stored(s.balances, g)
  {
    hide Replayed;
    var rb := s.rebuilds[r];
    SeenIsSnapshot(s.postings, rb, |s.postings|);
    var seen := SeenOf(s.postings, rb, |s.postings|);
    assert seen == Dated(All(s.postings[..rb.upTo]), rb.asOf);
    if Overwrites(s, rb, g) && g !in Snapshot(s, rb) {
      assert Within(rb.scope, g);
      Untouched(seen, g);
    }
  }

  /**
   * Writing keeps a balance in step exactly when the rebuild does not write it, or what it counted
   * ahead of posters still at work makes up for what posters finished behind its back.
   */
  lemma {:induction false} WriteKeepsExactlyWhen(s: State, r: nat, g: Grain)
    requires InStep(s, g) && r in s.rebuilds && s.rebuilds[r].orphans.Some? && OrphansOk(s, s.rebuilds[r])
    ensures var rb, n := s.rebuilds[r], |s.postings|;
            InStep(Next(s, Write(r)), g) <==>
              !Overwrites(s, rb, g) || Sums(Early(s.postings, rb, n), g) == Sums(Overtaken(s.postings, rb, n), g)
  {
    hide Sums, Overwrites, Snapshot, Rewritten, Stored;
    WriteStores(s, r, g);
    SeenAndOvertaken(s.postings, s.rebuilds[r], |s.postings|, g);
    assert s.postings[..|s.postings|] == s.postings;
  }

  /** A race of one kind alone always shows: it keeps the balance in step exactly when it does not touch it. */
  lemma {:induction false} OneRaceShows(s: State, r: nat, g: Grain)
    requires InStep(s, g) && r in s.rebuilds && s.rebuilds[r].orphans.Some? && OrphansOk(s, s.rebuilds[r])
    requires Overwrites(s, s.rebuilds[r], g)
    ensures var rb, n := s.rebuilds[r], |s.postings|;
            var early, overtaken := Early(s.postings, rb, n), Overtaken(s.postings, rb, n);
            && (g !in GrainsOf(early) ==> (InStep(Next(s, Write(r)), g) <==> g !in GrainsOf(overtaken)))
            && (g !in GrainsOf(overtaken) ==> (InStep(Next(s, Write(r)), g) <==> g !in GrainsOf(early)))
  {
    hide Sums, Overwrites, Next, Early, Overtaken, GrainsOf;
    WriteKeepsExactlyWhen(s, r, g);
    var rb, n := s.rebuilds[r], |s.postings|;
    SumsTouch(Early(s.postings, rb, n), g);
    SumsTouch(Overtaken(s.postings, rb, n), g);
  }

  // ---------------------------------------------------------------------------------------
  // Every step, every run
  // ---------------------------------------------------------------------------------------

  /**
   * The steps that put a balance out of step: a poster that stops with it in hand, a batch applied in
   * which another balance is written with its key, and a rebuild that overwrites it while what it
   * counted early is not what it missed.
   */
  ghost predicate Disturbs(s: State, step: Step, g: Grain) {
    match step
    case Lose(i) => i < |s.postings| && s.postings[i].fate == InHand && g in GrainsOf(s.postings[i].ms)
    case Apply(i) =>
      i < |s.postings| && s.postings[i].fate == InHand && g in GrainsOf(s.postings[i].ms) && !KeyToItself(s.postings[i].ms, g)
    case Write(r) =>
      && r in s.rebuilds && s.rebuilds[r].orphans.Some? && Overwrites(s, s.rebuilds[r], g)
      && Sums(Early(s.postings, s.rebuilds[r], |s.postings|), g) != Sums(Overtaken(s.postings, s.rebuilds[r], |s.postings|), g)
    case _ => false
  }

  ghost predicate RebuildsOk(s: State) {
    forall r :: r in s.rebuilds ==> OrphansOk(s, s.rebuilds[r])
  }

  lemma {:induction false} StepRebuilds(s: State, step: Step)
    requires RebuildsOk(s)
    ensures RebuildsOk(Next(s, step))
  {
    hide Aggregated, Applied, Rewritten, Within;
  }

  lemma {:induction false} ApplyKeepsExactlyWhen(s: State, i: nat, g: Grain)
    requires InStep(s, g) && i < |s.postings| && s.postings[i].fate == InHand
    ensures InStep(Next(s, Apply(i)), g) <==> !Disturbs(s, Apply(i), g)
  {
    hide Replayed, Applies, Settled, Applied, KeyToItself, GrainsOf, Combine, Stored;
    var ms := s.postings[i].ms;
    SettleOne(s.postings, i, Folded, g);
    AppliedStores(s.balances, ms, g);
    AppliesExactlyWhen(ms, g);
    FiguresAdd(Stored(s.balances, g), Applies(ms, g));
    FiguresAdd(Replayed(Settled(s.postings), g), Replayed(ms, g));
  }

  lemma {:induction false} LoseKeepsExactlyWhen(s: State, i: nat, g: Grain)
    requires InStep(s, g) && i < |s.postings| && s.postings[i].fate == InHand
    ensures InStep(Next(s, Lose(i)), g) <==> !Disturbs(s, Lose(i), g)
  {
    hide Replayed, Settled, GrainsOf;
    SettleOne(s.postings, i, Lost, g);
    SumsTouch(s.postings[i].ms, g);
  }

  lemma {:induction false} RecordKeeps(s: State, ms: seq<Movement>)
    ensures Settled(Next(s, Record(ms)).postings) == Settled(s.postings)
  {
    var ps := s.postings + [Posting(ms, InHand)];
    assert ps[..|s.postings|] == s.postings;
  }

  /** A step keeps a balance in step exactly when it is not one of those. */
  lemma {:induction false} StepKeepsExactlyWhen(s: State, step: Step, g: Grain)
    requires InStep(s, g) && RebuildsOk(s)
    ensures InStep(Next(s, step), g) <==> !Disturbs(s, step, g)
  {
    hide Sums, Settled, Applied, Rewritten, Snapshot, Overwrites, OrphansOk, Orphans, Early, Overtaken;
    match step
    case Record(ms) => RecordKeeps(s, ms);
    case Apply(i) => if i < |s.postings| && s.postings[i].fate == InHand { ApplyKeepsExactlyWhen(s, i, g); }
    case Lose(i) => if i < |s.postings| && s.postings[i].fate == InHand { LoseKeepsExactlyWhen(s, i, g); }
    case Write(r) => if r in s.rebuilds && s.rebuilds[r].orphans.Some? { WriteKeepsExactlyWhen(s, r, g); }
    case Aggregate(_, _, _) =>
    case Find(_) =>
    case Stop(_) =>
  }

  ghost predicate Undisturbed(s: State, steps: seq<Step>, g: Grain) {
    forall k :: 0 <= k < |steps| ==> !Disturbs(Run(s, steps[..k]), steps[k], g)
  }

  ghost predicate AlwaysInStep(s: State, steps: seq<Step>, g: Grain) {
    forall k :: 0 <= k <= |steps| ==> InStep(Run(s, steps[..k]), g)
  }

  lemma {:induction false} RunRebuilds(s: State, steps: seq<Step>)
    requires RebuildsOk(s)
    ensures RebuildsOk(Run(s, steps))
  {
    if steps != [] {
      hide Next, RebuildsOk;
      RunRebuilds(s, steps[..|steps| - 1]);
      StepRebuilds(Run(s, steps[..|steps| - 1]), steps[|steps| - 1]);
    }
  }

  lemma {:induction false} PrefixSteps(s: State, steps: seq<Step>, k: nat)
    requires k < |steps|
    ensures Run(s, steps[..k + 1]) == Next(Run(s, steps[..k]), steps[k])
  {
    hide Next;
    assert steps[..k + 1][..k] == steps[..k];
  }

  /**
   * A balance is in step in every state of a run exactly when no step of the run disturbs it: no poster
   * stops with it in hand, no batch shares its key, and no rebuild overwrites it while what it counted
   * ahead of its poster differs from what was applied behind its back.
   */
  lemma {:induction false} InStepExactlyWhen(s: State, steps: seq<Step>, g: Grain)
    requires RebuildsOk(s) && InStep(s, g)
    ensures AlwaysInStep(s, steps, g) <==> Undisturbed(s, steps, g)
  {
    hide Next, Run, InStep, Disturbs, RebuildsOk;
    if AlwaysInStep(s, steps, g) {
      forall k | 0 <= k < |steps| ensures !Disturbs(Run(s, steps[..k]), steps[k], g) {
        PrefixSteps(s, steps, k);
        RunRebuilds(s, steps[..k]);
        assert InStep(Run(s, steps[..k]), g) && InStep(Run(s, steps[..k + 1]), g);
        StepKeepsExactlyWhen(Run(s, steps[..k]), steps[k], g);
      }
    }
    if Undisturbed(s, steps, g) {
      forall k | 0 <= k <= |steps| ensures InStep(Run(s, steps[..k]), g) { UndisturbedInStep(s, steps, g, k); }
    }
  }

  lemma {:induction false} UndisturbedInStep(s: State, steps: seq<Step>, g: Grain, k: nat)
    requires RebuildsOk(s) && InStep(s, g) && Undisturbed(s, steps, g) && k <= |steps|
    ensures InStep(Run(s, steps[..k]), g)
  {
    if k > 0 {
      hide Next, InStep, Disturbs, RebuildsOk;
      UndisturbedInStep(s, steps, g, k - 1);
      PrefixSteps(s, steps, k - 1);
      RunRebuilds(s, steps[..k - 1]);
      StepKeepsExactlyWhen(Run(s, steps[..k - 1]), steps[k - 1], g);
    } else {
      assert steps[..0] == [];
    }
  }

  ghost predicate PlainPostings(ps: seq<Posting>) {
    forall i, h :: 0 <= i < |ps| && h in GrainsOf(ps[i].ms) ==> PlainGrain(h)
  }

  /** What is recorded names brands and locations as this program has them. */
  ghost predicate PlainSteps(steps: seq<Step>) {
    forall k, h :: 0 <= k < |steps| && steps[k].Record? && h in GrainsOf(steps[k].ms) ==> PlainGrain(h)
  }

  lemma {:induction false} PlainRun(s: State, steps: seq<Step>)
    requires PlainPostings(s.postings) && PlainSteps(steps)
    ensures PlainPostings(Run(s, steps).postings)
  {
    if steps != [] {
      var n := |steps| - 1;
      PlainFront(steps, n);
      PlainRun(s, steps[..n]);
      var before, after := Run(s, steps[..n]).postings, Run(s, steps).postings;
      hide Run, GrainsOf, PlainGrain, Snapshot, Applied, Rewritten, Orphans;
      forall i, h | 0 <= i < |after| && h in GrainsOf(after[i].ms) ensures PlainGrain(h) {
        PlainNext(Run(s, steps[..n]), steps[n], i);
        assert Run(s, steps) == Next(Run(s, steps[..n]), steps[n]) by { LastStep(s, steps); }
        if i < |before| { assert after[i].ms == before[i].ms; }
      }
    }
  }

  lemma {:induction false} LastStep(s: State, steps: seq<Step>)
    requires steps != []
    ensures Run(s, steps) == Next(Run(s, steps[..|steps| - 1]), steps[|steps| - 1])
  {
  }

  lemma {:induction false} PlainNext(s: State, step: Step, i: nat)
    ensures var after := Next(s, step).postings;
            i < |after| ==> if i < |s.postings| then after[i].ms == s.postings[i].ms else step.Record? && after[i].ms == step.ms
  {
  }

  /** What is left of the disturbances: a poster that stops, and a rebuild that races. */
  ghost predicate StopsOrRaces(s: State, step: Step, g: Grain) {
    !step.Apply? && Disturbs(s, step, g)
  }

  lemma {:induction false} PlainNeverShares(s: State, step: Step, g: Grain)
    requires PlainPostings(s.postings)
    ensures Disturbs(s, step, g) <==> StopsOrRaces(s, step, g)
  {
    if step.Apply? && step.i < |s.postings| && g in GrainsOf(s.postings[step.i].ms) {
      PlainKeysApart(s.postings[step.i].ms, g);
    }
  }

  /**
   * With the brands and locations of this program, whatever the SKUs: a balance is in step throughout
   * exactly when no poster stops with it in hand and no rebuild races with its postings.
   */
  lemma {:induction false} PlainInStepExactlyWhen(s: State, steps: seq<Step>, g: Grain)
    requires InStep(s, g) && RebuildsOk(s) && PlainPostings(s.postings) && PlainSteps(steps)
    ensures AlwaysInStep(s, steps, g) <==> forall k :: 0 <= k < |steps| ==> !StopsOrRaces(Run(s, steps[..k]), steps[k], g)
  {
    InStepExactlyWhen(s, steps, g);
    hide Disturbs, Run, InStep, RebuildsOk, PlainPostings, StopsOrRaces;
    forall k | 0 <= k < |steps| ensures Disturbs(Run(s, steps[..k]), steps[k], g) <==> StopsOrRaces(Run(s, steps[..k]), steps[k], g) {
      assert PlainSteps(steps[..k]) by { PlainFront(steps, k); }
      PlainRun(s, steps[..k]);
      PlainNeverShares(Run(s, steps[..k]), steps[k], g);
    }
  }

  lemma {:induction false} PlainFront(steps: seq<Step>, k: nat)
    requires PlainSteps(steps) && k <= |steps|
    ensures PlainSteps(steps[..k])
  {
    forall i, h | 0 <= i < k && steps[..k][i].Record? && h in GrainsOf(steps[..k][i].ms) ensures PlainGrain(h) {
      assert steps[..k][i] == steps[i];
    }
  }

  /**
   * So whatever the batches, their order and the rebuilds among them: at the end of a run that never
   * disturbs a balance, with nothing of it in anybody's hand, its figures are those of the ledger
   * replayed in any order.
   */
  lemma {:induction false} IncrementalIsReplay(steps: seq<Step>, g: Grain, shuffled: seq<Movement>)
    requires Undisturbed(Empty, steps, g) && NothingInHand(Run(Empty, steps).postings, g)
    requires multiset(shuffled) == multiset(All(Run(Empty, steps).postings))
    ensures FiguresOf(Stored(Run(Empty, steps).balances, g)) == Sums(shuffled, g)
  {
    hide Run, Undisturbed, Replayed, NothingInHand;
    StartsInStep(g);
    UndisturbedInStep(Empty, steps, g, |steps|);
    assert steps[..|steps|] == steps;
    var s := Run(Empty, steps);
    InStepIsAgreement(s, g);
    OrderDoesNotMatter(shuffled, All(s.postings), g);
  }

  lemma {:induction false} StartsInStep(g: Grain)
    ensures InStep(Empty, g) && RebuildsOk(Empty)
  {
  }

  // ---------------------------------------------------------------------------------------
  // Rebuilds
  // ---------------------------------------------------------------------------------------

  /** Aggregate, find and write with nobody in between. */
  function Uninterrupted(s: State, r: nat, scope: Scope, asOf: Option<int>): State {
    Next(Next(Next(s, Aggregate(r, scope, asOf)), Find(r)), Write(r))
  }

  lemma {:induction false} UninterruptedIs(s: State, r: nat, scope: Scope, asOf: Option<int>)
    requires r !in s.rebuilds
    ensures var a := Aggregated(All(s.postings), scope, asOf);
            Uninterrupted(s, r, scope, asOf) == s.(balances := Rewritten(s.balances, a, Orphans(s.balances, a, scope, asOf)))
  {
    hide Aggregated, Rewritten, Orphans, All;
    assert s.postings[..|s.postings|] == s.postings;
    assert Uninterrupted(s, r, scope, asOf).rebuilds == s.rebuilds;
  }

  /**
   * Whatever was stored, a rebuild nothing interrupts sets what is on hand and reserved to the ledger's,
   * and the count too unless nothing is behind the balance and its quantities were zero already.
   */
  lemma {:induction false} RebuildHeals(s: State, r: nat, scope: Scope, g: Grain)
    requires r !in s.rebuilds && scope.sku in {None, Some(g.sku)} && scope.brand in {None, Some(g.brand)}
    requires scope.location in {None, Some(g.location)}
    ensures var t := Uninterrupted(s, r, scope, None);
            && Stored(t.balances, g).onHand == Units(All(s.postings), g, Physical)
            && Stored(t.balances, g).reserved == Units(All(s.postings), g, Allocation)
            && (AgreesAt(t, g) <==>
                  g in GrainsOf(All(s.postings)) || Stored(s.balances, g).count == 0
                  || Stored(s.balances, g).onHand != 0 || Stored(s.balances, g).reserved != 0)
  {
    hide Replayed, All;
    UninterruptedIs(s, r, scope, None);
    ClassesStayApart(All(s.postings), g);
    if g !in GrainsOf(All(s.postings)) {
      Untouched(All(s.postings), g);
    }
  }

  /**
   * But it agrees with the ledger, not with the posters still at work: a balance it heals is in step
   * afterwards exactly when nothing of it is in anybody's hand.
   */
  lemma {:induction false} HealedInStepExactlyWhen(s: State, r: nat, scope: Scope, g: Grain)
    requires r !in s.rebuilds && scope.sku in {None, Some(g.sku)} && scope.brand in {None, Some(g.brand)}
    requires scope.location in {None, Some(g.location)} && g in GrainsOf(All(s.postings))
    ensures InStep(Uninterrupted(s, r, scope, None), g) <==> NothingInHand(s.postings, g)
  {
    hide Replayed, All, Settled;
    UninterruptedIs(s, r, scope, None);
    RebuildHeals(s, r, scope, g);
    SettledCounts(s.postings, g);
  }

  lemma {:induction false} SettledCounts(ps: seq<Posting>, g: Grain)
    ensures Sums(Settled(ps), g).count <= Sums(All(ps), g).count
    ensures Sums(Settled(ps), g).count == Sums(All(ps), g).count <==> NothingInHand(ps, g)
    ensures NothingInHand(ps, g) ==> Sums(Settled(ps), g) == Sums(All(ps), g)
  {
    hide Sums;
    if ps != [] {
      var n := |ps| - 1;
      SettledCounts(ps[..n], g);
      SumsSplit(All(ps[..n]), ps[n].ms, g);
      SumsSplit(Settled(ps[..n]), if ps[n].fate == InHand then [] else ps[n].ms, g);
      NoSums(g);
      SumsTouch(ps[n].ms, g);
      CountsUp(ps[n].ms, g);
      assert NothingInHand(ps, g) <==> NothingInHand(ps[..n], g) && (ps[n].fate == InHand ==> g !in GrainsOf(ps[n].ms)) by {
        HandSnoc(ps, g);
      }
    } else {
      NoSums(g);
    }
  }

  lemma {:induction false} CountsUp(ms: seq<Movement>, g: Grain)
    ensures Sums(ms, g).count >= 0
  {
  }

  lemma {:induction false} HandSnoc(ps: seq<Posting>, g: Grain)
    requires ps != []
    ensures var n := |ps| - 1;
            NothingInHand(ps, g) <==> NothingInHand(ps[..n], g) && (ps[n].fate == InHand ==> g !in GrainsOf(ps[n].ms))
  {
    hide GrainsOf;
    var n := |ps| - 1;
    assert forall i :: 0 <= i < n ==> ps[..n][i] == ps[i];
  }

  /** A rebuild leaves alone what it neither aggregated nor found an orphan, so everything out of its scope. */
  lemma {:induction false} RebuildLeavesRest(s: State, r: nat, g: Grain)
    requires r in s.rebuilds && OrphansOk(s, s.rebuilds[r])
    ensures !Overwrites(s, s.rebuilds[r], g) ==> Stored(Next(s, Write(r)).balances, g) == Stored(s.balances, g)
    ensures var scope := s.rebuilds[r].scope;
            scope.sku.GetOr(g.sku) != g.sku || scope.brand.GetOr(g.brand) != g.brand || scope.location.GetOr(g.location) != g.location
            ==> !Overwrites(s, s.rebuilds[r], g)
  {
    hide Replayed, All, Dated;
  }

  /** A rebuild that stopped is gone, and writes nothing any more. */
  lemma {:induction false} StoppedWritesNothing(s: State, r: nat)
    ensures var t := Next(s, Stop(r));
            && t.balances == s.balances && t.postings == s.postings && Next(t, Write(r)) == t
            && (forall q :: q != r && q in s.rebuilds ==> q in t.rebuilds && t.rebuilds[q] == s.rebuilds[q])
  {
  }

  /**
   * A rebuild as of a date writes the live balances: one that is in step stays so exactly when none of
   * its movements is later than the date, or the rebuild did not write it.
   */
  lemma {:induction false} DatedRebuildExactlyWhen(s: State, r: nat, scope: Scope, date: int, g: Grain)
    requires r !in s.rebuilds && RebuildsOk(s) && InStep(s, g) && NothingInHand(s.postings, g)
    ensures var a := Aggregated(All(s.postings), scope, Some(date));
            InStep(Uninterrupted(s, r, scope, Some(date)), g) <==>
              g !in GrainsOf(Later(All(s.postings), Some(date)))
              || !(g in a || g in Orphans(s.balances, a, scope, Some(date)))
  {
    hide Replayed, All, Settled, Dated, Later, FiguresOf, GrainsOf;
    var ms, asOf := All(s.postings), Some(date);
    UninterruptedIs(s, r, scope, asOf);
    SettledIsAll(s.postings, g);
    SumsByDate(ms, asOf, g);
    SumsTouch(Later(ms, asOf), g);
    RewrittenFigures(s.balances, ms, scope, asOf, g);
  }

  lemma {:induction false} RewrittenFigures(b: Balances, ms: seq<Movement>, scope: Scope, asOf: Option<int>, g: Grain)
    ensures var a := Aggregated(ms, scope, asOf);
            var t := Rewritten(b, a, Orphans(b, a, scope, asOf));
            if g in a || g in Orphans(b, a, scope, asOf) then FiguresOf(Stored(t, g)) == Sums(Dated(ms, asOf), g)
            else Stored(t, g) == Stored(b, g)
  {
    hide Replayed, Dated;
    var a := Aggregated(ms, scope, asOf);
    if g in Orphans(b, a, scope, asOf) { Untouched(Dated(ms, asOf), g); }
  }

  // ---------------------------------------------------------------------------------------
  // The two races
  // ---------------------------------------------------------------------------------------

  /** Recorded, rebuilt, then applied: the balance counts the batch twice. */
  lemma {:induction false} CountedTwice(ms: seq<Movement>, g: Grain)
    requires g in GrainsOf(ms) && KeyToItself(ms, g)
    ensures var s := Next(Uninterrupted(Next(Empty, Record(ms)), 0, Everything, None), Apply(0));
            && All(s.postings) == ms && NothingInHand(s.postings, g)
            && FiguresOf(Stored(s.balances, g)) == Plus(Sums(ms, g), Sums(ms, g)) && !AgreesAt(s, g)
  {
    hide Replayed, Applies, Applied, KeyToItself, Orphans, FiguresOf, Combine;
    var recorded := Next(Empty, Record(ms));
    assert recorded.postings == [Posting(ms, InHand)];
    OnePosting(ms, InHand);
    OnePosting(ms, Folded);
    UninterruptedIs(recorded, 0, Everything, None);
    var rebuilt := Uninterrupted(recorded, 0, Everything, None);
    assert Stored(rebuilt.balances, g) == Replayed(ms, g);
    var s := Next(rebuilt, Apply(0));
    assert s.postings == [Posting(ms, Folded)];
    hide Rewritten, Aggregated;
    AppliedStores(rebuilt.balances, ms, g);
    AppliesExactlyWhen(ms, g);
    FiguresAdd(Replayed(ms, g), Replayed(ms, g));
    SumsTouch(ms, g);
  }

  lemma {:induction false} OnePosting(ms: seq<Movement>, fate: Fate)
    ensures All([Posting(ms, fate)]) == ms
  {
    var ps := [Posting(ms, fate)];
    assert ps[..0] == [] && All([]) + ms == ms;
  }

  /** Aggregated, then another batch recorded and applied, then written: the batch is gone from the balance. */
  lemma {:induction false} AppliedThenOverwritten(s: State, r: nat, ms: seq<Movement>, g: Grain)
    requires r !in s.rebuilds && RebuildsOk(s) && InStep(s, g) && NothingInHand(s.postings, g)
    requires g in GrainsOf(All(s.postings)) && g in GrainsOf(ms) && KeyToItself(ms, g)
    ensures var i := |s.postings|;
            var t := Next(Next(Next(Next(Next(s, Aggregate(r, Everything, None)), Record(ms)), Apply(i)), Find(r)), Write(r));
            && All(t.postings) == All(s.postings) + ms && NothingInHand(t.postings, g)
            && FiguresOf(Stored(t.balances, g)) == Sums(All(s.postings), g) && !AgreesAt(t, g)
  {
    hide Replayed, Applied, Rewritten, Orphans, KeyToItself, All, Aggregated, Combine;
    var i := |s.postings|;
    var applied := Next(Next(Next(s, Aggregate(r, Everything, None)), Record(ms)), Apply(i));
    var u := Next(applied, Find(r));
    var t := Next(u, Write(r));
    assert applied.postings == s.postings + [Posting(ms, Folded)];
    AllSnoc(s.postings, Posting(ms, Folded));
    assert applied.postings[..i] == s.postings;
    var a := Aggregated(All(s.postings), Everything, None);
    assert t.balances == Rewritten(applied.balances, a, Orphans(applied.balances, a, Everything, None));
    InAggregate(All(s.postings), g);
    RewrittenFigures(applied.balances, All(s.postings), Everything, None, g);
    assert Dated(All(s.postings), None) == All(s.postings);
    SumsSplit(All(s.postings), ms, g);
    SumsTouch(ms, g);
  }

  lemma {:induction false} AllSnoc(ps: seq<Posting>, p: Posting)
    ensures All(ps + [p]) == All(ps) + p.ms
  {
    assert (ps + [p])[..|ps|] == ps;
  }

  lemma {:induction false} InAggregate(ms: seq<Movement>, g: Grain)
    ensures g in Aggregated(ms, Everything, None) <==> g in GrainsOf(ms)
  {
  }

  // ---------------------------------------------------------------------------------------
  // Activity markers
  // ---------------------------------------------------------------------------------------

  /** The whole stored balance, its activity markers included, is the replay of what is settled. */
  ghost predicate WhollyInStep(s: State, g: Grain) {
    Stored(s.balances, g) == Replayed(Settled(s.postings), g)
  }

  /** Nothing of the balance was counted early or overtaken. */
  ghost predicate Unraced(s: State, rb: Rebuild, g: Grain) {
    g !in GrainsOf(Early(s.postings, rb, |s.postings|)) && g !in GrainsOf(Overtaken(s.postings, rb, |s.postings|))
  }

  lemma {:induction false} GrainsConcat(s: seq<Movement>, t: seq<Movement>)
    ensures GrainsOf(s + t) == GrainsOf(s) + GrainsOf(t)
  {
    forall g | g in GrainsOf(s) + GrainsOf(t) ensures g in GrainsOf(s + t) {
      if g in GrainsOf(s) { var m :| m in s && m.grain == g; assert m in s + t; }
      else { var m :| m in t && m.grain == g; assert m in s + t; }
    }
  }

  lemma {:induction false} DatedOrLater(ms: seq<Movement>, asOf: Option<int>, g: Grain)
    requires g !in GrainsOf(Later(ms, asOf))
    ensures Replayed(Dated(ms, asOf), g) == Replayed(ms, g)
  {
    hide Combine, Effect;
    if ms != [] && asOf.Some? {
      var n := |ms| - 1;
      var m := ms[n];
      if !(m.effective.Some? && m.effective.value <= asOf.value) { GrainsConcat(Later(ms[..n], asOf), [m]); assert m in [m]; }
      DatedOrLater(ms[..n], asOf, g);
      DatedGrows(ms[..n], m, asOf);
      assert ms[..n] + [m] == ms;
      ReplayGrows(Dated(ms[..n], asOf), m, g);
    }
  }

  /** An unraced rebuild saw of the balance exactly what is settled. */
  lemma {:induction false} UnracedSaw(ps: seq<Posting>, rb: Rebuild, n: nat, g: Grain)
    requires n <= |ps| && g !in GrainsOf(Early(ps, rb, n)) && g !in GrainsOf(Overtaken(ps, rb, n))
    ensures Replayed(SeenOf(ps, rb, n), g) == Replayed(Settled(ps[..n]), g)
  {
    hide Replayed, Combine, GrainsOf, Dated, Later;
    if n > 0 {
      var p, hand := ps[n - 1], ps[n - 1].fate == InHand;
      assert ps[..n][..n - 1] == ps[..n - 1];
      GrainsConcat(Early(ps, rb, n - 1), if hand then Seen(ps, rb, n - 1) else []);
      GrainsConcat(Overtaken(ps, rb, n - 1), if hand then [] else Unseen(ps, rb, n - 1));
      UnracedSaw(ps, rb, n - 1, g);
      ReplaySplits(SeenOf(ps, rb, n - 1), Seen(ps, rb, n - 1), g);
      ReplaySplits(Settled(ps[..n - 1]), if hand then [] else p.ms, g);
      if hand {
        Untouched(Seen(ps, rb, n - 1), g);
        EmptyReplay(g);
      } else if n - 1 < rb.upTo {
        DatedOrLater(p.ms, rb.asOf, g);
      } else {
        Untouched(p.ms, g);
        EmptyReplay(g);
      }
    } else {
      assert ps[..0] == [];
    }
  }

  lemma {:induction false} EmptyReplay(g: Grain)
    ensures Replayed([], g) == Zero
  {
  }

  lemma {:induction false} WriteStoresAll(s: State, r: nat, g: Grain)
    requires r in s.rebuilds && s.rebuilds[r].orphans.Some? && OrphansOk(s, s.rebuilds[r])
    ensures var rb, after := s.rebuilds[r], Next(s, Write(r));
            var seen := Replayed(SeenOf(s.postings, rb, |s.postings|), g);
            && (g in Snapshot(s, rb) ==> Stored(after.balances, g) == seen)
            && (Overwrites(s, rb, g) && g !in Snapshot(s, rb) ==> seen == Zero)
            && (g !in Snapshot(s, rb) && Stored(s.balances, g) == Zero ==> Stored(after.balances, g) == Zero)
            && (!Overwrites(s, rb, g) ==> Stored(after.balances, g) == Stored(s.balances, g))
  {
    hide Replayed, SeenOf, All, Dated;
    var rb := s.rebuilds[r];
    SeenIsSnapshot(s.postings, rb, |s.postings|);
    var seen := SeenOf(s.postings, rb, |s.postings|);
    assert seen == Dated(All(s.postings[..rb.upTo]), rb.asOf);
    if Overwrites(s, rb, g) && g !in Snapshot(s, rb) {
      assert Within(rb.scope, g);
      Untouched(seen, g);
    }
  }

  /** A rebuild that races with nothing leaves the whole balance in step, activity markers and all. */
  lemma {:induction false} UnracedWriteKeepsAll(s: State, r: nat, g: Grain)
    requires WhollyInStep(s, g) && r in s.rebuilds && s.rebuilds[r].orphans.Some? && OrphansOk(s, s.rebuilds[r])
    requires Unraced(s, s.rebuilds[r], g)
    ensures WhollyInStep(Next(s, Write(r)), g)
  {
    hide Replayed, Early, Overtaken, Overwrites, Snapshot, Rewritten, Stored, Settled, SeenOf;
    UnracedSaw(s.postings, s.rebuilds[r], |s.postings|, g);
    WriteStoresAll(s, r, g);
    assert s.postings[..|s.postings|] == s.postings;
  }

  /** And so does applying a batch that shares no key with it. */
  lemma {:induction false} ApplyKeepsAll(s: State, i: nat, g: Grain)
    requires WhollyInStep(s, g) && i < |s.postings| && s.postings[i].fate == InHand
    requires g in GrainsOf(s.postings[i].ms) ==> KeyToItself(s.postings[i].ms, g)
    ensures WhollyInStep(Next(s, Apply(i)), g)
  {
    hide Replayed, Applies, Settled, Applied, KeyToItself, GrainsOf, Combine, Stored;
    SettleOne(s.postings, i, Folded, g);
    AppliedStores(s.balances, s.postings[i].ms, g);
    AppliesExactlyWhen(s.postings[i].ms, g);
  }

  /** The steps that leave a balance wholly in step. */
  ghost predicate Calm(s: State, step: Step, g: Grain) {
    match step
    case Lose(i) => i < |s.postings| && s.postings[i].fate == InHand ==> g !in GrainsOf(s.postings[i].ms)
    case Apply(i) => i < |s.postings| && g in GrainsOf(s.postings[i].ms) ==> KeyToItself(s.postings[i].ms, g)
    case Write(r) => r in s.rebuilds && Overwrites(s, s.rebuilds[r], g) ==> Unraced(s, s.rebuilds[r], g)
    case _ => true
  }

  ghost predicate AllCalm(steps: seq<Step>, g: Grain) {
    steps == [] || (AllCalm(steps[..|steps| - 1], g) && Calm(Run(Empty, steps[..|steps| - 1]), steps[|steps| - 1], g))
  }

  lemma {:induction false} LoseKeepsAll(s: State, i: nat, g: Grain)
    requires WhollyInStep(s, g) && i < |s.postings| && s.postings[i].fate == InHand && g !in GrainsOf(s.postings[i].ms)
    ensures WhollyInStep(Next(s, Lose(i)), g)
  {
    hide Replayed, Settled, GrainsOf, Combine;
    SettleOne(s.postings, i, Lost, g);
    Untouched(s.postings[i].ms, g);
    CombineLaws(Replayed(Settled(s.postings), g), Zero, Zero);
  }

  lemma {:induction false} CalmStepKeepsAll(s: State, step: Step, g: Grain)
    requires WhollyInStep(s, g) && RebuildsOk(s) && Calm(s, step, g)
    ensures WhollyInStep(Next(s, step), g)
  {
    hide Settled, Applied, Rewritten, Snapshot, Overwrites, OrphansOk, Orphans, Unraced, Replayed, GrainsOf, KeyToItself, Stored;
    match step
    case Record(ms) => RecordKeeps(s, ms);
    case Apply(i) => if i < |s.postings| && s.postings[i].fate == InHand { ApplyKeepsAll(s, i, g); }
    case Lose(i) =>
      if i < |s.postings| && s.postings[i].fate == InHand { LoseKeepsAll(s, i, g); }
    case Write(r) =>
      if r in s.rebuilds && s.rebuilds[r].orphans.Some? {
        if Overwrites(s, s.rebuilds[r], g) { UnracedWriteKeepsAll(s, r, g); } else { WriteStoresAll(s, r, g); }
      }
    case Aggregate(_, _, _) =>
    case Find(_) =>
    case Stop(_) =>
  }

  lemma {:induction false} CalmRunKeepsAll(steps: seq<Step>, g: Grain)
    requires AllCalm(steps, g)
    ensures WhollyInStep(Run(Empty, steps), g)
  {
    if steps != [] {
      hide Next, Calm, RebuildsOk, WhollyInStep;
      CalmRunKeepsAll(steps[..|steps| - 1], g);
      StartsInStep(g);
      RunRebuilds(Empty, steps[..|steps| - 1]);
      CalmStepKeepsAll(Run(Empty, steps[..|steps| - 1]), steps[|steps| - 1], g);
    }
  }

  /** Where no rebuild races at all, the whole balance is the ledger replayed in any order, markers included. */
  lemma {:induction false} CalmRunIsReplay(steps: seq<Step>, g: Grain, shuffled: seq<Movement>)
    requires AllCalm(steps, g) && NothingInHand(Run(Empty, steps).postings, g)
    requires multiset(shuffled) == multiset(All(Run(Empty, steps).postings))
    ensures Stored(Run(Empty, steps).balances, g) == Replayed(shuffled, g)
  {
    hide Run, AllCalm, Replayed, NothingInHand;
    CalmRunKeepsAll(steps, g);
    SettledIsAll(Run(Empty, steps).postings, g);
    OrderDoesNotMatter(shuffled, All(Run(Empty, steps).postings), g);
  }
}
