/** Composite keys written as text, the parts parted by two colons. */
module Keys {
  function Text3(a: string, b: string, c: string): string {
    a + "::" + b + "::" + c
  }

  predicate ColonFree(s: string) {
    ':' !in s
  }

  predicate LastColon(t: string, n: nat) {
    n < |t| && t[n] == ':' && forall i :: n < i < |t| ==> t[i] != ':'
  }

  lemma {:induction false} LastColonUnique(t: string, n: nat, m: nat)
    requires LastColon(t, n) && LastColon(t, m)
    ensures n == m
  {
  }

  lemma {:induction false} TailsAgree(a: string, b: string, r: string, s: string)
    requires ColonFree(r) && ColonFree(s) && a + "::" + r == b + "::" + s
    ensures a == b && r == s
  {
    var t, u := a + "::" + r, b + "::" + s;
    assert LastColon(t, |a| + 1) && LastColon(u, |b| + 1);
    LastColonUnique(t, |a| + 1, |b| + 1);
    assert a == t[..|a|] && b == u[..|b|];
    assert r == t[|a| + 2..] && s == u[|b| + 2..];
  }

  /** The last two parts free of colons, the text gives the parts back, whatever the first one holds. */
  lemma {:induction false} Text3Injective(a: string, b: string, c: string, x: string, y: string, z: string)
    requires ColonFree(b) && ColonFree(c) && ColonFree(y) && ColonFree(z)
    ensures Text3(a, b, c) == Text3(x, y, z) <==> (a == x && b == y && c == z)
  {
    if Text3(a, b, c) == Text3(x, y, z) {
      TailsAgree(a + "::" + b, x + "::" + y, c, z);
      TailsAgree(a, x, b, y);
    }
  }

  /** With colons in a brand it would not: a part can be moved across the boundary. */
  lemma {:induction false} Text3Collides(a: string, b: string, c: string, d: string)
    ensures Text3(a + "::" + b, c, d) == Text3(a, b + "::" + c, d)
    ensures a + "::" + b != a
  {
    assert |a + "::" + b| > |a|;
    assert Text3(a + "::" + b, c, d) == a + "::" + b + "::" + c + "::" + d;
    assert Text3(a, b + "::" + c, d) == a + "::" + b + "::" + c + "::" + d;
  }
}

/**
 * The projection of the stock ledger into balances (backend/modules/inventory/balance.service.js and
 * backend/models/StockBalance.js): one reduction of movements, applied batch by batch, and a
 * rebuild from the whole ledger.
 */
module Projection {
  import opened Options
  import opened Keys

  datatype MovementClass = Physical | Allocation

  datatype Kind =
    | Opening | Receipt | Issue | Adjustment | TransferIn | TransferOut | Count
    | Reserve | Release | Reversal

  /** MOVEMENT_TYPES: the class each type projects into; a reversal takes that of what it reverses. */
  function ClassOf(kind: Kind): Option<MovementClass> {
    match kind
    case Reserve | Release => Some(Allocation)
    case Reversal => None
    case _ => Some(Physical)
  }

  datatype Grain = Grain(sku: string, brand: string, location: string)

  datatype Movement = Movement(grain: Grain, cls: MovementClass, kind: Kind, quantity: int, effective: Option<int>)

  /** What a balance holds, and what a set of movements adds to one. */
  datatype Delta = Delta(
    onHand: int, reserved: int, count: nat,
    moved: Option<int>, movedPhysically: Option<int>, issued: Option<int>, received: Option<int>, counted: Option<int>)

  const Zero := Delta(0, 0, 0, None, None, None, None, None)

  function Later(a: Option<int>, b: Option<int>): Option<int> {
    if b.None? then a else if a.None? || b.value > a.value then b else a
  }

  function Combine(a: Delta, b: Delta): Delta {
    Delta(a.onHand + b.onHand, a.reserved + b.reserved, a.count + b.count,
          Later(a.moved, b.moved), Later(a.movedPhysically, b.movedPhysically), Later(a.issued, b.issued),
          Later(a.received, b.received), Later(a.counted, b.counted))
  }

  function When(c: bool, at: Option<int>): Option<int> {
    if c then at else None
  }

  /** What one movement adds to its own balance. */
  function Effect(m: Movement): Delta {
    var physical := m.cls == Physical;
    Delta(if physical then m.quantity else 0, if physical then 0 else m.quantity, 1,
          m.effective, When(physical, m.effective), When(physical && m.kind == Issue, m.effective),
          When(physical && (m.kind == Receipt || m.kind == Opening), m.effective),
          When(physical && m.kind == Count, m.effective))
  }

  /** What the rebuild's aggregation takes from one movement: types decide three markers without the class. */
  function Grouped(m: Movement): Delta {
    Delta(if m.cls == Allocation then 0 else m.quantity, if m.cls == Allocation then m.quantity else 0, 1,
          m.effective, if m.cls == Allocation then None else m.effective,
          if m.kind == Issue then m.effective else None,
          if m.kind in [Receipt, Opening] then m.effective else None,
          if m.kind == Count then m.effective else None)
  }

  /** The class of a posted movement is the one its type has. */
  predicate WellClassed(m: Movement) {
    m.kind == Reversal || ClassOf(m.kind) == Some(m.cls)
  }

  /** That the two reductions agree rests on the class being derived from the type. */
  lemma {:induction false} GroupingAgrees(m: Movement)
    ensures WellClassed(m) ==> Grouped(m) == Effect(m)
    ensures Grouped(m) == Effect(m) <==>
            !(m.cls == Allocation && m.effective.Some? && m.kind in [Issue, Receipt, Opening, Count])
  {
  }

  /** The balance of one SKU, brand and location by replaying the movements. */
  function Replayed(ms: seq<Movement>, g: Grain): Delta {
    if ms == [] then Zero
    else
      var m := ms[|ms| - 1];
      var before := Replayed(ms[..|ms| - 1], g);
      if m.grain == g then Combine(before, Effect(m)) else before
  }

  // ---------------------------------------------------------------------------------------
  // What a replay means
  // ---------------------------------------------------------------------------------------

  function Units(ms: seq<Movement>, g: Grain, cls: MovementClass): int {
    if ms == [] then 0
    else
      var m := ms[|ms| - 1];
      Units(ms[..|ms| - 1], g, cls) + if m.grain == g && m.cls == cls then m.quantity else 0
  }

  /** Physical movements add up to what is on hand, allocations to what is reserved, and neither crosses. */
  lemma {:induction false} ClassesStayApart(ms: seq<Movement>, g: Grain)
    ensures Replayed(ms, g).onHand == Units(ms, g, Physical)
    ensures Replayed(ms, g).reserved == Units(ms, g, Allocation)
  {
    if ms != [] {
      ClassesStayApart(ms[..|ms| - 1], g);
    }
  }

  datatype Marker = Moved | MovedPhysically | Issued | Received | Counted

  function MarkerOf(d: Delta, marker: Marker): Option<int> {
    match marker
    case Moved => d.moved
    case MovedPhysically => d.movedPhysically
    case Issued => d.issued
    case Received => d.received
    case Counted => d.counted
  }

  predicate Marks(m: Movement, g: Grain, marker: Marker) {
    && m.grain == g && m.effective.Some?
    && match marker
       case Moved => true
       case MovedPhysically => m.cls == Physical
       case Issued => m.cls == Physical && m.kind == Issue
       case Received => m.cls == Physical && (m.kind == Receipt || m.kind == Opening)
       case Counted => m.cls == Physical && m.kind == Count
  }

  /** The time is that of some marking movement, and no marking movement is later. */
  ghost predicate IsLatest(ms: seq<Movement>, g: Grain, marker: Marker, at: Option<int>) {
    && (at.None? ==> forall i :: 0 <= i < |ms| ==> !Marks(ms[i], g, marker))
    && (at.Some? ==> exists i :: 0 <= i < |ms| && Marks(ms[i], g, marker) && ms[i].effective == at)
    && (at.Some? ==> forall i :: 0 <= i < |ms| && Marks(ms[i], g, marker) ==> ms[i].effective.value <= at.value)
  }

  lemma {:induction false} LatestGrows(front: seq<Movement>, m: Movement, g: Grain, marker: Marker, at: Option<int>)
    requires IsLatest(front, g, marker, at)
    ensures IsLatest(front + [m], g, marker, Later(at, When(Marks(m, g, marker), m.effective)))
  {
    var ms := front + [m];
    var now := Later(at, When(Marks(m, g, marker), m.effective));
    hide Marks;
    assert ms[|front|] == m;
    if at.Some? {
      var i :| 0 <= i < |front| && Marks(front[i], g, marker) && front[i].effective == at;
      assert ms[i] == front[i];
    }
    forall i | 0 <= i < |front| ensures ms[i] == front[i] {}
    assert Marks(m, g, marker) ==> m.effective.Some? by { MarksDated(m, g, marker); }
  }

  lemma {:induction false} MarksDated(m: Movement, g: Grain, marker: Marker)
    ensures Marks(m, g, marker) ==> m.effective.Some?
  {
  }

  /** Every activity marker is the latest effective date among the movements that drive it. */
  lemma {:induction false} MarkersAreLatest(ms: seq<Movement>, g: Grain, marker: Marker)
    ensures IsLatest(ms, g, marker, MarkerOf(Replayed(ms, g), marker))
  {
    if ms != [] {
      var front, m := ms[..|ms| - 1], ms[|ms| - 1];
      MarkersAreLatest(front, g, marker);
      LatestGrows(front, m, g, marker, MarkerOf(Replayed(front, g), marker));
      assert front + [m] == ms;
      MarkerSteps(Replayed(front, g), m, g, marker);
    }
  }

  lemma {:induction false} MarkerSteps(before: Delta, m: Movement, g: Grain, marker: Marker)
    ensures MarkerOf(if m.grain == g then Combine(before, Effect(m)) else before, marker)
            == Later(MarkerOf(before, marker), When(Marks(m, g, marker), m.effective))
  {
  }

  function CountOf(ms: seq<Movement>, g: Grain): nat {
    |set i | 0 <= i < |ms| && ms[i].grain == g|
  }

  lemma {:induction false} CountSteps(ms: seq<Movement>, g: Grain)
    requires ms != []
    ensures CountOf(ms, g) == CountOf(ms[..|ms| - 1], g) + if ms[|ms| - 1].grain == g then 1 else 0
  {
    var n := |ms| - 1;
    var before := set i | 0 <= i < n && ms[..n][i].grain == g;
    var now := set i | 0 <= i < |ms| && ms[i].grain == g;
    assert now == if ms[n].grain == g then before + {n} else before;
  }

  lemma {:induction false} EffectCounts(m: Movement)
    ensures Effect(m).count == 1
  {
  }

  /** `movementCount` is how many movements there are. */
  lemma {:induction false} CountIsExact(ms: seq<Movement>, g: Grain)
    ensures Replayed(ms, g).count == CountOf(ms, g)
  {
    if ms != [] {
      hide Effect;
      var n := |ms| - 1;
      CountIsExact(ms[..n], g);
      CombineCounts(Replayed(ms[..n], g), Effect(ms[n]));
      EffectCounts(ms[n]);
      CountSteps(ms, g);
    }
  }

  // ---------------------------------------------------------------------------------------
  // Any batches, any order
  // ---------------------------------------------------------------------------------------

  lemma {:induction false} CombineLaws(a: Delta, b: Delta, c: Delta)
    ensures Combine(a, b) == Combine(b, a) && Combine(Combine(a, b), c) == Combine(a, Combine(b, c))
    ensures Combine(a, Zero) == a && Combine(Zero, a) == a
  {
  }

  lemma {:induction false} ReplaySplits(s: seq<Movement>, t: seq<Movement>, g: Grain)
    ensures Replayed(s + t, g) == Combine(Replayed(s, g), Replayed(t, g))
    decreases |t|
  {
    hide Combine, Effect;
    if t == [] {
      assert s + t == s;
      CombineLaws(Replayed(s, g), Zero, Zero);
    } else {
      var n := |t| - 1;
      assert (s + t)[..|s + t| - 1] == s + t[..n];
      ReplaySplits(s, t[..n], g);
      CombineLaws(Replayed(s, g), Replayed(t[..n], g), Effect(t[n]));
    }
  }

  /** Whatever order the movements arrive in, the replay is the same. */
  lemma {:induction false} OrderDoesNotMatter(s: seq<Movement>, t: seq<Movement>, g: Grain)
    requires multiset(s) == multiset(t)
    ensures Replayed(s, g) == Replayed(t, g)
    decreases |s|
  {
    hide Combine, Effect, Replayed;
    if s == [] {
      assert |multiset(t)| == 0;
      assert t == [];
    } else {
      var n := |s| - 1;
      var m := s[n];
      assert s == s[..n] + [m];
      assert m in multiset(t);
      var i :| 0 <= i < |t| && t[i] == m;
      assert t == t[..i] + [m] + t[i + 1..];
      var rest := t[..i] + t[i + 1..];
      assert multiset(s[..n]) == multiset(s) - multiset{m} == multiset(rest);
      OrderDoesNotMatter(s[..n], rest, g);
      ReplaySplits(s[..n], [m], g);
      ReplaySplits(t[..i], t[i + 1..], g);
      ReplaySplits(t[..i] + [m], t[i + 1..], g);
      ReplaySplits(t[..i], [m], g);
      Rotate(Replayed(t[..i], g), Replayed([m], g), Replayed(t[i + 1..], g));
    }
  }

  lemma {:induction false} Rotate(a: Delta, b: Delta, c: Delta)
    ensures Combine(Combine(a, b), c) == Combine(Combine(a, c), b)
  {
  }

  // ---------------------------------------------------------------------------------------
  // The reducer
  // ---------------------------------------------------------------------------------------

  function KeyOf(g: Grain): string {
    Text3(g.sku, g.brand, g.location)
  }

  function GrainsOf(ms: seq<Movement>): set<Grain> {
    set m | m in ms :: m.grain
  }

  /** The first grain among the movements that is written with this key. */
  function FirstGrain(ms: seq<Movement>, k: string): (r: Option<Grain>)
    ensures r.Some? ==> r.value in GrainsOf(ms) && KeyOf(r.value) == k
  {
    if ms == [] then None
    else
      var m := ms[|ms| - 1];
      var before := FirstGrain(ms[..|ms| - 1], k);
      if before.Some? then before else if KeyOf(m.grain) == k then Some(m.grain) else None
  }

  /** The replay of all movements written with one key. */
  function ReplayedKey(ms: seq<Movement>, k: string): Delta {
    if ms == [] then Zero
    else
      var m := ms[|ms| - 1];
      var before := ReplayedKey(ms[..|ms| - 1], k);
      if KeyOf(m.grain) == k then Combine(before, Effect(m)) else before
  }

  /** What applying a batch adds to a balance: everything under its key, if it is the first with that key. */
  function Applies(ms: seq<Movement>, g: Grain): Delta {
    if FirstGrain(ms, KeyOf(g)) == Some(g) then ReplayedKey(ms, KeyOf(g)) else Zero
  }

  datatype Line = Line(grain: Grain, delta: Delta)

  type Reduced = map<string, Line>

  ghost predicate IsLineOf(ms: seq<Movement>, key: string, line: Line) {
    FirstGrain(ms, key) == Some(line.grain) && line.delta == ReplayedKey(ms, key)
  }

  ghost predicate IsReduction(ms: seq<Movement>, r: Reduced) {
    && (forall k :: k in r <==> FirstGrain(ms, k).Some?)
    && (forall k :: k in r ==> IsLineOf(ms, k, r[k]))
  }

  /** The source's loop over the movements. */
  method ReduceMovements(movements: seq<Movement>) returns (byKey: Reduced)
    ensures IsReduction(movements, byKey)
  {
    byKey := map[];
    for n := 0 to |movements|
      invariant IsReduction(movements[..n], byKey)
    {
      var m := movements[n];
      var key := KeyOf(m.grain);
      ghost var was := byKey;
      if key !in byKey {
        byKey := byKey[key := Line(m.grain, Zero)];
      }
      var acc := byKey[key].delta;
      if m.cls == Allocation {
        acc := acc.(reserved := acc.reserved + m.quantity);
      } else {
        acc := acc.(onHand := acc.onHand + m.quantity);
      }
      acc := acc.(count := acc.count + 1, moved := Later(acc.moved, m.effective));
      if m.cls != Allocation {
        acc := acc.(movedPhysically := Later(acc.movedPhysically, m.effective));
        if m.kind == Issue { acc := acc.(issued := Later(acc.issued, m.effective)); }
        if m.kind == Receipt || m.kind == Opening { acc := acc.(received := Later(acc.received, m.effective)); }
        if m.kind == Count { acc := acc.(counted := Later(acc.counted, m.effective)); }
      }
      byKey := byKey[key := byKey[key].(delta := acc)];
      StepReduces(movements[..n], m, was, byKey, acc);
      assert movements[..n + 1] == movements[..n] + [m];
    }
    assert movements[..|movements|] == movements;
  }

  lemma {:induction false} GrainsGrow(ms: seq<Movement>, m: Movement)
    ensures GrainsOf(ms + [m]) == GrainsOf(ms) + {m.grain}
  {
    forall g | g in GrainsOf(ms) ensures g in GrainsOf(ms + [m]) {
      var x :| x in ms && x.grain == g;
      assert x in ms + [m];
    }
    assert m in ms + [m];
  }

  lemma {:induction false} ReplayGrows(ms: seq<Movement>, m: Movement, g: Grain)
    ensures Replayed(ms + [m], g) == if m.grain == g then Combine(Replayed(ms, g), Effect(m)) else Replayed(ms, g)
  {
    assert (ms + [m])[..|ms|] == ms;
  }

  lemma {:induction false} KeyGrows(ms: seq<Movement>, m: Movement, k: string)
    ensures ReplayedKey(ms + [m], k) == if KeyOf(m.grain) == k then Combine(ReplayedKey(ms, k), Effect(m)) else ReplayedKey(ms, k)
    ensures FirstGrain(ms + [m], k) ==
            if FirstGrain(ms, k).Some? then FirstGrain(ms, k) else if KeyOf(m.grain) == k then Some(m.grain) else None
  {
    hide Combine, Effect, KeyOf;
    assert (ms + [m])[..|ms|] == ms;
  }

  lemma {:induction false} NoKeyYet(ms: seq<Movement>, k: string)
    requires FirstGrain(ms, k).None?
    ensures ReplayedKey(ms, k) == Zero && forall m :: m in ms ==> KeyOf(m.grain) != k
  {
    hide KeyOf;
    if ms != [] {
      NoKeyYet(ms[..|ms| - 1], k);
    }
  }

  lemma {:induction false} StepReduces(ms: seq<Movement>, m: Movement, was: Reduced, now: Reduced, acc: Delta)
    requires IsReduction(ms, was)
    requires var key := KeyOf(m.grain);
             && now == was[key := Line(if key in was then was[key].grain else m.grain, acc)]
             && acc == Combine(if key in was then was[key].delta else Zero, Effect(m))
    ensures IsReduction(ms + [m], now)
  {
    hide Combine, Effect, KeyOf, FirstGrain, ReplayedKey;
    var key := KeyOf(m.grain);
    if key !in was { NoKeyYet(ms, key); }
    forall k ensures (k in now <==> FirstGrain(ms + [m], k).Some?) && (k in now ==> IsLineOf(ms + [m], k, now[k])) {
      KeyGrows(ms, m, k);
      assert k in was ==> IsLineOf(ms, k, was[k]);
    }
  }

  lemma {:induction false} Untouched(ms: seq<Movement>, g: Grain)
    requires g !in GrainsOf(ms)
    ensures Replayed(ms, g) == Zero
  {
    if ms != [] {
      var n := |ms| - 1;
      GrainsGrow(ms[..n], ms[n]);
      assert ms[..n] + [ms[n]] == ms;
      Untouched(ms[..n], g);
    }
  }

  // ---------------------------------------------------------------------------------------
  // Keys that are shared
  // ---------------------------------------------------------------------------------------

  /** No other balance of the batch is written with the key of this one. */
  ghost predicate KeyToItself(ms: seq<Movement>, g: Grain) {
    forall h :: h in GrainsOf(ms) && KeyOf(h) == KeyOf(g) ==> h == g
  }

  lemma {:induction false} KeyIsGrain(ms: seq<Movement>, g: Grain)
    requires KeyToItself(ms, g)
    ensures ReplayedKey(ms, KeyOf(g)) == Replayed(ms, g)
    ensures FirstGrain(ms, KeyOf(g)) == if g in GrainsOf(ms) then Some(g) else None
  {
    hide Combine, Effect, KeyOf, GrainsOf;
    if ms != [] {
      var n := |ms| - 1;
      GrainsGrow(ms[..n], ms[n]);
      assert ms[..n] + [ms[n]] == ms;
      KeyIsGrain(ms[..n], g);
    } else {
      NoGrains(g);
    }
  }

  lemma {:induction false} NoGrains(g: Grain)
    ensures g !in GrainsOf([])
  {
  }

  lemma {:induction false} KeyCountsAll(ms: seq<Movement>, g: Grain, h: Grain)
    requires g != h && KeyOf(g) == KeyOf(h)
    ensures ReplayedKey(ms, KeyOf(g)).count >= Replayed(ms, g).count + Replayed(ms, h).count
  {
    hide Effect, KeyOf;
    if ms != [] {
      KeyCountsAll(ms[..|ms| - 1], g, h);
      EffectCounts(ms[|ms| - 1]);
    }
  }

  /**
   * Applying a batch adds to a balance what its replay says exactly when the batch does not touch the
   * balance, or nothing else in it is written with the same key.
   */
  lemma {:induction false} AppliesExactlyWhen(ms: seq<Movement>, g: Grain)
    ensures Applies(ms, g) == Replayed(ms, g) <==> g !in GrainsOf(ms) || KeyToItself(ms, g)
    ensures Applies(ms, g).count == Replayed(ms, g).count <==> g !in GrainsOf(ms) || KeyToItself(ms, g)
  {
    hide Combine, Effect, KeyOf, ReplayedKey, Replayed;
    if g !in GrainsOf(ms) {
      Untouched(ms, g);
    } else if KeyToItself(ms, g) {
      KeyIsGrain(ms, g);
    } else {
      var h :| h in GrainsOf(ms) && KeyOf(h) == KeyOf(g) && h != g;
      KeyCountsAll(ms, g, h);
      CountGrows(ms, g);
      CountGrows(ms, h);
    }
  }

  /** As every brand name and location id is: a brand is letters, digits, blanks and `& . -`. */
  predicate PlainGrain(g: Grain) {
    ColonFree(g.brand) && ColonFree(g.location)
  }

  ghost predicate KeysApart(gs: set<Grain>) {
    forall g, h :: g in gs && h in gs && KeyOf(g) == KeyOf(h) ==> g == h
  }

  lemma {:induction false} PlainGrainsApart(gs: set<Grain>)
    requires forall g :: g in gs ==> PlainGrain(g)
    ensures KeysApart(gs)
  {
    forall g, h | g in gs && h in gs && KeyOf(g) == KeyOf(h) ensures g == h {
      Text3Injective(g.sku, g.brand, g.location, h.sku, h.brand, h.location);
    }
  }

  /** Brands and locations without colons never share a key, whatever the SKUs. */
  lemma {:induction false} PlainKeysApart(ms: seq<Movement>, g: Grain)
    requires PlainGrain(g) && forall h :: h in GrainsOf(ms) ==> PlainGrain(h)
    ensures KeyToItself(ms, g) && Applies(ms, g) == Replayed(ms, g)
  {
    PlainGrainsApart(GrainsOf(ms) + {g});
    AppliesExactlyWhen(ms, g);
  }

  lemma {:induction false} CombineCounts(a: Delta, b: Delta)
    ensures Combine(a, b).count == a.count + b.count
  {
  }

  lemma {:induction false} CountGrows(ms: seq<Movement>, g: Grain)
    requires g in GrainsOf(ms)
    ensures Replayed(ms, g).count > 0
  {
    var n := |ms| - 1;
    GrainsGrow(ms[..n], ms[n]);
    assert ms[..n] + [ms[n]] == ms;
    if ms[n].grain != g {
      CountGrows(ms[..n], g);
    }
  }

  // ---------------------------------------------------------------------------------------
  // The stored balances
  // ---------------------------------------------------------------------------------------

  type Balances = map<Grain, Delta>

  function Stored(b: Balances, g: Grain): Delta {
    if g in b then b[g] else Zero
  }

  datatype Scope = Scope(sku: Option<string>, brand: Option<string>, location: Option<string>)

  predicate Within(s: Scope, g: Grain) {
    && (s.sku.Some? ==> s.sku.value == g.sku)
    && (s.brand.Some? ==> s.brand.value == g.brand)
    && (s.location.Some? ==> s.location.value == g.location)
  }

  const Everything := Scope(None, None, None)

  /** A batch applied, each reduced line added to its balance, which is created when it is missing. */
  function Applied(b: Balances, ms: seq<Movement>): Balances {
    map g | g in b.Keys + GrainsOf(ms) && (g in b || FirstGrain(ms, KeyOf(g)) == Some(g)) ::
      Combine(Stored(b, g), Applies(ms, g))
  }

  /** The movements up to a date; all of them when no date is given. */
  function Dated(ms: seq<Movement>, asOf: Option<int>): seq<Movement> {
    if ms == [] || asOf.None? then ms
    else
      var m := ms[|ms| - 1];
      var front := Dated(ms[..|ms| - 1], asOf);
      if m.effective.Some? && m.effective.value <= asOf.value then front + [m] else front
  }

  /** Movements grouped by balance, within a scope. */
  function Grouping(ms: seq<Movement>, scope: Scope): Balances {
    map g | g in GrainsOf(ms) && Within(scope, g) :: Replayed(ms, g)
  }

  /** What the aggregation reads from the ledger: the replay of every balance in scope that moved. */
  function Aggregated(ledger: seq<Movement>, scope: Scope, asOf: Option<int>): Balances {
    Grouping(Dated(ledger, asOf), scope)
  }

  /** The rows the comparison reads: with a scope and a date the filter names a field no balance has. */
  predicate Compares(scope: Scope, asOf: Option<int>, g: Grain) {
    scope == Everything || (asOf.None? && Within(scope, g))
  }

  /** Balances with no ledger behind them that are not zero already. */
  function Orphans(b: Balances, aggregated: Balances, scope: Scope, asOf: Option<int>): set<Grain> {
    set g | g in b && g !in aggregated && Compares(scope, asOf, g) && (b[g].onHand != 0 || b[g].reserved != 0)
  }

  /** The write: aggregated balances are set, orphans lose their quantities and count. */
  function Rewritten(b: Balances, aggregated: Balances, orphans: set<Grain>): Balances {
    map g | g in b.Keys + aggregated.Keys ::
      if g in aggregated then aggregated[g]
      else if g in orphans then b[g].(onHand := 0, reserved := 0, count := 0) else b[g]
  }

  class BalanceStore {
    var balances: Balances

    constructor ()
      ensures balances == map[]
    {
      balances := map[];
    }

    method ApplyMovements(movements: seq<Movement>)
      modifies this
      ensures forall g :: Stored(balances, g) == Combine(old(Stored(balances, g)), Applies(movements, g))
      ensures balances.Keys == old(balances.Keys) + (set g | g in GrainsOf(movements) && FirstGrain(movements, KeyOf(g)) == Some(g))
    {
      hide Combine, Effect, KeyOf, ReplayedKey;
      var deltas := ReduceMovements(movements);
      var pending := deltas.Keys;
      ghost var before := balances;
      ghost var done: set<Grain> := {};
      while pending != {}
        invariant pending <= deltas.Keys
        invariant forall k :: k in deltas.Keys ==> (k in pending <==> deltas[k].grain !in done)
        invariant forall g :: g in done ==> KeyOf(g) in deltas && deltas[KeyOf(g)].grain == g
        invariant forall g :: g !in done ==> Stored(balances, g) == Stored(before, g)
        invariant forall g :: g in done ==> Stored(balances, g) == Combine(Stored(before, g), Applies(movements, g))
        invariant balances.Keys == before.Keys + done
      {
        var k :| k in pending;
        var line := deltas[k];
        assert IsLineOf(movements, k, line);
        balances := balances[line.grain := Combine(Stored(balances, line.grain), line.delta)];
        pending := pending - {k};
        done := done + {line.grain};
      }
      AllApplied(movements, deltas, done);
      forall g | g !in done ensures Combine(Stored(before, g), Applies(movements, g)) == Stored(before, g) {
        NotFirst(movements, g);
        CombineLaws(Stored(before, g), Zero, Zero);
      }
    }

    /**
     * The current rows by their keys, less the keys that were aggregated. What is left is never more than
     * the orphans, and all of them when no two balances share a key.
     */
    method FindOrphans(aggregated: Balances, scope: Scope, asOf: Option<int>) returns (orphans: set<Grain>)
      ensures orphans <= Orphans(balances, aggregated, scope, asOf)
      ensures KeysApart(balances.Keys + aggregated.Keys) ==> orphans == Orphans(balances, aggregated, scope, asOf)
    {
      hide KeyOf, Compares;
      var byKey: map<string, Grain> := map[];
      var rows, rebuilt := balances.Keys, aggregated.Keys;
      while rows != {}
        invariant rows <= balances.Keys
        invariant forall k :: k in byKey ==> byKey[k] in balances && KeyOf(byKey[k]) == k && Compares(scope, asOf, byKey[k])
        invariant forall g :: g in balances && g !in rows && Compares(scope, asOf, g) ==> KeyOf(g) in byKey
      {
        var g :| g in rows;
        if Compares(scope, asOf, g) { byKey := byKey[KeyOf(g) := g]; }
        rows := rows - {g};
      }
      ghost var all := byKey;
      while rebuilt != {}
        invariant rebuilt <= aggregated.Keys
        invariant forall k :: k in byKey ==> k in all && byKey[k] == all[k]
        invariant forall k :: k in all ==> (k in byKey <==> forall h :: h in aggregated && h !in rebuilt ==> KeyOf(h) != k)
      {
        var h :| h in rebuilt;
        byKey := byKey - {KeyOf(h)};
        rebuilt := rebuilt - {h};
      }
      orphans := set k | k in byKey && (balances[byKey[k]].onHand != 0 || balances[byKey[k]].reserved != 0) :: byKey[k];
      if KeysApart(balances.Keys + aggregated.Keys) {
        forall g | g in Orphans(balances, aggregated, scope, asOf) ensures g in orphans {
          assert KeyOf(g) in all && all[KeyOf(g)] == g;
          assert KeyOf(g) in byKey;
        }
      }
    }

    /** Aggregate, find and write with nobody in between; a dry run only looks. */
    method Rebuild(ledger: seq<Movement>, scope: Scope, asOf: Option<int>, dryRun: bool)
      requires forall i :: 0 <= i < |ledger| ==> WellClassed(ledger[i])
      modifies this
      ensures dryRun ==> balances == old(balances)
      ensures !dryRun && KeysApart(old(balances.Keys) + Aggregated(ledger, scope, asOf).Keys) ==>
              balances == Rewritten(old(balances), Aggregated(ledger, scope, asOf),
                                    Orphans(old(balances), Aggregated(ledger, scope, asOf), scope, asOf))
    {
      hide Aggregated, Orphans, Rewritten, WellClassed, KeysApart;
      var aggregated := AggregateLedger(ledger, scope, asOf);
      var orphans := FindOrphans(aggregated, scope, asOf);
      if !dryRun { WriteRebuilt(aggregated, orphans); }
    }

    /** The two bulk writes. */
    method WriteRebuilt(aggregated: Balances, orphans: set<Grain>)
      modifies this
      ensures balances == Rewritten(old(balances), aggregated, orphans)
    {
      var zeroed := map g | g in balances ::
        if g in orphans then balances[g].(onHand := 0, reserved := 0, count := 0) else balances[g];
      balances := zeroed + aggregated;
    }
  }

  /** The aggregation over the ledger; with a well-classed ledger it is the reducer's replay. */
  method AggregateLedger(ledger: seq<Movement>, scope: Scope, asOf: Option<int>) returns (aggregated: Balances)
    requires forall i :: 0 <= i < |ledger| ==> WellClassed(ledger[i])
    ensures aggregated == Aggregated(ledger, scope, asOf)
  {
    hide Effect, Combine, Grouped, Grouping, Within, WellClassed, Stored;
    aggregated := map[];
    EmptyGrouping(scope);
    for n := 0 to |ledger|
      invariant aggregated == Grouping(Dated(ledger[..n], asOf), scope)
    {
      var m := ledger[n];
      assert ledger[..n + 1] == ledger[..n] + [m];
      DatedGrows(ledger[..n], m, asOf);
      GroupingGrows(Dated(ledger[..n], asOf), m, scope);
      GroupingAgrees(m);
      if (asOf.None? || (m.effective.Some? && m.effective.value <= asOf.value)) && Within(scope, m.grain) {
        aggregated := aggregated[m.grain := Combine(Stored(aggregated, m.grain), Grouped(m))];
      }
      assert Dated(ledger[..n], asOf) + [] == Dated(ledger[..n], asOf);
    }
    assert ledger[..|ledger|] == ledger;
  }

  lemma {:induction false} EmptyGrouping(scope: Scope)
    ensures forall asOf :: Grouping(Dated([], asOf), scope) == map[]
  {
  }

  lemma {:induction false} GroupingGrows(ms: seq<Movement>, m: Movement, scope: Scope)
    ensures var g := Grouping(ms, scope);
            Grouping(ms + [m], scope) == if Within(scope, m.grain) then g[m.grain := Combine(Stored(g, m.grain), Effect(m))] else g
  {
    hide Effect, Combine, Within;
    GrainsGrow(ms, m);
    AggregateGrows(ms, m);
    if m.grain !in GrainsOf(ms) { Untouched(ms, m.grain); }
  }

  lemma {:induction false} DatedGrows(ms: seq<Movement>, m: Movement, asOf: Option<int>)
    ensures Dated(ms + [m], asOf) == Dated(ms, asOf) +
            if asOf.None? || (m.effective.Some? && m.effective.value <= asOf.value) then [m] else []
  {
    assert (ms + [m])[..|ms|] == ms;
  }

  lemma {:induction false} AggregateGrows(ms: seq<Movement>, m: Movement)
    ensures forall g :: Replayed(ms + [m], g) == if m.grain == g then Combine(Replayed(ms, g), Effect(m)) else Replayed(ms, g)
  {
    forall g ensures Replayed(ms + [m], g) == if m.grain == g then Combine(Replayed(ms, g), Effect(m)) else Replayed(ms, g) {
      ReplayGrows(ms, m, g);
    }
  }

  lemma {:induction false} NotFirst(ms: seq<Movement>, g: Grain)
    ensures FirstGrain(ms, KeyOf(g)) != Some(g) ==> Applies(ms, g) == Zero
  {
  }

  lemma {:induction false} AllApplied(ms: seq<Movement>, deltas: Reduced, done: set<Grain>)
    requires IsReduction(ms, deltas)
    requires forall k :: k in deltas.Keys ==> deltas[k].grain in done
    requires forall g :: g in done ==> KeyOf(g) in deltas && deltas[KeyOf(g)].grain == g
    ensures forall g :: g in done <==> FirstGrain(ms, KeyOf(g)) == Some(g)
    ensures done == set g | g in GrainsOf(ms) && FirstGrain(ms, KeyOf(g)) == Some(g)
  {
    hide ReplayedKey, KeyOf;
    forall g ensures g in done <==> FirstGrain(ms, KeyOf(g)) == Some(g) {
      if FirstGrain(ms, KeyOf(g)) == Some(g) {
        assert IsLineOf(ms, KeyOf(g), deltas[KeyOf(g)]);
      }
      if g in done {
        assert IsLineOf(ms, KeyOf(g), deltas[KeyOf(g)]);
      }
    }
  }

  lemma {:induction false} AppliedStores(b: Balances, ms: seq<Movement>, g: Grain)
    ensures Stored(Applied(b, ms), g) == Combine(Stored(b, g), Applies(ms, g))
  {
    hide Combine, KeyOf, ReplayedKey;
    if g !in Applied(b, ms) {
      NotFirst(ms, g);
      CombineLaws(Zero, Zero, Zero);
    }
  }

  /**
   * Folding a batch in keeps a balance equal to the full replay exactly when the batch does not touch it
   * or nothing else in the batch shares its key; leaving it out, exactly when the batch does not touch it.
   */
  lemma {:induction false} PostingKeeps(b: Balances, ledger: seq<Movement>, ms: seq<Movement>, g: Grain)
    requires Stored(b, g) == Replayed(ledger, g)
    ensures Stored(Applied(b, ms), g) == Replayed(ledger + ms, g) <==> g !in GrainsOf(ms) || KeyToItself(ms, g)
    ensures Stored(b, g) == Replayed(ledger + ms, g) <==> g !in GrainsOf(ms)
  {
    hide Combine, Replayed, Applied, KeyToItself, GrainsOf, Applies;
    ReplaySplits(ledger, ms, g);
    AppliedStores(b, ms, g);
    AppliesExactlyWhen(ms, g);
    CombineCounts(Replayed(ledger, g), Replayed(ms, g));
    CombineCounts(Replayed(ledger, g), Applies(ms, g));
    if g !in GrainsOf(ms) {
      Untouched(ms, g);
      CombineLaws(Replayed(ledger, g), Zero, Zero);
    } else {
      CountGrows(ms, g);
    }
  }

  // ---------------------------------------------------------------------------------------
  // Derived figures
  // ---------------------------------------------------------------------------------------

  /** `deriveBalance(doc).available` */
  function Available(d: Delta): int {
    d.onHand - d.reserved
  }

  /** Reserving units of stock lowers what is available by as much and moves nothing in the building. */
  lemma {:induction false} ReservingKeepsStock(ledger: seq<Movement>, m: Movement)
    requires m.cls == Allocation
    ensures var before, after := Replayed(ledger, m.grain), Replayed(ledger + [m], m.grain);
            && after.onHand == before.onHand && Available(after) == Available(before) - m.quantity
            && after.movedPhysically == before.movedPhysically
  {
    assert (ledger + [m])[..|ledger|] == ledger;
  }
}
