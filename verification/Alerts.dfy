/**
 * Inventory alerts (backend/modules/inventory/alert.service.js, backend/models/InventoryAlert.js):
 * raising, clearing and moving alerts on, and the sweep over stock health, where each database write
 * is a step of its own and callers interleave between steps.
 */
module Alerts {
  import opened Options

  datatype Status = Open | Acknowledged | Resolved | Closed

  /** ALERT_TRANSITIONS */
  predicate Allowed(from: Status, to: Status) {
    match from
    case Open => to == Acknowledged || to == Resolved || to == Closed
    case Acknowledged => to == Resolved || to == Closed
    case Resolved => to == Closed
    case Closed => false
  }

  /** How far an alert's life has come. */
  function Stage(s: Status): nat {
    match s
    case Open => 0
    case Acknowledged => 1
    case Resolved => 2
    case Closed => 3
  }

  /** An alert moves on, over any stage, and never back. */
  lemma {:induction false} OnlyForward(from: Status, to: Status)
    ensures Allowed(from, to) <==> Stage(from) < Stage(to)
  {
  }

  datatype Alert = Alert(key: string, active: bool, status: Status, occurrences: nat)

  predicate Live(s: Status) {
    s == Open || s == Acknowledged
  }

  /** The active alert under a key; past the end when there is none. */
  function ActiveAt(alerts: seq<Alert>, key: string): (n: nat)
    ensures n <= |alerts| && (forall i :: 0 <= i < n ==> !(alerts[i].active && alerts[i].key == key))
    ensures n < |alerts| ==> alerts[n].active && alerts[n].key == key
  {
    if alerts == [] || (alerts[0].active && alerts[0].key == key) then 0
    else
      var n := ActiveAt(alerts[1..], key);
      assert forall i :: 1 <= i < |alerts| ==> alerts[i] == alerts[1..][i - 1];
      1 + n
  }

  function Touched(alerts: seq<Alert>, n: nat): seq<Alert>
    requires n < |alerts|
  {
    alerts[n := alerts[n].(occurrences := alerts[n].occurrences + 1)]
  }

  function Raised(alerts: seq<Alert>, key: string): seq<Alert> {
    alerts + [Alert(key, true, Open, 1)]
  }

  function Cleared(alerts: seq<Alert>, key: string): seq<Alert> {
    var n := ActiveAt(alerts, key);
    if n < |alerts| then alerts[n := alerts[n].(status := Resolved, active := false)] else alerts
  }

  /** A save writes the new status; resolving and closing also release the key, acknowledging does not look at it. */
  function Moved(a: Alert, to: Status): Alert {
    if to == Resolved || to == Closed then a.(status := to, active := false) else a.(status := to)
  }

  ghost predicate OneActive(alerts: seq<Alert>) {
    forall i, j :: 0 <= i < j < |alerts| && alerts[i].active && alerts[j].active ==> alerts[i].key != alerts[j].key
  }

  ghost predicate ActiveIsLive(alerts: seq<Alert>) {
    forall i :: 0 <= i < |alerts| && alerts[i].active ==> Live(alerts[i].status)
  }

  ghost predicate LiveIsActive(alerts: seq<Alert>) {
    forall i :: 0 <= i < |alerts| && Live(alerts[i].status) ==> alerts[i].active
  }

  /** How often a key has been seen over all its alerts. */
  function Occurrences(alerts: seq<Alert>, key: string): nat {
    if alerts == [] then 0
    else
      var a := alerts[|alerts| - 1];
      Occurrences(alerts[..|alerts| - 1], key) + if a.key == key then a.occurrences else 0
  }

  lemma {:induction false} OccurrencesAfter(alerts: seq<Alert>, n: nat, a: Alert, key: string)
    requires n < |alerts| && a.key == alerts[n].key
    ensures Occurrences(alerts[n := a], key) ==
            Occurrences(alerts, key) + if a.key == key then a.occurrences - alerts[n].occurrences else 0
  {
    var m := |alerts| - 1;
    if n == m {
      assert alerts[n := a][..m] == alerts[..m];
    } else {
      assert alerts[n := a][..m] == alerts[..m][n := a];
      OccurrencesAfter(alerts[..m], n, a, key);
    }
  }

  lemma {:induction false} OccurrencesSnoc(alerts: seq<Alert>, a: Alert, key: string)
    ensures Occurrences(alerts + [a], key) == Occurrences(alerts, key) + if a.key == key then a.occurrences else 0
  {
    assert (alerts + [a])[..|alerts|] == alerts;
  }

  /** Touching or raising keeps the book in order and counts the key once more. */
  lemma {:induction false} SeenOnceMore(alerts: seq<Alert>, key: string)
    requires OneActive(alerts) && ActiveIsLive(alerts) && LiveIsActive(alerts)
    ensures var n := ActiveAt(alerts, key);
            var after := if n < |alerts| then Touched(alerts, n) else Raised(alerts, key);
            && OneActive(after) && ActiveIsLive(after) && LiveIsActive(after)
            && forall k :: Occurrences(after, k) == Occurrences(alerts, k) + if k == key then 1 else 0
  {
    hide Occurrences;
    var n := ActiveAt(alerts, key);
    var after := if n < |alerts| then Touched(alerts, n) else Raised(alerts, key);
    forall k ensures Occurrences(after, k) == Occurrences(alerts, k) + if k == key then 1 else 0 {
      if n < |alerts| {
        OccurrencesAfter(alerts, n, alerts[n].(occurrences := alerts[n].occurrences + 1), k);
      } else {
        OccurrencesSnoc(alerts, Alert(key, true, Open, 1), k);
      }
    }
  }

  // ---------------------------------------------------------------------------------------
  // One caller at a time
  // ---------------------------------------------------------------------------------------

  datatype Outcome = Skipped | Created | Touch | Failed | ClearedOne | Nothing | Invalid | NotFound | Done

  class AlertBook {
    var alerts: seq<Alert>

    ghost predicate Valid()
      reads this
    {
      OneActive(alerts) && ActiveIsLive(alerts) && LiveIsActive(alerts)
    }

    constructor ()
      ensures Valid() && alerts == []
    {
      alerts := [];
    }

    /**
     * A key that is live already is touched; otherwise a new alert is raised, and stays even when its
     * delivery or the audit entry fails.
     */
    method Raise(key: string, enabled: bool, delivered: bool) returns (r: Outcome)
      requires Valid()
      modifies this
      ensures Valid()
      ensures r == if !enabled then Skipped
                   else if ActiveAt(old(alerts), key) < |old(alerts)| then Touch
                   else if delivered then Created else Failed
      ensures r == Skipped ==> alerts == old(alerts)
      ensures r == Touch ==> alerts == Touched(old(alerts), ActiveAt(old(alerts), key))
      ensures r == Created || r == Failed ==> alerts == Raised(old(alerts), key)
      ensures forall k :: Occurrences(alerts, k) == Occurrences(old(alerts), k) + if enabled && k == key then 1 else 0
    {
      hide OneActive, ActiveIsLive, LiveIsActive, Occurrences;
      if !enabled { return Skipped; }
      var n := ActiveAt(alerts, key);
      SeenOnceMore(alerts, key);
      if n < |alerts| {
        alerts := alerts[n := alerts[n].(occurrences := alerts[n].occurrences + 1)];
        return Touch;
      }
      alerts := alerts + [Alert(key, true, Open, 1)];
      return if delivered then Created else Failed;
    }

    method Clear(key: string) returns (r: Outcome)
      requires Valid()
      modifies this
      ensures Valid()
      ensures alerts == Cleared(old(alerts), key) && ActiveAt(alerts, key) == |alerts|
      ensures r == ClearedOne <==> ActiveAt(old(alerts), key) < |old(alerts)|
    {
      var n := ActiveAt(alerts, key);
      if n == |alerts| { return Nothing; }
      alerts := alerts[n := alerts[n].(status := Resolved, active := false)];
      return ClearedOne;
    }

    method Transition(n: nat, to: Status) returns (r: Outcome)
      requires Valid()
      modifies this
      ensures Valid()
      ensures r == (if n >= |old(alerts)| then NotFound else if Allowed(old(alerts)[n].status, to) then Done else Invalid)
      ensures r == Done ==> alerts == old(alerts)[n := Moved(old(alerts)[n], to)]
      ensures r != Done ==> alerts == old(alerts)
    {
      if n >= |alerts| { return NotFound; }
      if !Allowed(alerts[n].status, to) { return Invalid; }
      var alert := alerts[n].(status := to);
      if to == Resolved || to == Closed { alert := alert.(active := false); }
      alerts := alerts[n := alert];
      return Done;
    }
  }

  // ---------------------------------------------------------------------------------------
  // Callers that interleave
  // ---------------------------------------------------------------------------------------

  /**
   * What a sweep found out about a key: its condition is gone, or it holds, with what an alert already
   * there is due and whether a new one may be inserted in bulk (its rule is on, and not for immediate delivery).
   */
  datatype Observed = Gone | Still(changed: bool, stale: bool, bulk: bool)

  /** What a sweep has planned for a key. */
  datatype Write = Bump | Heartbeat | Resolve | Insert

  /**
   * A raise that found nothing to touch, one that lost the race to create, one that created and has
   * yet to deliver; a loaded alert to be saved; and a sweep with what it has yet to write.
   */
  datatype Caller =
    | Creating(key: string)
    | Retouching(key: string)
    | Delivering(key: string)
    | Moving(n: nat, was: Status, to: Status)
    | Sweeping(plan: map<string, Write>)

  /**
   * `reported` holds the key of every raise that has reported a touch or a creation, `lost` of every
   * one that created its alert and then failed or stopped, `swept` of every write of a sweep that counts.
   */
  datatype State = State(alerts: seq<Alert>, callers: map<nat, Caller>, reported: seq<string>, lost: seq<string>, swept: seq<string>)

  const QUIET: State := State([], map[], [], [], [])

  datatype Step =
    | TouchFirst(c: nat, key: string)
    | Create(c: nat)
    | TouchWinner(c: nat)
    | Deliver(c: nat, ok: bool)
    | Clear(key: string)
    | Load(c: nat, n: nat, to: Status)
    | Save(c: nat)
    | Sweep(c: nat, observed: map<string, Observed>)
    | WriteSwept(c: nat, key: string)
    | Stop(c: nat)

  function Dismiss(s: State, c: nat): State {
    s.(callers := map d | d in s.callers && d != c :: s.callers[d])
  }

  predicate LiveAt(alerts: seq<Alert>, key: string) {
    ActiveAt(alerts, key) < |alerts|
  }

  function TouchOr(s: State, c: nat, key: string, other: State): State {
    if LiveAt(s.alerts, key)
    then Dismiss(s, c).(alerts := Touched(s.alerts, ActiveAt(s.alerts, key)), reported := s.reported + [key])
    else other
  }

  /** The difference between what is live and what is observed. */
  function Planned(alerts: seq<Alert>, key: string, o: Observed): Option<Write> {
    if LiveAt(alerts, key) then
      match o
      case Gone => Some(Resolve)
      case Still(changed, stale, _) => if changed then Some(Bump) else if stale then Some(Heartbeat) else None
    else if o.Still? && o.bulk then Some(Insert) else None
  }

  function PlanOf(alerts: seq<Alert>, observed: map<string, Observed>): map<string, Write> {
    map k | k in observed && Planned(alerts, k, observed[k]).Some? :: Planned(alerts, k, observed[k]).value
  }

  /** Each update acts on whatever is live under the key by now; an insertion under a live key is refused. */
  function Swept(alerts: seq<Alert>, key: string, w: Write): seq<Alert> {
    match w
    case Bump => if LiveAt(alerts, key) then Touched(alerts, ActiveAt(alerts, key)) else alerts
    case Heartbeat => alerts
    case Resolve => Cleared(alerts, key)
    case Insert => if LiveAt(alerts, key) then alerts else Raised(alerts, key)
  }

  predicate Counts(alerts: seq<Alert>, key: string, w: Write) {
    (w == Bump && LiveAt(alerts, key)) || (w == Insert && !LiveAt(alerts, key))
  }

  function Next(s: State, step: Step): State {
    match step
    case TouchFirst(c, key) =>
      if c in s.callers then s else TouchOr(s, c, key, s.(callers := s.callers[c := Creating(key)]))
    case Create(c) =>
      if c !in s.callers || !s.callers[c].Creating? then s
      else
        var key := s.callers[c].key;
        // The partial unique index refuses a second active alert under the key.
        if LiveAt(s.alerts, key) then s.(callers := s.callers[c := Retouching(key)])
        else s.(callers := s.callers[c := Delivering(key)], alerts := Raised(s.alerts, key))
    case TouchWinner(c) =>
      if c in s.callers && s.callers[c].Retouching? then TouchOr(s, c, s.callers[c].key, Dismiss(s, c)) else s
    case Deliver(c, ok) =>
      if c !in s.callers || !s.callers[c].Delivering? then s
      else if ok then Dismiss(s, c).(reported := s.reported + [s.callers[c].key])
      else Dismiss(s, c).(lost := s.lost + [s.callers[c].key])
    case Clear(key) => s.(alerts := Cleared(s.alerts, key))
    case Load(c, n, to) =>
      if c in s.callers || n >= |s.alerts| || !Allowed(s.alerts[n].status, to) then s
      else s.(callers := s.callers[c := Moving(n, s.alerts[n].status, to)])
    case Save(c) =>
      if c in s.callers && s.callers[c].Moving? && s.callers[c].n < |s.alerts|
      then Dismiss(s, c).(alerts := s.alerts[s.callers[c].n := Moved(s.alerts[s.callers[c].n], s.callers[c].to)])
      else s
    case Sweep(c, observed) =>
      if c in s.callers then s else s.(callers := s.callers[c := Sweeping(PlanOf(s.alerts, observed))])
    case WriteSwept(c, key) =>
      if c !in s.callers || !s.callers[c].Sweeping? || key !in s.callers[c].plan then s
      else
        var w := s.callers[c].plan[key];
        s.(callers := s.callers[c := Sweeping(s.callers[c].plan - {key})], alerts := Swept(s.alerts, key, w),
           swept := if Counts(s.alerts, key, w) then s.swept + [key] else s.swept)
    case Stop(c) =>
      if c in s.callers && s.callers[c].Delivering? then Dismiss(s, c).(lost := s.lost + [s.callers[c].key])
      else Dismiss(s, c)
  }

  function Run(steps: seq<Step>): State {
    if steps == [] then QUIET else Next(Run(steps[..|steps| - 1]), steps[|steps| - 1])
  }

  function Times(log: seq<string>, key: string): nat {
    if log == [] then 0 else Times(log[..|log| - 1], key) + if log[|log| - 1] == key then 1 else 0
  }

  lemma {:induction false} TimesSnoc(log: seq<string>, k: string, key: string)
    ensures Times(log + [k], key) == Times(log, key) + if k == key then 1 else 0
  {
    assert (log + [k])[..|log|] == log;
  }

  /** The raises that have created an alert under the key and have yet to deliver it. */
  function InDelivery(callers: map<nat, Caller>, key: string): set<nat> {
    set c | c in callers && callers[c] == Delivering(key)
  }

  /** Every occurrence of a key comes from exactly one raise or sweep. */
  ghost predicate Counted(s: State, key: string) {
    Occurrences(s.alerts, key) ==
    Times(s.reported, key) + Times(s.lost, key) + Times(s.swept, key) + |InDelivery(s.callers, key)|
  }

  ghost predicate TransitionsOk(s: State) {
    forall c :: c in s.callers && s.callers[c].Moving? ==> Allowed(s.callers[c].was, s.callers[c].to)
  }

  ghost predicate Inv(s: State) {
    OneActive(s.alerts) && ActiveIsLive(s.alerts) && TransitionsOk(s)
  }

  lemma {:induction false} WritesKeep(alerts: seq<Alert>, n: nat, a: Alert)
    requires OneActive(alerts) && ActiveIsLive(alerts) && n < |alerts| && a.key == alerts[n].key
    requires a.active ==> alerts[n].active && Live(a.status)
    ensures OneActive(alerts[n := a]) && ActiveIsLive(alerts[n := a])
  {
  }

  lemma {:induction false} TouchKeeps(alerts: seq<Alert>, key: string)
    requires OneActive(alerts) && ActiveIsLive(alerts)
    ensures var n := ActiveAt(alerts, key);
            if n < |alerts| then OneActive(Touched(alerts, n)) && ActiveIsLive(Touched(alerts, n))
            else OneActive(Raised(alerts, key)) && ActiveIsLive(Raised(alerts, key))
  {
  }

  lemma {:induction false} SweptKeeps(alerts: seq<Alert>, key: string, w: Write)
    requires OneActive(alerts) && ActiveIsLive(alerts)
    ensures OneActive(Swept(alerts, key, w)) && ActiveIsLive(Swept(alerts, key, w))
  {
    hide OneActive, ActiveIsLive, Raised, Touched;
    TouchKeeps(alerts, key);
    ClearKeeps(alerts, key);
  }

  lemma {:induction false} ClearKeeps(alerts: seq<Alert>, key: string)
    requires OneActive(alerts) && ActiveIsLive(alerts)
    ensures OneActive(Cleared(alerts, key)) && ActiveIsLive(Cleared(alerts, key))
  {
    hide OneActive, ActiveIsLive;
    var n := ActiveAt(alerts, key);
    if n < |alerts| { WritesKeep(alerts, n, alerts[n].(status := Resolved, active := false)); }
  }

  lemma {:induction false} StepKeeps(s: State, step: Step)
    requires Inv(s)
    ensures Inv(Next(s, step))
  {
    hide OneActive, ActiveIsLive, Raised, Touched, Cleared, Swept, PlanOf;
    match step
    case TouchFirst(c, key) => TouchKeeps(s.alerts, key);
    case Create(c) => if c in s.callers && s.callers[c].Creating? { TouchKeeps(s.alerts, s.callers[c].key); }
    case TouchWinner(c) => if c in s.callers && s.callers[c].Retouching? { TouchKeeps(s.alerts, s.callers[c].key); }
    case Clear(key) => ClearKeeps(s.alerts, key);
    case Save(c) =>
      if c in s.callers && s.callers[c].Moving? && s.callers[c].n < |s.alerts| {
        var n, to := s.callers[c].n, s.callers[c].to;
        assert Allowed(s.callers[c].was, to);
        WritesKeep(s.alerts, n, Moved(s.alerts[n], to));
      }
    case WriteSwept(c, key) =>
      if c in s.callers && s.callers[c].Sweeping? && key in s.callers[c].plan {
        SweptKeeps(s.alerts, key, s.callers[c].plan[key]);
      }
    case Load(_, _, _) =>
    case Deliver(_, _) =>
    case Sweep(_, _) =>
    case Stop(_) =>
  }

  lemma {:induction false} OneDelivers(callers: map<nat, Caller>, c: nat, caller: Caller, key: string)
    requires c in callers ==> !callers[c].Delivering?
    ensures |InDelivery(callers[c := caller], key)| ==
            |InDelivery(callers, key)| + if caller == Delivering(key) then 1 else 0
  {
    var before, after := InDelivery(callers, key), InDelivery(callers[c := caller], key);
    assert c !in before;
    assert forall d :: d != c ==> (d in after <==> d in before);
    if caller == Delivering(key) {
      assert after == before + {c};
    } else {
      assert after == before;
    }
  }

  lemma {:induction false} OneDelivered(s: State, c: nat, key: string)
    ensures |InDelivery(s.callers, key)| ==
            |InDelivery(Dismiss(s, c).callers, key)| + if c in s.callers && s.callers[c] == Delivering(key) then 1 else 0
  {
    var before, after := InDelivery(s.callers, key), InDelivery(Dismiss(s, c).callers, key);
    assert c !in after;
    assert before == after + if c in s.callers && s.callers[c] == Delivering(key) then {c} else {};
  }

  lemma {:induction false} StepCounts(s: State, step: Step, key: string)
    requires Counted(s, key)
    ensures Counted(Next(s, step), key)
  {
    hide Occurrences, Times, Cleared, Swept, PlanOf, InDelivery, Counts;
    match step
    case TouchFirst(c, k) =>
      if c !in s.callers {
        if LiveAt(s.alerts, k) { TouchCounts(s, c, k, key); }
        OneDelivers(s.callers, c, Creating(k), key);
      }
    case Create(c) =>
      if c in s.callers && s.callers[c].Creating? {
        var k := s.callers[c].key;
        OccurrencesSnoc(s.alerts, Alert(k, true, Open, 1), key);
        OneDelivers(s.callers, c, Retouching(k), key);
        OneDelivers(s.callers, c, Delivering(k), key);
      }
    case TouchWinner(c) =>
      if c in s.callers && s.callers[c].Retouching? {
        if LiveAt(s.alerts, s.callers[c].key) { TouchCounts(s, c, s.callers[c].key, key); }
        OneDelivered(s, c, key);
      }
    case Deliver(c, ok) =>
      if c in s.callers && s.callers[c].Delivering? { DeliveryCounts(s, c, key); }
    case Clear(k) => ClearCounts(s.alerts, k, key);
    case Load(c, n, to) =>
      if c !in s.callers && n < |s.alerts| { OneDelivers(s.callers, c, Moving(n, s.alerts[n].status, to), key); }
    case Save(c) =>
      OneDelivered(s, c, key);
      if c in s.callers && s.callers[c].Moving? && s.callers[c].n < |s.alerts| {
        OccurrencesAfter(s.alerts, s.callers[c].n, Moved(s.alerts[s.callers[c].n], s.callers[c].to), key);
      }
    case Sweep(c, observed) =>
      if c !in s.callers { OneDelivers(s.callers, c, Sweeping(PlanOf(s.alerts, observed)), key); }
    case WriteSwept(c, k) =>
      if c in s.callers && s.callers[c].Sweeping? && k in s.callers[c].plan {
        SweptCounts(s.alerts, k, s.callers[c].plan[k], key);
        TimesSnoc(s.swept, k, key);
        OneDelivers(s.callers, c, Sweeping(s.callers[c].plan - {k}), key);
      }
    case Stop(c) =>
      OneDelivered(s, c, key);
      if c in s.callers && s.callers[c].Delivering? { DeliveryCounts(s, c, key); }
  }

  lemma {:induction false} DeliveryCounts(s: State, c: nat, key: string)
    requires c in s.callers && s.callers[c].Delivering? && Counted(s, key)
    ensures Counted(Dismiss(s, c).(reported := s.reported + [s.callers[c].key]), key)
    ensures Counted(Dismiss(s, c).(lost := s.lost + [s.callers[c].key]), key)
  {
    hide Occurrences, Times, InDelivery;
    OneDelivered(s, c, key);
    TimesSnoc(s.reported, s.callers[c].key, key);
    TimesSnoc(s.lost, s.callers[c].key, key);
  }

  lemma {:induction false} ClearCounts(alerts: seq<Alert>, k: string, key: string)
    ensures Occurrences(Cleared(alerts, k), key) == Occurrences(alerts, key)
  {
    var n := ActiveAt(alerts, k);
    if n < |alerts| { OccurrencesAfter(alerts, n, alerts[n].(status := Resolved, active := false), key); }
  }

  lemma {:induction false} TouchedCounts(alerts: seq<Alert>, k: string, key: string)
    requires LiveAt(alerts, k)
    ensures Occurrences(Touched(alerts, ActiveAt(alerts, k)), key) == Occurrences(alerts, key) + if k == key then 1 else 0
  {
    var n := ActiveAt(alerts, k);
    OccurrencesAfter(alerts, n, alerts[n].(occurrences := alerts[n].occurrences + 1), key);
  }

  lemma {:induction false} SweptCounts(alerts: seq<Alert>, k: string, w: Write, key: string)
    ensures Occurrences(Swept(alerts, k, w), key) ==
            Occurrences(alerts, key) + if Counts(alerts, k, w) && k == key then 1 else 0
  {
    hide Occurrences, Touched;
    if LiveAt(alerts, k) { TouchedCounts(alerts, k, key); }
    ClearCounts(alerts, k, key);
    OccurrencesSnoc(alerts, Alert(k, true, Open, 1), key);
  }

  lemma {:induction false} TouchCounts(s: State, c: nat, k: string, key: string)
    requires Counted(s, key) && LiveAt(s.alerts, k) && (c in s.callers ==> !s.callers[c].Delivering?)
    ensures Counted(TouchOr(s, c, k, s), key)
  {
    hide Occurrences, Times, InDelivery, Touched;
    TouchedCounts(s.alerts, k, key);
    TimesSnoc(s.reported, k, key);
    OneDelivered(s, c, key);
  }

  /**
   * In every run each dedupe key has at most one active alert, an active alert is open or
   * acknowledged, and a key's occurrences over all its alerts are the raises that reported a touch or a
   * creation, those that created and then failed, those that created and are still delivering, and the
   * counting writes of sweeps.
   */
  lemma {:induction false} AlertsDeduplicated(steps: seq<Step>, key: string)
    ensures Inv(Run(steps)) && Counted(Run(steps), key)
  {
    if steps != [] {
      hide Next, Inv, Counted;
      AlertsDeduplicated(steps[..|steps| - 1], key);
      StepKeeps(Run(steps[..|steps| - 1]), steps[|steps| - 1]);
      StepCounts(Run(steps[..|steps| - 1]), steps[|steps| - 1], key);
    } else {
      assert Counted(QUIET, key);
    }
  }

  /** A raise nobody interferes with reports: a touch of the live alert, or a new one that is open. */
  lemma {:induction false} RaiseAloneReports(s: State, c: nat, key: string)
    requires c !in s.callers
    ensures var t := Next(Next(Next(s, TouchFirst(c, key)), Create(c)), Deliver(c, true));
            && t.reported == s.reported + [key] && t.callers == s.callers && t.lost == s.lost
            && if LiveAt(s.alerts, key) then
                 var n := ActiveAt(s.alerts, key);
                 t.alerts == s.alerts[n := s.alerts[n].(occurrences := s.alerts[n].occurrences + 1)]
               else t.alerts == s.alerts + [Alert(key, true, Open, 1)]
  {
  }

  /** One that lost the race to create touches the alert of the one that won. */
  lemma {:induction false} LostRaceTouches(s: State, c: nat, key: string)
    requires c in s.callers && s.callers[c] == Creating(key) && LiveAt(s.alerts, key)
    ensures var t, n := Next(Next(s, Create(c)), TouchWinner(c)), ActiveAt(s.alerts, key);
            && t.reported == s.reported + [key] && c !in t.callers
            && t.alerts == s.alerts[n := s.alerts[n].(occurrences := s.alerts[n].occurrences + 1)]
  {
  }

  /** A raise can report failure and have counted: its alert is created and the audit entry then fails. */
  lemma {:induction false} FailedRaiseCounts(s: State, c: nat, key: string)
    requires c !in s.callers && !LiveAt(s.alerts, key)
    ensures var t := Next(Next(Next(s, TouchFirst(c, key)), Create(c)), Deliver(c, false));
            && t.reported == s.reported && t.callers == s.callers
            && Occurrences(t.alerts, key) == Occurrences(s.alerts, key) + 1
  {
    hide Occurrences;
    OccurrencesSnoc(s.alerts, Alert(key, true, Open, 1), key);
  }

  // ---------------------------------------------------------------------------------------
  // What a sweep settles
  // ---------------------------------------------------------------------------------------

  /** The sweep planned a touch, and the alert it meant to touch has been released since. */
  predicate TouchesNothing(read: seq<Alert>, now: seq<Alert>, key: string, o: Observed) {
    LiveAt(read, key) && o.Still? && !LiveAt(now, key)
  }

  /** Nothing was live, nothing is planned, and what is live by now does not fit what was observed. */
  predicate LeftAsItIs(read: seq<Alert>, now: seq<Alert>, key: string, o: Observed) {
    !LiveAt(read, key) && if o.Gone? then LiveAt(now, key) else !o.bulk && !LiveAt(now, key)
  }

  function AfterSweep(read: seq<Alert>, now: seq<Alert>, key: string, o: Observed): seq<Alert> {
    if Planned(read, key, o).Some? then Swept(now, key, Planned(read, key, o).value) else now
  }

  /**
   * Between the sweep's reading and its write anything may have happened. Its write leaves the key live
   * exactly when the condition holds, unless a key found live was released in the meantime, or one
   * found without an alert and left alone was raised, or not raised by its own caller; and no other key
   * is affected.
   */
  lemma {:induction false} SweepSettlesExactlyWhen(read: seq<Alert>, now: seq<Alert>, key: string, o: Observed)
    requires OneActive(now)
    ensures (LiveAt(AfterSweep(read, now, key, o), key) <==> o.Still?)
            <==> !TouchesNothing(read, now, key, o) && !LeftAsItIs(read, now, key, o)
    ensures forall k :: k != key ==> (LiveAt(AfterSweep(read, now, key, o), k) <==> LiveAt(now, k))
  {
    hide OneActive;
    TouchedIsLive(now, key);
    ClearedIsNot(now, key);
    RaisedIsLive(now, key);
  }

  /** The write counts an occurrence: what an alert live throughout was seen to be has changed, or the alert is new. */
  predicate CountsOne(read: seq<Alert>, now: seq<Alert>, key: string, o: Observed) {
    o.Still? && LiveAt(now, key) == LiveAt(read, key) && if LiveAt(read, key) then o.changed else o.bulk
  }

  /** The sweep measures the condition and not how often it ran. */
  lemma {:induction false} SweepCountsExactlyWhen(read: seq<Alert>, now: seq<Alert>, key: string, o: Observed)
    ensures forall k :: Occurrences(AfterSweep(read, now, key, o), k)
                        == Occurrences(now, k) + if k == key && CountsOne(read, now, key, o) then 1 else 0
  {
    hide Occurrences, LiveAt, Swept;
    forall k ensures Occurrences(AfterSweep(read, now, key, o), k)
                     == Occurrences(now, k) + if k == key && CountsOne(read, now, key, o) then 1 else 0
    {
      if Planned(read, key, o).Some? { SweptCounts(now, key, Planned(read, key, o).value, k); }
    }
  }

  function RunFrom(s: State, steps: seq<Step>): State {
    if steps == [] then s else Next(RunFrom(s, steps[..|steps| - 1]), steps[|steps| - 1])
  }

  /** The sweep goes on, and has not come to this key yet. */
  predicate Spares(step: Step, c: nat, key: string) {
    step != Stop(c) && step != WriteSwept(c, key)
  }

  /** Caller c is a sweep, with this planned for the key. */
  predicate Plans(s: State, c: nat, key: string, w: Option<Write>) {
    && c in s.callers && s.callers[c].Sweeping?
    && (key in s.callers[c].plan <==> w.Some?) && (w.Some? && key in s.callers[c].plan ==> s.callers[c].plan[key] == w.value)
  }

  lemma {:induction false} StepSpares(s: State, step: Step, c: nat, key: string, w: Option<Write>)
    requires Plans(s, c, key, w) && Spares(step, c, key)
    ensures Plans(Next(s, step), c, key, w)
  {
    hide PlanOf, Raised, Touched, Cleared, Swept, Counts, Moved, Allowed, LiveAt, ActiveAt;
    match step
    case WriteSwept(d, k) =>
      if d == c { assert k != key; }
    case Stop(d) => assert d != c;
    case _ =>
  }

  /** A sweep at work holds to what it planned for a key until it writes it. */
  lemma {:induction false} PlanStays(s: State, c: nat, observed: map<string, Observed>, key: string, between: seq<Step>)
    requires c !in s.callers && key in observed
    requires forall i :: 0 <= i < |between| ==> Spares(between[i], c, key)
    ensures Plans(RunFrom(Next(s, Sweep(c, observed)), between), c, key, Planned(s.alerts, key, observed[key]))
  {
    if between != [] {
      hide Next, Plans, Planned, Spares;
      var n := |between| - 1;
      PlanStays(s, c, observed, key, between[..n]);
      StepSpares(RunFrom(Next(s, Sweep(c, observed)), between[..n]), between[n], c, key, Planned(s.alerts, key, observed[key]));
    }
  }

  lemma {:induction false} RunContinues(steps: seq<Step>, more: seq<Step>)
    ensures Run(steps + more) == RunFrom(Run(steps), more)
    decreases |more|
  {
    hide Next;
    if more == [] {
      assert steps + more == steps;
    } else {
      assert (steps + more)[..|steps + more| - 1] == steps + more[..|more| - 1];
      RunContinues(steps, more[..|more| - 1]);
    }
  }

  /**
   * In every run: a sweep reads, others do whatever they do, and the sweep then comes to the key. That
   * settles the key on what was observed unless a key found live has been released in between, or one found
   * without an alert and left alone was raised, or not raised by its own caller. It counts an occurrence only
   * where what was observed has changed.
   */
  lemma {:induction false} SweepInARunExactlyWhen(before: seq<Step>, c: nat, observed: map<string, Observed>, key: string,
                                                  between: seq<Step>)
    requires c !in Run(before).callers && key in observed
    requires forall i :: 0 <= i < |between| ==> Spares(between[i], c, key)
    ensures var read := Run(before).alerts;
            var now := Run(before + [Sweep(c, observed)] + between).alerts;
            var after := Run(before + [Sweep(c, observed)] + between + [WriteSwept(c, key)]).alerts;
            && ((LiveAt(after, key) <==> observed[key].Still?) <==>
                  !TouchesNothing(read, now, key, observed[key]) && !LeftAsItIs(read, now, key, observed[key]))
            && (forall k :: k != key ==> (LiveAt(after, k) <==> LiveAt(now, k)))
            && forall k :: Occurrences(after, k)
                           == Occurrences(now, k) + if k == key && CountsOne(read, now, key, observed[key]) then 1 else 0
  {
    hide Occurrences, CountsOne, Inv, LiveAt, TouchesNothing, LeftAsItIs, AfterSweep, Planned, Plans, Next, Counted;
    var s := Run(before);
    var upTo := before + [Sweep(c, observed)] + between;
    assert upTo == before + ([Sweep(c, observed)] + between);
    AlertsDeduplicated(upTo, key);
    assert OneActive(Run(upTo).alerts) by { InvIsOneActive(Run(upTo)); }
    RunTo(before, Sweep(c, observed), between);
    PlanStays(s, c, observed, key, between);
    WritesAsPlanned(Run(upTo), c, key, s.alerts, observed[key]);
    assert (upTo + [WriteSwept(c, key)])[..|upTo|] == upTo;
    SweepSettlesExactlyWhen(s.alerts, Run(upTo).alerts, key, observed[key]);
    SweepCountsExactlyWhen(s.alerts, Run(upTo).alerts, key, observed[key]);
  }

  lemma {:induction false} WritesAsPlanned(s: State, c: nat, key: string, read: seq<Alert>, o: Observed)
    requires Plans(s, c, key, Planned(read, key, o))
    ensures Next(s, WriteSwept(c, key)).alerts == AfterSweep(read, s.alerts, key, o)
  {
    hide Planned, Swept;
  }

  lemma {:induction false} InvIsOneActive(s: State)
    requires Inv(s)
    ensures OneActive(s.alerts)
  {
  }

  lemma {:induction false} RunTo(before: seq<Step>, step: Step, between: seq<Step>)
    ensures Run(before + [step] + between) == RunFrom(Next(Run(before), step), between)
  {
    hide Next;
    assert (before + [step])[..|before|] == before;
    RunContinues(before + [step], between);
  }

  lemma {:induction false} LiveIs(alerts: seq<Alert>, key: string)
    ensures LiveAt(alerts, key) <==> exists i :: 0 <= i < |alerts| && alerts[i].active && alerts[i].key == key
  {
  }

  lemma {:induction false} TouchedIsLive(alerts: seq<Alert>, key: string)
    ensures LiveAt(alerts, key) ==>
            forall k :: LiveAt(Touched(alerts, ActiveAt(alerts, key)), k) <==> LiveAt(alerts, k)
  {
    if LiveAt(alerts, key) {
      var n := ActiveAt(alerts, key);
      var after := Touched(alerts, n);
      forall k ensures LiveAt(after, k) <==> LiveAt(alerts, k) {
        SameLiveness(alerts, after, k);
      }
    }
  }

  lemma {:induction false} SameLiveness(alerts: seq<Alert>, after: seq<Alert>, k: string)
    requires |after| == |alerts|
    requires forall i :: 0 <= i < |alerts| ==> (after[i].active && after[i].key == k <==> alerts[i].active && alerts[i].key == k)
    ensures LiveAt(after, k) <==> LiveAt(alerts, k)
  {
    LiveIs(alerts, k);
    LiveIs(after, k);
    hide LiveAt;
    if i :| 0 <= i < |alerts| && alerts[i].active && alerts[i].key == k {
      assert after[i].active && after[i].key == k;
    }
  }

  lemma {:induction false} ClearedIsNot(alerts: seq<Alert>, key: string)
    requires OneActive(alerts)
    ensures !LiveAt(Cleared(alerts, key), key)
    ensures forall k :: k != key ==> (LiveAt(Cleared(alerts, key), k) <==> LiveAt(alerts, k))
  {
    var n := ActiveAt(alerts, key);
    if n < |alerts| {
      forall k | k != key ensures LiveAt(Cleared(alerts, key), k) <==> LiveAt(alerts, k) {
        SameLiveness(alerts, Cleared(alerts, key), k);
      }
      LiveIs(Cleared(alerts, key), key);
    }
  }

  lemma {:induction false} RaisedIsLive(alerts: seq<Alert>, key: string)
    ensures LiveAt(Raised(alerts, key), key)
    ensures forall k :: k != key ==> (LiveAt(Raised(alerts, key), k) <==> LiveAt(alerts, k))
  {
    var after := Raised(alerts, key);
    LiveIs(after, key);
    assert after[|alerts|].active && after[|alerts|].key == key;
    forall k | k != key ensures LiveAt(after, k) <==> LiveAt(alerts, k) {
      LiveIs(after, k);
      LiveIs(alerts, k);
      if i :| 0 <= i < |alerts| && alerts[i].active && alerts[i].key == k { assert after[i] == alerts[i]; }
    }
  }

  // ---------------------------------------------------------------------------------------
  // The converse
  // ---------------------------------------------------------------------------------------

  /** The save is an acknowledgement of an alert whose key has been released since it was loaded. */
  predicate RevivesReleased(s: State, step: Step) {
    step.Save? && step.c in s.callers && s.callers[step.c].Moving? && s.callers[step.c].n < |s.alerts|
    && s.callers[step.c].to == Acknowledged && !s.alerts[s.callers[step.c].n].active
  }

  /**
   * "Active while open or acknowledged" is kept by a step exactly when the step is not a late
   * acknowledgement of an alert that has been cleared, resolved or closed in the meantime.
   */
  lemma {:induction false} LiveStaysActiveExactlyWhen(s: State, step: Step)
    requires Inv(s) && LiveIsActive(s.alerts)
    ensures LiveIsActive(Next(s, step).alerts) <==> !RevivesReleased(s, step)
  {
    if RevivesReleased(s, step) {
      var n := s.callers[step.c].n;
      assert Live(Next(s, step).alerts[n].status) && !Next(s, step).alerts[n].active;
    } else if step.Save? && step.c in s.callers && s.callers[step.c].Moving? && s.callers[step.c].n < |s.alerts| {
      assert Allowed(s.callers[step.c].was, s.callers[step.c].to);
    }
  }

  /** And a late acknowledgement can happen: an alert is loaded, its condition clears, the save goes through. */
  lemma {:induction false} LateAcknowledgement(key: string)
    ensures var s := Run([TouchFirst(0, key), Create(0), Load(1, 0, Acknowledged), Clear(key), Save(1)]);
            s.alerts == [Alert(key, false, Acknowledged, 1)]
  {
    var steps := [TouchFirst(0, key), Create(0), Load(1, 0, Acknowledged), Clear(key), Save(1)];
    hide Run, Next;
    RunFive(steps);
    Raises(key);
    ClearsAndSaves(key, Next(Next(QUIET, steps[0]), steps[1]));
  }

  lemma {:induction false} RunFive(steps: seq<Step>)
    requires |steps| == 5
    ensures Run(steps) == Next(Next(Next(Next(Next(QUIET, steps[0]), steps[1]), steps[2]), steps[3]), steps[4])
  {
    hide Next;
    assert steps[..4][..3] == steps[..3] && steps[..3][..2] == steps[..2] && steps[..2][..1] == steps[..1];
    assert steps[..1][..0] == [];
    assert Run(steps[..1]) == Next(QUIET, steps[0]);
    assert Run(steps[..2]) == Next(Run(steps[..1]), steps[1]);
    assert Run(steps[..3]) == Next(Run(steps[..2]), steps[2]);
    assert Run(steps[..4]) == Next(Run(steps[..3]), steps[3]);
  }

  lemma {:induction false} Raises(key: string)
    ensures var s := Next(Next(QUIET, TouchFirst(0, key)), Create(0));
            s.alerts == [Alert(key, true, Open, 1)] && s.callers == map[0 := Delivering(key)]
  {
    assert ActiveAt([], key) == 0;
    var t := Next(QUIET, TouchFirst(0, key));
    assert t.callers == map[0 := Creating(key)] && t.alerts == [];
  }

  lemma {:induction false} ClearsAndSaves(key: string, s: State)
    requires s.alerts == [Alert(key, true, Open, 1)] && s.callers == map[0 := Delivering(key)]
    ensures Next(Next(Next(s, Load(1, 0, Acknowledged)), Clear(key)), Save(1)).alerts == [Alert(key, false, Acknowledged, 1)]
  {
    assert ActiveAt(s.alerts, key) == 0;
    var t := Next(Next(s, Load(1, 0, Acknowledged)), Clear(key));
    assert t.alerts == [Alert(key, false, Resolved, 1)];
    assert t.callers[1] == Moving(0, Open, Acknowledged);
  }
}
