/**
 * The permission registry: a matrix of module, sub-module and action translated to the flat keys
 * the code enforces, and back (backend/config/moduleRegistry.js). The registry is a parameter.
 */
module ModuleRegistry {
  import opened Options

  type Key = string
  type Action = string

  const WILDCARD: Key := "*"

  const ACTIONS: seq<Action> := ["view", "create", "edit", "delete", "approve"]

  datatype Submodule = Submodule(key: string, actions: map<Action, seq<Key>>)
  datatype Module = Module(key: string, submodules: seq<Submodule>)

  datatype Grant = Grant(moduleKey: string, submodule: string, actions: seq<Action>)

  /** One sub-module of the registry with the module it sits in. */
  datatype Entry = Entry(moduleKey: string, sub: Submodule)

  function Tagged(moduleKey: string, subs: seq<Submodule>): (r: seq<Entry>)
    ensures |r| == |subs|
  {
    seq(|subs|, j requires 0 <= j < |subs| => Entry(moduleKey, subs[j]))
  }

  /** The registry in reading order: modules, then their sub-modules. */
  function Flat(modules: seq<Module>): seq<Entry> {
    if modules == [] then []
    else
      var last := modules[|modules| - 1];
      Flat(modules[..|modules| - 1]) + Tagged(last.key, last.submodules)
  }

  lemma {:induction false} FlatStep(modules: seq<Module>, i: nat)
    requires i < |modules|
    ensures Flat(modules[..i + 1]) == Flat(modules[..i]) + Tagged(modules[i].key, modules[i].submodules)
  {
    assert modules[..i + 1][..i] == modules[..i];
  }

  // ---------------------------------------------------------------------------------------
  // Lookups
  // ---------------------------------------------------------------------------------------

  function CellId(moduleKey: string, submodule: string): string {
    moduleKey + "." + submodule
  }

  predicate DotFree(s: string) {
    '.' !in s && s != ""
  }

  /** The keys of a dot-free pair can be read back from its id. */
  lemma {:induction false} CellIdInjective(m: string, s: string, m': string, s': string)
    requires DotFree(m) && DotFree(s)
    ensures CellId(m, s) == CellId(m', s') ==> m == m' && s == s'
  {
    var id := CellId(m, s);
    if id == CellId(m', s') {
      assert id[|m'|] == '.';
      assert forall i :: 0 <= i < |id| && id[i] == '.' ==> i == |m|;
      assert id[..|m|] == m && id[|m| + 1..] == s;
      assert id[..|m'|] == m' && id[|m'| + 1..] == s';
    }
  }

  predicate WellNamed(e: Entry) {
    DotFree(e.moduleKey) && DotFree(e.sub.key)
  }

  predicate Offers(e: Entry, a: Action) {
    a in ACTIONS && a in e.sub.actions
  }

  ghost predicate SameCell(e: Entry, f: Entry) {
    e.moduleKey == f.moduleKey && e.sub.key == f.sub.key
  }

  /** Keys are non-empty and dot-free, name one sub-module each, and only known actions are listed. */
  ghost predicate WellFormed(reg: seq<Entry>) {
    && (forall i :: 0 <= i < |reg| ==> WellNamed(reg[i]) && forall a :: a in reg[i].sub.actions ==> a in ACTIONS)
    && (forall i, j :: 0 <= i < j < |reg| ==> !SameCell(reg[i], reg[j]))
  }

  /** The sub-module of a cell; unique in a well-formed registry. */
  function Find(reg: seq<Entry>, moduleKey: string, submodule: string): Option<Submodule> {
    if reg == [] then None
    else
      var e := reg[|reg| - 1];
      if e.moduleKey == moduleKey && e.sub.key == submodule then Some(e.sub)
      else Find(reg[..|reg| - 1], moduleKey, submodule)
  }

  lemma {:induction false} FindAt(reg: seq<Entry>, i: nat)
    requires WellFormed(reg) && i < |reg|
    ensures Find(reg, reg[i].moduleKey, reg[i].sub.key) == Some(reg[i].sub)
  {
    var n := |reg| - 1;
    if i < n {
      assert !SameCell(reg[i], reg[n]);
      FindAt(reg[..n], i);
    }
  }

  lemma {:induction false} FoundIsThere(reg: seq<Entry>, m: string, s: string)
    requires Find(reg, m, s).Some?
    ensures exists i :: 0 <= i < |reg| && reg[i] == Entry(m, Find(reg, m, s).value) && reg[i].sub.key == s
  {
    var n := |reg| - 1;
    if !(reg[n].moduleKey == m && reg[n].sub.key == s) {
      FoundIsThere(reg[..n], m, s);
      var i :| 0 <= i < n && reg[..n][i] == Entry(m, Find(reg[..n], m, s).value) && reg[i].sub.key == s;
      assert reg[i] == reg[..n][i];
    }
  }

  /** The index holds, under the joined id, exactly what `Find` answers for the pair. */
  ghost predicate Indexes(index: map<string, Submodule>, reg: seq<Entry>) {
    forall m, s :: if Find(reg, m, s).Some? then CellId(m, s) in index && index[CellId(m, s)] == Find(reg, m, s).value
                   else CellId(m, s) !in index
  }

  lemma {:induction false} IndexStep(index: map<string, Submodule>, reg: seq<Entry>, e: Entry)
    requires Indexes(index, reg) && WellNamed(e)
    ensures Indexes(index[CellId(e.moduleKey, e.sub.key) := e.sub], reg + [e])
  {
    var index' := index[CellId(e.moduleKey, e.sub.key) := e.sub];
    assert (reg + [e])[..|reg|] == reg;
    forall m, s
      ensures if Find(reg + [e], m, s).Some? then CellId(m, s) in index' && index'[CellId(m, s)] == Find(reg + [e], m, s).value
              else CellId(m, s) !in index'
    {
      CellIdInjective(e.moduleKey, e.sub.key, m, s);
    }
  }

  lemma {:induction false} IndexOfNothing()
    ensures Indexes(map[], [])
  {
  }

  /** `SUBMODULE_INDEX`: built once by two nested loops, keyed by the joined id. */
  method BuildIndex(modules: seq<Module>) returns (index: map<string, Submodule>)
    requires WellFormed(Flat(modules))
    ensures Indexes(index, Flat(modules))
  {
    hide Indexes;
    IndexOfNothing();
    index := map[];
    for i := 0 to |modules|
      invariant Indexes(index, Flat(modules[..i]))
    {
      var mod := modules[i];
      ghost var before := Flat(modules[..i]);
      assert before + Tagged(mod.key, mod.submodules[..0]) == before;
      for j := 0 to |mod.submodules|
        invariant Indexes(index, before + Tagged(mod.key, mod.submodules[..j]))
      {
        var sub := mod.submodules[j];
        FlatEntry(modules, i, j);
        IndexStep(index, before + Tagged(mod.key, mod.submodules[..j]), Entry(mod.key, sub));
        assert before + Tagged(mod.key, mod.submodules[..j + 1])
            == before + Tagged(mod.key, mod.submodules[..j]) + [Entry(mod.key, sub)];
        index := index[CellId(mod.key, sub.key) := sub];
      }
      assert mod.submodules[..|mod.submodules|] == mod.submodules;
      FlatStep(modules, i);
    }
    assert modules[..|modules|] == modules;
  }

  lemma {:induction false} FlatEntry(modules: seq<Module>, i: nat, j: nat)
    requires i < |modules| && j < |modules[i].submodules|
    ensures exists k :: 0 <= k < |Flat(modules)| && Flat(modules)[k] == Entry(modules[i].key, modules[i].submodules[j])
    decreases |modules|
  {
    var n := |modules| - 1;
    if i == n {
      assert Flat(modules)[|Flat(modules[..n])| + j] == Entry(modules[i].key, modules[i].submodules[j]);
    } else {
      FlatEntry(modules[..n], i, j);
      var k :| 0 <= k < |Flat(modules[..n])| && Flat(modules[..n])[k] == Entry(modules[i].key, modules[i].submodules[j]);
      assert Flat(modules)[k] == Flat(modules[..n])[k];
    }
  }

  /** The flat keys one cell stands for; nothing for a cell the registry does not know. */
  function KeysForGrant(reg: seq<Entry>, moduleKey: string, submodule: string, action: Action): seq<Key> {
    match Find(reg, moduleKey, submodule)
    case None => []
    case Some(sub) => if action in sub.actions then sub.actions[action] else []
  }

  // ---------------------------------------------------------------------------------------
  // compileGrants
  // ---------------------------------------------------------------------------------------

  /** Some ticked cell of the list stands for the key. A grant without a module or sub-module is skipped. */
  ghost predicate Gives(reg: seq<Entry>, g: Grant, key: Key) {
    g.moduleKey != "" && g.submodule != ""
    && exists a :: a in g.actions && key in KeysForGrant(reg, g.moduleKey, g.submodule, a)
  }

  ghost predicate Compiles(reg: seq<Entry>, grants: seq<Grant>, key: Key) {
    exists i :: 0 <= i < |grants| && Gives(reg, grants[i], key)
  }

  ghost function Compiled(reg: seq<Entry>, grants: seq<Grant>): iset<Key> {
    iset key | Compiles(reg, grants, key)
  }

  method KeysOfGrant(reg: seq<Entry>, g: Grant) returns (keys: set<Key>)
    requires g.moduleKey != "" && g.submodule != ""
    ensures forall key :: key in keys <==> Gives(reg, g, key)
  {
    keys := {};
    for j := 0 to |g.actions|
      invariant forall key :: key in keys <==>
                  exists k :: 0 <= k < j && key in KeysForGrant(reg, g.moduleKey, g.submodule, g.actions[k])
    {
      var granted := KeysForGrant(reg, g.moduleKey, g.submodule, g.actions[j]);
      for k := 0 to |granted|
        invariant forall key :: key in keys <==>
                  (key in granted[..k]
                   || exists k :: 0 <= k < j && key in KeysForGrant(reg, g.moduleKey, g.submodule, g.actions[k]))
      {
        keys := keys + {granted[k]};
      }
    }
  }

  method CompileGrants(reg: seq<Entry>, grants: seq<Grant>) returns (permissions: set<Key>)
    ensures forall key :: key in permissions <==> key in Compiled(reg, grants)
  {
    permissions := {};
    for i := 0 to |grants|
      invariant forall key :: key in permissions <==> exists k :: 0 <= k < i && Gives(reg, grants[k], key)
    {
      var grant := grants[i];
      if grant.moduleKey != "" && grant.submodule != "" {
        var keys := KeysOfGrant(reg, grant);
        permissions := permissions + keys;
      }
    }
  }

  // ---------------------------------------------------------------------------------------
  // grantsFromPermissions
  // ---------------------------------------------------------------------------------------

  function Filter(s: seq<Action>, keep: Action -> bool): (r: seq<Action>)
    ensures forall a :: a in r <==> a in s && keep(a)
  {
    if s == [] then []
    else if keep(s[0]) then [s[0]] + Filter(s[1..], keep)
    else Filter(s[1..], keep)
  }

  lemma {:induction false} FilterSame(s: seq<Action>, p: Action -> bool, q: Action -> bool)
    requires forall a :: a in s ==> p(a) == q(a)
    ensures Filter(s, p) == Filter(s, q)
  {
    if s != [] {
      FilterSame(s[1..], p, q);
    }
  }

  /** A cell is lit when every key behind it is held, or the wildcard is. */
  ghost predicate Lit(e: Entry, a: Action, held: iset<Key>) {
    Offers(e, a) && (WILDCARD in held || forall key :: key in e.sub.actions[a] ==> key in held)
  }

  ghost function LitActions(e: Entry, held: iset<Key>): (r: seq<Action>)
    ensures forall a :: a in r <==> Lit(e, a, held)
  {
    Filter(ACTIONS, a => Lit(e, a, held))
  }

  ghost function GrantsOf(e: Entry, held: iset<Key>): seq<Grant> {
    var actions := LitActions(e, held);
    if actions == [] then [] else [Grant(e.moduleKey, e.sub.key, actions)]
  }

  ghost function FromPermissions(reg: seq<Entry>, held: iset<Key>): seq<Grant> {
    if reg == [] then []
    else FromPermissions(reg[..|reg| - 1], held) + GrantsOf(reg[|reg| - 1], held)
  }

  ghost function KeySet(keys: seq<Key>): iset<Key> {
    iset key | key in keys
  }

  predicate AllHeld(keys: seq<Key>, held: set<Key>) {
    forall key :: key in keys ==> key in held
  }

  predicate Earned(e: Entry, a: Action, held: set<Key>) {
    a in e.sub.actions && (WILDCARD in held || AllHeld(e.sub.actions[a], held))
  }

  method LitActionsOf(e: Entry, held: set<Key>, ghost all: iset<Key>) returns (actions: seq<Action>)
    requires all == iset key | key in held
    ensures actions == LitActions(e, all)
  {
    actions := Filter(ACTIONS, a => Earned(e, a, held));
    forall a | a in ACTIONS ensures Earned(e, a, held) == Lit(e, a, all) {}
    FilterSame(ACTIONS, a => Earned(e, a, held), a => Lit(e, a, all));
  }

  lemma {:induction false} FromPermissionsSnoc(reg: seq<Entry>, moduleKey: string, subs: seq<Submodule>, j: nat, held: iset<Key>)
    requires j < |subs|
    ensures FromPermissions(reg + Tagged(moduleKey, subs[..j + 1]), held)
            == FromPermissions(reg + Tagged(moduleKey, subs[..j]), held) + GrantsOf(Entry(moduleKey, subs[j]), held)
  {
    hide GrantsOf;
    var upTo := reg + Tagged(moduleKey, subs[..j + 1]);
    assert upTo[..|upTo| - 1] == reg + Tagged(moduleKey, subs[..j]);
    assert upTo[|upTo| - 1] == Entry(moduleKey, subs[j]);
  }

  /** The inner loop: one grant for each sub-module of a module that has a lit action. */
  method GrantsOfModule(mod: Module, held: set<Key>, ghost all: iset<Key>, ghost before: seq<Entry>, given: seq<Grant>)
    returns (grants: seq<Grant>)
    requires all == iset key | key in held
    requires given == FromPermissions(before, all)
    ensures grants == FromPermissions(before + Tagged(mod.key, mod.submodules), all)
  {
    grants := given;
    assert before + Tagged(mod.key, mod.submodules[..0]) == before;
    for j := 0 to |mod.submodules|
      invariant grants == FromPermissions(before + Tagged(mod.key, mod.submodules[..j]), all)
    {
      FromPermissionsSnoc(before, mod.key, mod.submodules, j, all);
      var actions := LitActionsOf(Entry(mod.key, mod.submodules[j]), held, all);
      if |actions| > 0 {
        grants := grants + [Grant(mod.key, mod.submodules[j].key, actions)];
      }
    }
    assert mod.submodules[..|mod.submodules|] == mod.submodules;
  }

  /** The matrix cells a flat permission set lights up, in registry order. */
  method GrantsFromPermissions(modules: seq<Module>, permissionKeys: seq<Key>) returns (grants: seq<Grant>)
    ensures grants == FromPermissions(Flat(modules), KeySet(permissionKeys))
  {
    var held := set key | key in permissionKeys;
    ghost var all := KeySet(permissionKeys);
    assert all == iset key | key in held;
    grants := [];
    for i := 0 to |modules|
      invariant grants == FromPermissions(Flat(modules[..i]), all)
    {
      grants := GrantsOfModule(modules[i], held, all, Flat(modules[..i]), grants);
      FlatStep(modules, i);
    }
    assert modules[..|modules|] == modules;
  }

  // ---------------------------------------------------------------------------------------
  // The adjunction
  // ---------------------------------------------------------------------------------------

  ghost predicate HasCell(grants: seq<Grant>, m: string, s: string, a: Action) {
    exists i :: 0 <= i < |grants| && grants[i].moduleKey == m && grants[i].submodule == s && a in grants[i].actions
  }

  ghost predicate Registered(reg: seq<Entry>, m: string, s: string, a: Action) {
    Find(reg, m, s).Some? && a in Find(reg, m, s).value.actions
  }

  lemma {:induction false} HasCellConcat(g: seq<Grant>, h: seq<Grant>, m: string, s: string, a: Action)
    ensures HasCell(g + h, m, s, a) <==> HasCell(g, m, s, a) || HasCell(h, m, s, a)
  {
    if i :| 0 <= i < |g| && g[i].moduleKey == m && g[i].submodule == s && a in g[i].actions {
      assert (g + h)[i] == g[i];
    }
    if i :| 0 <= i < |h| && h[i].moduleKey == m && h[i].submodule == s && a in h[i].actions {
      assert (g + h)[|g| + i] == h[i];
    }
  }

  lemma {:induction false} CellOfEntry(e: Entry, held: iset<Key>, m: string, s: string, a: Action)
    ensures HasCell(GrantsOf(e, held), m, s, a) <==> e.moduleKey == m && e.sub.key == s && Lit(e, a, held)
  {
    if Lit(e, a, held) {
      assert a in GrantsOf(e, held)[0].actions;
    }
  }

  lemma {:induction false} LastIsOnly(reg: seq<Entry>, m: string, s: string)
    requires WellFormed(reg) && reg != []
    requires reg[|reg| - 1].moduleKey == m && reg[|reg| - 1].sub.key == s
    ensures Find(reg[..|reg| - 1], m, s).None?
  {
    var n := |reg| - 1;
    assert forall i :: 0 <= i < n ==> !SameCell(reg[..n][i], reg[n]);
    if Find(reg[..n], m, s).Some? {
      FoundIsThere(reg[..n], m, s);
    }
  }

  /** A cell is in the derived matrix exactly when it is registered and lit. */
  lemma {:induction false} CellLit(reg: seq<Entry>, held: iset<Key>, m: string, s: string, a: Action)
    requires WellFormed(reg)
    ensures HasCell(FromPermissions(reg, held), m, s, a)
            <==> Find(reg, m, s).Some? && Lit(Entry(m, Find(reg, m, s).value), a, held)
  {
    hide GrantsOf, Lit, HasCell;
    if reg == [] {
      NoCells(m, s, a);
    } else {
      var n := |reg| - 1;
      var e := reg[n];
      HasCellConcat(FromPermissions(reg[..n], held), GrantsOf(e, held), m, s, a);
      CellLit(reg[..n], held, m, s, a);
      CellOfEntry(e, held, m, s, a);
      if e.moduleKey == m && e.sub.key == s {
        LastIsOnly(reg, m, s);
      }
    }
  }

  lemma {:induction false} NoCells(m: string, s: string, a: Action)
    ensures !HasCell([], m, s, a)
  {
  }

  lemma {:induction false} RegisteredIsOffered(reg: seq<Entry>, m: string, s: string, a: Action)
    requires WellFormed(reg) && Registered(reg, m, s, a)
    ensures m != "" && s != "" && Offers(Entry(m, Find(reg, m, s).value), a)
  {
    FoundIsThere(reg, m, s);
  }

  /**
   * The matrix derived from a permission set is the largest one it pays for: a list of grants
   * compiles into the set exactly when each of its registered cells is in that matrix.
   */
  lemma {:induction false} Adjunction(reg: seq<Entry>, grants: seq<Grant>, held: iset<Key>)
    requires WellFormed(reg) && WILDCARD !in held
    ensures Compiled(reg, grants) <= held
            <==> forall m, s, a :: HasCell(grants, m, s, a) && Registered(reg, m, s, a)
                                   ==> HasCell(FromPermissions(reg, held), m, s, a)
  {
    forall m, s, a | HasCell(grants, m, s, a) && Registered(reg, m, s, a)
      ensures HasCell(FromPermissions(reg, held), m, s, a)
              <==> forall key :: key in KeysForGrant(reg, m, s, a) ==> key in held
      ensures forall key :: key in KeysForGrant(reg, m, s, a) ==> Compiles(reg, grants, key)
    {
      CellLit(reg, held, m, s, a);
      RegisteredIsOffered(reg, m, s, a);
      CellCompiles(reg, grants, m, s, a);
    }
    forall key | Compiles(reg, grants, key)
      ensures exists m, s, a :: HasCell(grants, m, s, a) && Registered(reg, m, s, a) && key in KeysForGrant(reg, m, s, a)
    {
      var i :| 0 <= i < |grants| && Gives(reg, grants[i], key);
      var a :| a in grants[i].actions && key in KeysForGrant(reg, grants[i].moduleKey, grants[i].submodule, a);
      assert HasCell(grants, grants[i].moduleKey, grants[i].submodule, a);
    }
  }

  lemma {:induction false} CellCompiles(reg: seq<Entry>, grants: seq<Grant>, m: string, s: string, a: Action)
    requires WellFormed(reg) && HasCell(grants, m, s, a) && Registered(reg, m, s, a)
    ensures forall key :: key in KeysForGrant(reg, m, s, a) ==> Compiles(reg, grants, key)
  {
    RegisteredIsOffered(reg, m, s, a);
    var i :| 0 <= i < |grants| && grants[i].moduleKey == m && grants[i].submodule == s && a in grants[i].actions;
    forall key | key in KeysForGrant(reg, m, s, a) ensures Compiles(reg, grants, key) {
      assert Gives(reg, grants[i], key);
    }
  }

  /** Migrating a role through the matrix never over-grants. */
  lemma {:induction false} RoundTripNeverOverGrants(reg: seq<Entry>, held: iset<Key>)
    requires WellFormed(reg) && WILDCARD !in held
    ensures Compiled(reg, FromPermissions(reg, held)) <= held
  {
    Adjunction(reg, FromPermissions(reg, held), held);
  }

  lemma {:induction false} SameLitSameGrants(reg: seq<Entry>, h: iset<Key>, k: iset<Key>)
    requires forall i, a :: 0 <= i < |reg| ==> (Lit(reg[i], a, h) <==> Lit(reg[i], a, k))
    ensures FromPermissions(reg, h) == FromPermissions(reg, k)
  {
    if reg != [] {
      var n := |reg| - 1;
      assert forall i :: 0 <= i < n ==> reg[..n][i] == reg[i];
      SameLitSameGrants(reg[..n], h, k);
      FilterSame(ACTIONS, a => Lit(reg[n], a, h), a => Lit(reg[n], a, k));
    }
  }

  /** From permissions to a matrix and back to permissions loses no cell, wildcard or not. */
  lemma {:induction false} MatrixIsStable(reg: seq<Entry>, held: iset<Key>)
    requires WellFormed(reg)
    ensures FromPermissions(reg, Compiled(reg, FromPermissions(reg, held))) == FromPermissions(reg, held)
  {
    var grants := FromPermissions(reg, held);
    var back := Compiled(reg, grants);
    if WILDCARD !in held {
      RoundTripNeverOverGrants(reg, held);
    }
    forall i, a | 0 <= i < |reg| ensures Lit(reg[i], a, held) <==> Lit(reg[i], a, back) {
      var e := reg[i];
      FindAt(reg, i);
      CellLit(reg, held, e.moduleKey, e.sub.key, a);
      if Lit(e, a, held) {
        CellCompiles(reg, grants, e.moduleKey, e.sub.key, a);
      }
    }
    SameLitSameGrants(reg, held, back);
  }

  /**
   * From a matrix to permissions and back keeps the permissions exactly, unless the matrix compiles
   * to the wildcard without compiling to everything the registry can grant.
   */
  lemma {:induction false} PermissionsAreStable(reg: seq<Entry>, grants: seq<Grant>)
    requires WellFormed(reg)
    ensures var p := Compiled(reg, grants);
            Compiled(reg, FromPermissions(reg, p)) == p
            <==> WILDCARD !in p || forall m, s, a :: Registered(reg, m, s, a) ==>
                                     forall key :: key in KeysForGrant(reg, m, s, a) ==> key in p
  {
    var p := Compiled(reg, grants);
    var matrix := FromPermissions(reg, p);
    forall key | key in p ensures Compiles(reg, matrix, key) {
      var i :| 0 <= i < |grants| && Gives(reg, grants[i], key);
      var g := grants[i];
      var a :| a in g.actions && key in KeysForGrant(reg, g.moduleKey, g.submodule, a);
      assert HasCell(grants, g.moduleKey, g.submodule, a);
      CellCompiles(reg, grants, g.moduleKey, g.submodule, a);
      RegisteredIsOffered(reg, g.moduleKey, g.submodule, a);
      CellLit(reg, p, g.moduleKey, g.submodule, a);
      CellCompiles(reg, matrix, g.moduleKey, g.submodule, a);
    }
    if WILDCARD !in p {
      RoundTripNeverOverGrants(reg, p);
    } else {
      forall m, s, a, key | Registered(reg, m, s, a) && key in KeysForGrant(reg, m, s, a)
        ensures Compiles(reg, matrix, key)
      {
        RegisteredIsOffered(reg, m, s, a);
        CellLit(reg, p, m, s, a);
        CellCompiles(reg, matrix, m, s, a);
      }
      forall key | Compiles(reg, matrix, key)
        ensures exists m, s, a :: Registered(reg, m, s, a) && key in KeysForGrant(reg, m, s, a)
      {
        var i :| 0 <= i < |matrix| && Gives(reg, matrix[i], key);
        var a :| a in matrix[i].actions && key in KeysForGrant(reg, matrix[i].moduleKey, matrix[i].submodule, a);
        assert Registered(reg, matrix[i].moduleKey, matrix[i].submodule, a);
      }
    }
  }

  // ---------------------------------------------------------------------------------------
  // validateGrants
  // ---------------------------------------------------------------------------------------

  /** A grant as it arrives; `actions` is None when it is not an array. */
  datatype RawGrant = RawGrant(moduleKey: string, submodule: string, actions: Option<seq<Action>>)

  datatype Problem =
    | NotAnArray
    | UnknownCell(id: string)
    | ListedTwice(id: string)
    | ActionsNotAnArray(id: string)
    | UnknownAction(action: Action, id: string)
    | NotAvailable(action: Action, id: string)

  datatype Validated = Accepted(grants: seq<Grant>) | Refused(problem: Problem)

  function Id(g: RawGrant): string {
    CellId(g.moduleKey, g.submodule)
  }

  function Ordered(actions: seq<Action>): (r: seq<Action>)
    ensures forall a :: a in r <==> a in ACTIONS && a in actions
  {
    Filter(ACTIONS, a => a in actions)
  }

  /** The first action of the list that is unknown or not offered. */
  function ActionProblem(sub: Submodule, actions: seq<Action>, id: string): (p: Option<Problem>)
    ensures p.None? <==> forall a :: a in actions ==> a in ACTIONS && a in sub.actions
  {
    if actions == [] then None
    else if actions[0] !in ACTIONS then Some(UnknownAction(actions[0], id))
    else if actions[0] !in sub.actions then Some(NotAvailable(actions[0], id))
    else ActionProblem(sub, actions[1..], id)
  }

  /** What is wrong with the i-th grant, given the ones before it. */
  function ProblemAt(reg: seq<Entry>, grants: seq<RawGrant>, i: nat): Option<Problem>
    requires i < |grants|
  {
    var g := grants[i];
    var found := Find(reg, g.moduleKey, g.submodule);
    if found.None? then Some(UnknownCell(Id(g)))
    else if exists k :: 0 <= k < i && Id(grants[k]) == Id(g) then Some(ListedTwice(Id(g)))
    else if g.actions.None? then Some(ActionsNotAnArray(Id(g)))
    else ActionProblem(found.value, g.actions.value, Id(g))
  }

  function CleanGrant(g: RawGrant): seq<Grant> {
    var unique := Ordered(g.actions.GetOr([]));
    if unique == [] then [] else [Grant(g.moduleKey, g.submodule, unique)]
  }

  function Clean(grants: seq<RawGrant>): seq<Grant> {
    if grants == [] then [] else Clean(grants[..|grants| - 1]) + CleanGrant(grants[|grants| - 1])
  }

  /** The checks of one grant, in the order they are made. */
  method CheckGrant(reg: seq<Entry>, index: map<string, Submodule>, grants: seq<RawGrant>, i: nat, seen: set<string>)
    returns (problem: Option<Problem>)
    requires Indexes(index, reg) && i < |grants|
    requires seen == set k | 0 <= k < i :: Id(grants[k])
    ensures problem == ProblemAt(reg, grants, i)
  {
    var g := grants[i];
    var id := CellId(g.moduleKey, g.submodule);
    if id !in index {
      return Some(UnknownCell(id));
    }
    if id in seen {
      return Some(ListedTwice(id));
    }
    if g.actions.None? {
      return Some(ActionsNotAnArray(id));
    }
    problem := ActionProblem(index[id], g.actions.value, id);
  }

  lemma {:induction false} CleanSnoc(grants: seq<RawGrant>, i: nat)
    requires i < |grants|
    ensures Clean(grants[..i + 1]) == Clean(grants[..i]) + CleanGrant(grants[i])
  {
    assert grants[..i + 1][..i] == grants[..i];
  }

  /** Refuses at the first problem; accepts exactly when there is none, with the list normalised. */
  method ValidateGrants(reg: seq<Entry>, index: map<string, Submodule>, input: Option<seq<RawGrant>>) returns (v: Validated)
    requires Indexes(index, reg)
    ensures match v
            case Accepted(grants) =>
              input.Some? && grants == Clean(input.value) && Acceptable(reg, input.value)
            case Refused(p) =>
              if input.None? then p == NotAnArray
              else exists i :: 0 <= i < |input.value| && ProblemAt(reg, input.value, i) == Some(p)
                               && forall k :: 0 <= k < i ==> ProblemAt(reg, input.value, k).None?
  {
    hide ProblemAt, Clean, CleanGrant;
    if input.None? {
      return Refused(NotAnArray);
    }
    var grants := input.value;
    var clean: seq<Grant>, seen: set<string> := Clean([]), {};
    for i := 0 to |grants|
      invariant clean == Clean(grants[..i])
      invariant seen == set k | 0 <= k < i :: Id(grants[k])
      invariant forall k :: 0 <= k < i ==> ProblemAt(reg, grants, k).None?
    {
      var problem := CheckGrant(reg, index, grants, i, seen);
      if problem.Some? {
        return Refused(problem.value);
      }
      seen := seen + {Id(grants[i])};
      CleanSnoc(grants, i);
      clean := clean + CleanGrant(grants[i]);
    }
    assert grants[..|grants|] == grants;
    return Accepted(clean);
  }

  ghost predicate Acceptable(reg: seq<Entry>, grants: seq<RawGrant>) {
    forall i :: 0 <= i < |grants| ==> ProblemAt(reg, grants, i).None?
  }

  predicate SameGrant(g: Grant, m: string, s: string) {
    g.moduleKey == m && g.submodule == s
  }

  /** Offered actions only, at least one, each once and in display order. */
  predicate NormalEntry(reg: seq<Entry>, g: Grant) {
    && g.actions != []
    && g.actions == Ordered(g.actions)
    && Find(reg, g.moduleKey, g.submodule).Some?
    && forall a :: a in g.actions ==> a in Find(reg, g.moduleKey, g.submodule).value.actions
  }

  /** One normal entry per sub-module. */
  ghost predicate IsNormal(reg: seq<Entry>, grants: seq<Grant>) {
    && (forall i :: 0 <= i < |grants| ==> NormalEntry(reg, grants[i]))
    && (forall i, j :: 0 <= i < j < |grants| ==> !SameGrant(grants[i], grants[j].moduleKey, grants[j].submodule))
  }

  function Raw(grants: seq<Grant>): (r: seq<RawGrant>)
    ensures |r| == |grants|
  {
    seq(|grants|, i requires 0 <= i < |grants| => RawGrant(grants[i].moduleKey, grants[i].submodule, Some(grants[i].actions)))
  }

  function Cooked(grants: seq<RawGrant>): (r: seq<Grant>)
    ensures |r| == |grants|
  {
    seq(|grants|, i requires 0 <= i < |grants| => Grant(grants[i].moduleKey, grants[i].submodule, grants[i].actions.GetOr([])))
  }

  lemma {:induction false} OrderedTwice(actions: seq<Action>)
    ensures Ordered(Ordered(actions)) == Ordered(actions)
  {
    FilterSame(ACTIONS, a => a in Ordered(actions), a => a in actions);
  }

  lemma {:induction false} CleanComesFrom(grants: seq<RawGrant>, i: nat)
    requires i < |Clean(grants)|
    ensures exists k :: 0 <= k < |grants| && CleanGrant(grants[k]) == [Clean(grants)[i]]
  {
    var n := |grants| - 1;
    if i < |Clean(grants[..n])| {
      CleanComesFrom(grants[..n], i);
      var k :| 0 <= k < n && CleanGrant(grants[..n][k]) == [Clean(grants[..n])[i]];
      assert CleanGrant(grants[k]) == [Clean(grants)[i]];
    } else {
      assert CleanGrant(grants[n]) == [Clean(grants)[i]];
    }
  }

  lemma {:induction false} AcceptablePrefix(reg: seq<Entry>, grants: seq<RawGrant>)
    requires Acceptable(reg, grants) && grants != []
    ensures Acceptable(reg, grants[..|grants| - 1])
  {
    var front := grants[..|grants| - 1];
    forall i | 0 <= i < |front| ensures ProblemAt(reg, front, i).None? {
      assert ProblemAt(reg, grants, i).None?;
      assert forall k :: 0 <= k < i ==> front[k] == grants[k];
    }
  }

  /** One entry of a normal list. */
  lemma {:induction false} CleanGrantIsNormal(reg: seq<Entry>, g: RawGrant)
    requires g.actions.Some? && Find(reg, g.moduleKey, g.submodule).Some?
    requires forall a :: a in g.actions.value ==> a in Find(reg, g.moduleKey, g.submodule).value.actions
    ensures forall i :: 0 <= i < |CleanGrant(g)| ==> NormalEntry(reg, CleanGrant(g)[i])
  {
    OrderedTwice(g.actions.value);
  }

  /** Accepted lists come out in normal form. */
  lemma {:induction false} CleanIsNormal(reg: seq<Entry>, grants: seq<RawGrant>)
    requires WellFormed(reg) && Acceptable(reg, grants)
    ensures IsNormal(reg, Clean(grants))
  {
    if grants != [] {
      var n := |grants| - 1;
      var front, g := grants[..n], grants[n];
      AcceptablePrefix(reg, grants);
      CleanIsNormal(reg, front);
      NoProblem(reg, grants, n);
      CleanGrantIsNormal(reg, g);
      forall i | 0 <= i < |Clean(front)|
        ensures !SameGrant(Clean(front)[i], g.moduleKey, g.submodule)
      {
        CleanComesFrom(front, i);
        var k :| 0 <= k < n && CleanGrant(front[k]) == [Clean(front)[i]];
        assert Id(grants[k]) != Id(g);
      }
      NormalConcat(reg, Clean(front), CleanGrant(g));
    }
  }

  lemma {:induction false} NormalConcat(reg: seq<Entry>, front: seq<Grant>, last: seq<Grant>)
    requires IsNormal(reg, front) && |last| <= 1
    requires forall i :: 0 <= i < |last| ==> NormalEntry(reg, last[i])
    requires forall i :: 0 <= i < |front| && last != [] ==> !SameGrant(front[i], last[0].moduleKey, last[0].submodule)
    ensures IsNormal(reg, front + last)
  {
    hide NormalEntry;
  }

  lemma {:induction false} NormalIdsDiffer(reg: seq<Entry>, grants: seq<Grant>, k: nat, i: nat)
    requires WellFormed(reg) && IsNormal(reg, grants) && k < i < |grants|
    ensures Id(Raw(grants)[k]) != Id(Raw(grants)[i])
  {
    hide NormalEntry;
    var g := grants[i];
    assert NormalEntry(reg, g) && !SameGrant(grants[k], g.moduleKey, g.submodule);
    NormalIsNamed(reg, g);
    CellIdInjective(g.moduleKey, g.submodule, grants[k].moduleKey, grants[k].submodule);
  }

  lemma {:induction false} NormalIsNamed(reg: seq<Entry>, g: Grant)
    requires WellFormed(reg) && NormalEntry(reg, g)
    ensures DotFree(g.moduleKey) && DotFree(g.submodule) && Find(reg, g.moduleKey, g.submodule).Some?
    ensures CleanGrant(RawGrant(g.moduleKey, g.submodule, Some(g.actions))) == [g]
    ensures ActionProblem(Find(reg, g.moduleKey, g.submodule).value, g.actions, CellId(g.moduleKey, g.submodule)).None?
  {
    hide Find, Filter, ActionProblem;
    FoundIsThere(reg, g.moduleKey, g.submodule);
  }

  lemma {:induction false} NormalEntryAccepted(reg: seq<Entry>, grants: seq<Grant>, i: nat)
    requires WellFormed(reg) && IsNormal(reg, grants) && i < |grants|
    ensures ProblemAt(reg, Raw(grants), i).None?
    ensures CleanGrant(Raw(grants)[i]) == [grants[i]]
  {
    hide NormalEntry, Find, Filter, ActionProblem, CleanGrant, Id;
    var g := grants[i];
    assert NormalEntry(reg, g);
    NormalIsNamed(reg, g);
    forall k | 0 <= k < i {
      NormalIdsDiffer(reg, grants, k, i);
    }
    assert Id(Raw(grants)[i]) == CellId(g.moduleKey, g.submodule) by {
      IdOf(Raw(grants)[i]);
    }
  }

  lemma {:induction false} IdOf(g: RawGrant)
    ensures Id(g) == CellId(g.moduleKey, g.submodule)
  {
  }

  lemma {:induction false} CleanOfNormal(reg: seq<Entry>, grants: seq<Grant>, n: nat)
    requires WellFormed(reg) && IsNormal(reg, grants) && n <= |grants|
    ensures Clean(Raw(grants)[..n]) == grants[..n]
  {
    hide NormalEntry, CleanGrant;
    if n > 0 {
      CleanOfNormal(reg, grants, n - 1);
      CleanSnoc(Raw(grants), n - 1);
      NormalEntryAccepted(reg, grants, n - 1);
    }
  }

  /** A list in normal form is accepted and returned unchanged. */
  lemma {:induction false} NormalIsFixed(reg: seq<Entry>, grants: seq<Grant>)
    requires WellFormed(reg) && IsNormal(reg, grants)
    ensures Acceptable(reg, Raw(grants)) && Clean(Raw(grants)) == grants
  {
    hide NormalEntry, CleanGrant, ProblemAt;
    forall i | 0 <= i < |grants| {
      NormalEntryAccepted(reg, grants, i);
    }
    CleanOfNormal(reg, grants, |grants|);
    assert Raw(grants)[..|grants|] == Raw(grants);
    assert grants[..|grants|] == grants;
  }

  lemma {:induction false} CompiledConcat(reg: seq<Entry>, g: seq<Grant>, h: seq<Grant>)
    ensures Compiled(reg, g + h) == Compiled(reg, g) + Compiled(reg, h)
  {
    forall key ensures Compiles(reg, g + h, key) <==> Compiles(reg, g, key) || Compiles(reg, h, key) {
      if i :| 0 <= i < |g| && Gives(reg, g[i], key) {
        assert (g + h)[i] == g[i];
      }
      if i :| 0 <= i < |h| && Gives(reg, h[i], key) {
        assert (g + h)[|g| + i] == h[i];
      }
    }
  }

  /** Normalising changes nothing about what the list grants. */
  lemma {:induction false} CleanGrantsTheSame(reg: seq<Entry>, grants: seq<RawGrant>)
    requires WellFormed(reg) && Acceptable(reg, grants)
    ensures Compiled(reg, Clean(grants)) == Compiled(reg, Cooked(grants))
  {
    hide Compiles, CleanGrant;
    if grants != [] {
      var n := |grants| - 1;
      AcceptablePrefix(reg, grants);
      CleanGrantsTheSame(reg, grants[..n]);
      var last := Cooked(grants)[n];
      assert Cooked(grants) == Cooked(grants[..n]) + [last];
      CompiledConcat(reg, Cooked(grants[..n]), [last]);
      CompiledConcat(reg, Clean(grants[..n]), CleanGrant(grants[n]));
      NoProblem(reg, grants, n);
      CleanGrantMeans(reg, grants[n]);
    }
  }

  /** The grant names a registered sub-module that offers all its actions, and that no grant before it names. */
  ghost predicate GrantFits(reg: seq<Entry>, grants: seq<RawGrant>, i: nat)
    requires i < |grants|
  {
    && grants[i].actions.Some? && OffersAll(reg, grants[i].moduleKey, grants[i].submodule, grants[i].actions.value)
    && forall k :: 0 <= k < i ==> grants[k].moduleKey != grants[i].moduleKey || grants[k].submodule != grants[i].submodule
  }

  ghost predicate OffersAll(reg: seq<Entry>, m: string, s: string, actions: seq<Action>) {
    exists i :: 0 <= i < |reg| && reg[i].moduleKey == m && reg[i].sub.key == s && forall a :: a in actions ==> Offers(reg[i], a)
  }

  lemma {:induction false} OffersAllIs(reg: seq<Entry>, m: string, s: string, actions: seq<Action>)
    requires WellFormed(reg)
    ensures OffersAll(reg, m, s, actions) <==>
            Find(reg, m, s).Some? && forall a :: a in actions ==> a in ACTIONS && a in Find(reg, m, s).value.actions
    ensures Find(reg, m, s).Some? ==> DotFree(m) && DotFree(s)
  {
    if Find(reg, m, s).Some? {
      FoundIsThere(reg, m, s);
      var i :| 0 <= i < |reg| && reg[i] == Entry(m, Find(reg, m, s).value) && reg[i].sub.key == s;
      assert WellNamed(reg[i]);
    }
    if OffersAll(reg, m, s, actions) {
      var i :| 0 <= i < |reg| && reg[i].moduleKey == m && reg[i].sub.key == s && forall a :: a in actions ==> Offers(reg[i], a);
      FindAt(reg, i);
    }
  }

  /** A list is accepted exactly when every grant in it fits, whatever the order and repetition of its actions. */
  lemma {:induction false} AcceptedExactlyWhen(reg: seq<Entry>, grants: seq<RawGrant>)
    requires WellFormed(reg)
    ensures Acceptable(reg, grants) <==> forall i :: 0 <= i < |grants| ==> GrantFits(reg, grants, i)
  {
    hide Find, OffersAll, WellFormed, CellId, DotFree;
    forall i | 0 <= i < |grants|
      ensures OffersAllOf(reg, grants[i])
    {
      OffersAllIs(reg, grants[i].moduleKey, grants[i].submodule, grants[i].actions.GetOr([]));
    }
    forall i, k | 0 <= i < |grants| && 0 <= k < i && Find(reg, grants[i].moduleKey, grants[i].submodule).Some?
      ensures Id(grants[k]) == Id(grants[i]) <==>
              grants[k].moduleKey == grants[i].moduleKey && grants[k].submodule == grants[i].submodule
    {
      assert OffersAllOf(reg, grants[i]);
      CellIdInjective(grants[i].moduleKey, grants[i].submodule, grants[k].moduleKey, grants[k].submodule);
    }
    forall i | 0 <= i < |grants| ensures ProblemAt(reg, grants, i).None? <==> GrantFits(reg, grants, i) {
      assert OffersAllOf(reg, grants[i]);
    }
  }

  /** What OffersAllIs says of one grant. */
  ghost predicate OffersAllOf(reg: seq<Entry>, g: RawGrant) {
    && (Find(reg, g.moduleKey, g.submodule).Some? ==> DotFree(g.moduleKey) && DotFree(g.submodule))
    && (OffersAll(reg, g.moduleKey, g.submodule, g.actions.GetOr([])) <==>
          && Find(reg, g.moduleKey, g.submodule).Some?
          && forall a :: a in g.actions.GetOr([]) ==> a in ACTIONS && a in Find(reg, g.moduleKey, g.submodule).value.actions)
  }

  lemma {:induction false} NoProblem(reg: seq<Entry>, grants: seq<RawGrant>, i: nat)
    requires Acceptable(reg, grants) && i < |grants|
    ensures var g := grants[i];
            && g.actions.Some? && Find(reg, g.moduleKey, g.submodule).Some?
            && (forall a :: a in g.actions.value ==> a in ACTIONS && a in Find(reg, g.moduleKey, g.submodule).value.actions)
            && forall k :: 0 <= k < i ==> Id(grants[k]) != Id(g)
  {
    assert ProblemAt(reg, grants, i).None?;
  }

  lemma {:induction false} CleanGrantMeans(reg: seq<Entry>, g: RawGrant)
    requires g.actions.Some? && Find(reg, g.moduleKey, g.submodule).Some?
    requires forall a :: a in g.actions.value ==> a in ACTIONS
    ensures Compiled(reg, CleanGrant(g)) == Compiled(reg, [Grant(g.moduleKey, g.submodule, g.actions.value)])
  {
    var cooked := Grant(g.moduleKey, g.submodule, g.actions.value);
    var unique := Ordered(g.actions.value);
    forall key ensures Compiles(reg, CleanGrant(g), key) <==> Compiles(reg, [cooked], key) {
      if Compiles(reg, [cooked], key) {
        assert Gives(reg, [cooked][0], key);
        var a :| a in cooked.actions && key in KeysForGrant(reg, g.moduleKey, g.submodule, a);
        assert a in unique;
        assert Gives(reg, CleanGrant(g)[0], key);
      }
      if Compiles(reg, CleanGrant(g), key) {
        assert Gives(reg, CleanGrant(g)[0], key);
        assert Gives(reg, [cooked][0], key);
      }
    }
  }

  lemma {:induction false} GrantsOfIsNormal(reg: seq<Entry>, k: nat, held: iset<Key>)
    requires WellFormed(reg) && k < |reg|
    ensures forall i :: 0 <= i < |GrantsOf(reg[k], held)| ==> NormalEntry(reg, GrantsOf(reg[k], held)[i])
  {
    var actions := LitActions(reg[k], held);
    FilterSame(ACTIONS, a => Lit(reg[k], a, held), a => a in actions);
    FindAt(reg, k);
  }

  lemma {:induction false} DerivedFrom(reg: seq<Entry>, held: iset<Key>, i: nat) returns (k: nat)
    requires i < |FromPermissions(reg, held)|
    ensures k < |reg| && GrantsOf(reg[k], held) == [FromPermissions(reg, held)[i]]
  {
    var n := |reg| - 1;
    if i < |FromPermissions(reg[..n], held)| {
      k := DerivedFrom(reg[..n], held, i);
    } else {
      k := n;
    }
  }

  /** A derived matrix is already in normal form. */
  lemma {:induction false} DerivedIsNormal(all: seq<Entry>, n: nat, held: iset<Key>)
    requires WellFormed(all) && n <= |all|
    ensures IsNormal(all, FromPermissions(all[..n], held))
  {
    if n > 0 {
      var front, e := all[..n - 1], all[n - 1];
      assert all[..n][..n - 1] == front;
      DerivedIsNormal(all, n - 1, held);
      GrantsOfIsNormal(all, n - 1, held);
      var grants := FromPermissions(front, held);
      forall i | 0 <= i < |grants| ensures !SameGrant(grants[i], e.moduleKey, e.sub.key) {
        var k := DerivedFrom(front, held, i);
        assert !SameCell(all[k], all[n - 1]);
      }
      NormalConcat(all, grants, GrantsOf(e, held));
    }
  }

  /** What a successful save stores: a normal list that grants the same and would be saved unchanged. */
  lemma {:induction false} SavedMatrix(reg: seq<Entry>, grants: seq<RawGrant>)
    requires WellFormed(reg) && Acceptable(reg, grants)
    ensures var saved := Clean(grants);
            && IsNormal(reg, saved)
            && Compiled(reg, saved) == Compiled(reg, Cooked(grants))
            && Acceptable(reg, Raw(saved)) && Clean(Raw(saved)) == saved
  {
    CleanIsNormal(reg, grants);
    CleanGrantsTheSame(reg, grants);
    NormalIsFixed(reg, Clean(grants));
  }

  /** Saving a derived matrix untouched is accepted and changes nothing. */
  lemma {:induction false} DerivedMatrixSavesUnchanged(reg: seq<Entry>, held: iset<Key>)
    requires WellFormed(reg)
    ensures var derived := FromPermissions(reg, held);
            Acceptable(reg, Raw(derived)) && Clean(Raw(derived)) == derived
  {
    DerivedIsNormal(reg, |reg|, held);
    assert reg[..|reg|] == reg;
    NormalIsFixed(reg, FromPermissions(reg, held));
  }
}
