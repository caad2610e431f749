/**
 * Seeding and migrating the roles collection at every boot (backend/config/seedRoles.js). Role
 * names, baselines and texts are parameters; the registry translates flat keys to a matrix.
 */
module RoleSeed {
  import opened Options
  import opened ModuleRegistry

  /** A stored role. An empty slug or description and `isSystem` None stand for absent fields. */
  datatype Role = Role(slug: string, description: string, permissions: seq<Key>, grants: seq<Grant>,
                       isSuperAdmin: bool, isSystem: Option<bool>, portalOnly: bool, order: int)

  datatype Legacy = Legacy(name: string, description: string)

  datatype Config = Config(modules: seq<Module>, systemNames: seq<string>, baseline: map<string, seq<Key>>,
                           order: map<string, int>, descriptions: map<string, string>, legacy: seq<Legacy>,
                           slugOf: string -> string)
  {
    function Baseline(name: string): seq<Key> {
      if name in baseline then baseline[name] else []
    }

    function Order(name: string): int {
      if name in order then order[name] else 100
    }

    function Description(name: string): string {
      if name in descriptions then descriptions[name] else ""
    }

    function Registry(): seq<Entry> {
      Flat(modules)
    }

    /** The legacy rows are the entries of one object, so their names differ. */
    ghost predicate Valid() {
      WellFormed(Registry())
      && forall i, j :: 0 <= i < j < |legacy| ==> legacy[i].name != legacy[j].name
    }
  }

  const CUSTOMER := "Customer"

  // ---------------------------------------------------------------------------------------
  // One role
  // ---------------------------------------------------------------------------------------

  ghost function Derived(c: Config, keys: seq<Key>): seq<Grant> {
    FromPermissions(c.Registry(), KeySet(keys))
  }

  ghost function Created(c: Config, name: string): Role {
    Role(c.slugOf(name), c.Description(name), [], Derived(c, c.Baseline(name)),
         WILDCARD in c.Baseline(name), Some(true), name == CUSTOMER, c.Order(name))
  }

  ghost function SystemPatched(c: Config, name: string, r: Role): Role {
    Role(if r.slug == "" then c.slugOf(name) else r.slug,
         if r.description == "" then c.Description(name) else r.description,
         r.permissions,
         if r.grants == [] then Derived(c, c.Baseline(name) + r.permissions) else r.grants,
         WILDCARD in c.Baseline(name),
         Some(true),
         r.portalOnly || name == CUSTOMER,
         c.Order(name))
  }

  ghost function LegacyPatched(c: Config, l: Legacy, r: Role): Role {
    r.(slug := if r.slug == "" then c.slugOf(l.name) else r.slug,
       description := if r.description == "" then l.description else r.description,
       isSystem := if r.isSystem == None then Some(false) else r.isSystem,
       grants := if r.grants == [] && r.permissions != [] then Derived(c, r.permissions) else r.grants)
  }

  // ---------------------------------------------------------------------------------------
  // The collection
  // ---------------------------------------------------------------------------------------

  type Roles = map<string, Role>

  ghost function SeedSystem(c: Config, roles: Roles, n: nat): Roles
    requires n <= |c.systemNames|
  {
    if n == 0 then roles
    else
      var before, name := SeedSystem(c, roles, n - 1), c.systemNames[n - 1];
      before[name := if name in before then SystemPatched(c, name, before[name]) else Created(c, name)]
  }

  ghost function SeedLegacy(c: Config, roles: Roles, n: nat): Roles
    requires n <= |c.legacy|
  {
    if n == 0 then roles
    else
      var before, l := SeedLegacy(c, roles, n - 1), c.legacy[n - 1];
      if l.name in before then before[l.name := LegacyPatched(c, l, before[l.name])] else before
  }

  ghost function Seed(c: Config, roles: Roles): Roles {
    SeedLegacy(c, SeedSystem(c, roles, |c.systemNames|), |c.legacy|)
  }

  /** Fills in what an existing system role lacks; only an empty matrix gets one written. */
  method PatchSystemRole(c: Config, name: string, existing: Role) returns (patch: Role)
    ensures patch == SystemPatched(c, name, existing)
  {
    hide FromPermissions, KeySet;
    var baseline := c.Baseline(name);
    var isSuperAdmin := WILDCARD in baseline;
    patch := existing.(
      slug := if existing.slug == "" then c.slugOf(name) else existing.slug,
      isSystem := Some(true),
      isSuperAdmin := isSuperAdmin,
      portalOnly := existing.portalOnly || name == CUSTOMER,
      order := c.Order(name),
      description := if existing.description == "" then c.Description(name) else existing.description);
    if |existing.grants| == 0 {
      var grants := GrantsFromPermissions(c.modules, baseline + existing.permissions);
      patch := patch.(grants := grants);
    }
  }

  /** A legacy row keeps its flat keys; they become a matrix as well when it has none. */
  method PatchLegacyRole(c: Config, l: Legacy, existing: Role) returns (patch: Role)
    ensures patch == LegacyPatched(c, l, existing)
  {
    hide FromPermissions, KeySet;
    patch := existing.(
      slug := if existing.slug == "" then c.slugOf(l.name) else existing.slug,
      description := if existing.description == "" then l.description else existing.description,
      isSystem := if existing.isSystem == None then Some(false) else existing.isSystem);
    if |existing.grants| == 0 && |existing.permissions| > 0 {
      var grants := GrantsFromPermissions(c.modules, existing.permissions);
      patch := patch.(grants := grants);
    }
  }

  /** The roles collection, written one document at a time. */
  class RoleStore {
    var roles: Roles

    constructor (roles: Roles)
      ensures this.roles == roles
    {
      this.roles := roles;
    }

    method SeedSystemRole(c: Config, name: string)
      modifies this
      ensures roles == old(roles)[name := if name in old(roles) then SystemPatched(c, name, old(roles)[name])
                                          else Created(c, name)]
    {
      hide SystemPatched, FromPermissions, KeySet;
      if name in roles {
        var patched := PatchSystemRole(c, name, roles[name]);
        roles := roles[name := patched];
      } else {
        var baseline := c.Baseline(name);
        var grants := GrantsFromPermissions(c.modules, baseline);
        roles := roles[name := Role(c.slugOf(name), c.Description(name), [], grants, WILDCARD in baseline, Some(true),
                                    name == CUSTOMER, c.Order(name))];
      }
    }

    method SeedLegacyRole(c: Config, l: Legacy)
      modifies this
      ensures roles == if l.name in old(roles) then old(roles)[l.name := LegacyPatched(c, l, old(roles)[l.name])]
                       else old(roles)
    {
      hide LegacyPatched;
      if l.name in roles {
        var patched := PatchLegacyRole(c, l, roles[l.name]);
        roles := roles[l.name := patched];
      }
    }

    method SeedDefaultRoles(c: Config)
      modifies this
      ensures roles == Seed(c, old(roles))
    {
      hide SystemPatched, LegacyPatched, Created;
      for i := 0 to |c.systemNames|
        invariant roles == SeedSystem(c, old(roles), i)
      {
        SeedSystemRole(c, c.systemNames[i]);
      }
      ghost var seeded := roles;
      for i := 0 to |c.legacy|
        invariant roles == SeedLegacy(c, seeded, i)
      {
        SeedLegacyRole(c, c.legacy[i]);
      }
    }
  }

  // ---------------------------------------------------------------------------------------
  // What the seed does to one name
  // ---------------------------------------------------------------------------------------

  ghost predicate IsSystemName(c: Config, name: string) {
    name in c.systemNames
  }

  ghost predicate IsLegacyName(c: Config, name: string) {
    exists i :: 0 <= i < |c.legacy| && c.legacy[i].name == name
  }

  ghost function LegacyOf(c: Config, name: string): Legacy
    requires IsLegacyName(c, name)
  {
    var i :| 0 <= i < |c.legacy| && c.legacy[i].name == name;
    c.legacy[i]
  }

  ghost function AfterSystem(c: Config, name: string, r: Option<Role>): Option<Role> {
    if !IsSystemName(c, name) then r
    else Some(match r case None => Created(c, name) case Some(role) => SystemPatched(c, name, role))
  }

  ghost function AfterLegacy(c: Config, name: string, r: Option<Role>): Option<Role> {
    if r.Some? && IsLegacyName(c, name) then Some(LegacyPatched(c, LegacyOf(c, name), r.value)) else r
  }

  ghost function AfterSeed(c: Config, name: string, r: Option<Role>): Option<Role> {
    AfterLegacy(c, name, AfterSystem(c, name, r))
  }

  ghost function Get(roles: Roles, name: string): Option<Role> {
    if name in roles then Some(roles[name]) else None
  }

  /** Patching a role the seed created or patched changes nothing. */
  lemma {:induction false} SystemPatchedTwice(c: Config, name: string, r: Role)
    ensures SystemPatched(c, name, SystemPatched(c, name, r)) == SystemPatched(c, name, r)
    ensures SystemPatched(c, name, Created(c, name)) == Created(c, name)
  {
    assert c.Baseline(name) + [] == c.Baseline(name);
  }

  lemma {:induction false} SystemAt(c: Config, roles: Roles, n: nat, name: string)
    requires n <= |c.systemNames|
    ensures Get(SeedSystem(c, roles, n), name)
            == if name in c.systemNames[..n]
               then Some(if name in roles then SystemPatched(c, name, roles[name]) else Created(c, name))
               else Get(roles, name)
  {
    hide SystemPatched, Created;
    if n > 0 {
      SystemAt(c, roles, n - 1, name);
      assert c.systemNames[..n] == c.systemNames[..n - 1] + [c.systemNames[n - 1]];
      if name in roles {
        SystemPatchedTwice(c, name, roles[name]);
      } else {
        SystemPatchedTwice(c, name, Created(c, name));
      }
    }
  }

  lemma {:induction false} LegacyAt(c: Config, roles: Roles, n: nat, name: string)
    requires c.Valid() && n <= |c.legacy|
    ensures Get(SeedLegacy(c, roles, n), name)
            == if name in roles && exists i :: 0 <= i < n && c.legacy[i].name == name
               then Some(LegacyPatched(c, LegacyOf(c, name), roles[name]))
               else Get(roles, name)
  {
    hide LegacyPatched;
    if n > 0 {
      LegacyAt(c, roles, n - 1, name);
      if c.legacy[n - 1].name == name {
        assert LegacyOf(c, name) == c.legacy[n - 1];
      }
    }
  }

  lemma {:induction false} SeedAt(c: Config, roles: Roles, name: string)
    requires c.Valid()
    ensures Get(Seed(c, roles), name) == AfterSeed(c, name, Get(roles, name))
  {
    SystemAt(c, roles, |c.systemNames|, name);
    assert c.systemNames[..|c.systemNames|] == c.systemNames;
    LegacyAt(c, SeedSystem(c, roles, |c.systemNames|), |c.legacy|, name);
  }

  // ---------------------------------------------------------------------------------------
  // Running it again
  // ---------------------------------------------------------------------------------------

  lemma {:induction false} MoreKeysMoreActions(e: Entry, h: iset<Key>, k: iset<Key>)
    requires h <= k
    ensures LitActions(e, k) == [] ==> LitActions(e, h) == []
  {
    if LitActions(e, h) != [] {
      assert LitActions(e, h)[0] in LitActions(e, k);
    }
  }

  lemma {:induction false} MoreKeysMoreGrants(reg: seq<Entry>, h: iset<Key>, k: iset<Key>)
    requires h <= k
    ensures FromPermissions(reg, k) == [] ==> FromPermissions(reg, h) == []
  {
    if reg != [] {
      var e := reg[|reg| - 1];
      hide LitActions;
      MoreKeysMoreGrants(reg[..|reg| - 1], h, k);
      MoreKeysMoreActions(e, h, k);
    }
  }

  lemma {:induction false} SeededRoleIsFixed(c: Config, name: string, r: Role)
    requires IsSystemName(c, name) && IsLegacyName(c, name)
    ensures var s := LegacyPatched(c, LegacyOf(c, name), SystemPatched(c, name, r));
            SystemPatched(c, name, s) == s && LegacyPatched(c, LegacyOf(c, name), s) == s
  {
    MoreKeysMoreGrants(c.Registry(), KeySet(r.permissions), KeySet(c.Baseline(name) + r.permissions));
  }

  lemma {:induction false} AfterSeedTwice(c: Config, name: string, r: Option<Role>)
    ensures AfterSeed(c, name, AfterSeed(c, name, r)) == AfterSeed(c, name, r)
  {
    if IsSystemName(c, name) {
      var base := if r.Some? then r.value else Created(c, name);
      SystemPatchedTwice(c, name, base);
      if IsLegacyName(c, name) {
        SeededRoleIsFixed(c, name, base);
      }
    }
  }

  /** Running the seed twice is running it once, whatever the collection held. */
  lemma {:induction false} SeedIsIdempotent(c: Config, roles: Roles)
    requires c.Valid()
    ensures Seed(c, Seed(c, roles)) == Seed(c, roles)
  {
    var once, twice := Seed(c, roles), Seed(c, Seed(c, roles));
    forall name ensures Get(twice, name) == Get(once, name) {
      SeedAt(c, roles, name);
      SeedAt(c, once, name);
      AfterSeedTwice(c, name, Get(roles, name));
    }
    forall name | name in once || name in twice ensures name in once && name in twice && once[name] == twice[name] {
      assert Get(twice, name) == Get(once, name);
    }
  }

  // ---------------------------------------------------------------------------------------
  // What it may and may not change
  // ---------------------------------------------------------------------------------------

  /** What a role grants: its flat keys and its compiled matrix together. */
  ghost function Effective(c: Config, r: Role): iset<Key> {
    KeySet(r.permissions) + Compiled(c.Registry(), r.grants)
  }

  lemma {:induction false} DerivedStaysWithin(c: Config, keys: seq<Key>)
    requires c.Valid() && WILDCARD !in keys
    ensures Compiled(c.Registry(), Derived(c, keys)) <= KeySet(keys)
  {
    RoundTripNeverOverGrants(c.Registry(), KeySet(keys));
  }

  /**
   * No role is dropped, no matrix somebody filled in is altered, and no role loses a flat or
   * compiled key. A role that holds no wildcard, by baseline or flat, gains at most its baseline.
   */
  lemma {:induction false} ExistingRoleKept(c: Config, roles: Roles, name: string)
    requires c.Valid() && name in roles
    ensures name in Seed(c, roles)
    ensures var r, r' := roles[name], Seed(c, roles)[name];
            && r'.permissions == r.permissions
            && (r.grants != [] ==> r'.grants == r.grants)
            && Effective(c, r) <= Effective(c, r')
            && (WILDCARD !in c.Baseline(name) + r.permissions ==>
                  Effective(c, r') <= Effective(c, r) + if IsSystemName(c, name) then KeySet(c.Baseline(name)) else iset{})
  {
    SeedAt(c, roles, name);
    assert Get(Seed(c, roles), name).Some?;
    var r := roles[name];
    if WILDCARD !in c.Baseline(name) + r.permissions {
      DerivedStaysWithin(c, c.Baseline(name) + r.permissions);
      assert WILDCARD !in r.permissions;
      DerivedStaysWithin(c, r.permissions);
    }
    assert Compiled(c.Registry(), []) == iset{};
  }

  /** Every system role exists afterwards, with the wildcard flag its baseline says and nothing more. */
  lemma {:induction false} SystemRolesPresent(c: Config, roles: Roles, name: string)
    requires c.Valid() && IsSystemName(c, name)
    ensures name in Seed(c, roles)
    ensures var r' := Seed(c, roles)[name];
            && r'.isSystem == Some(true)
            && (r'.isSuperAdmin <==> WILDCARD in c.Baseline(name))
            && (name !in roles && WILDCARD !in c.Baseline(name) ==> Effective(c, r') <= KeySet(c.Baseline(name)))
  {
    SeedAt(c, roles, name);
    assert Get(Seed(c, roles), name).Some?;
    if WILDCARD !in c.Baseline(name) {
      DerivedStaysWithin(c, c.Baseline(name));
    }
  }

  /** The cells a list of keys earns: registered, offered, and all of their keys among them, or the wildcard. */
  ghost predicate Earns(c: Config, keys: seq<Key>, m: string, s: string, a: Action) {
    exists i :: 0 <= i < |c.Registry()| && c.Registry()[i].moduleKey == m && c.Registry()[i].sub.key == s
                && a in c.Registry()[i].sub.actions
                && (WILDCARD in keys || forall key :: key in c.Registry()[i].sub.actions[a] ==> key in keys)
  }

  /** The matrix shows exactly the cells the keys earn. */
  ghost predicate Shows(c: Config, grants: seq<Grant>, keys: seq<Key>) {
    forall m, s, a :: HasCell(grants, m, s, a) <==> Earns(c, keys, m, s, a)
  }

  lemma {:induction false} DerivedShows(c: Config, keys: seq<Key>)
    requires c.Valid()
    ensures Shows(c, Derived(c, keys), keys)
  {
    var reg := c.Registry();
    hide FromPermissions;
    forall m, s, a ensures HasCell(Derived(c, keys), m, s, a) <==> Earns(c, keys, m, s, a) {
      CellLit(reg, KeySet(keys), m, s, a);
      if Find(reg, m, s).Some? {
        FoundIsThere(reg, m, s);
        var i :| 0 <= i < |reg| && reg[i] == Entry(m, Find(reg, m, s).value) && reg[i].sub.key == s;
      }
      if Earns(c, keys, m, s, a) {
        var i :| 0 <= i < |reg| && reg[i].moduleKey == m && reg[i].sub.key == s && a in reg[i].sub.actions
                 && (WILDCARD in keys || forall key :: key in reg[i].sub.actions[a] ==> key in keys);
        FindAt(reg, i);
      }
    }
  }

  /** What the tables have for a name. */
  function Listed<T>(table: map<string, T>, name: string, otherwise: T): T {
    if name in table then table[name] else otherwise
  }

  /**
   * A system role after the seed: a new one, or one without a matrix, shows exactly the cells its baseline
   * and its flat keys earn together; what it lacks is filled in, and order and flags follow the tables.
   */
  lemma {:induction false} SystemRoleBecomes(c: Config, roles: Roles, name: string)
    requires c.Valid() && IsSystemName(c, name)
    ensures name in Seed(c, roles)
    ensures var r' := Seed(c, roles)[name];
            && r'.isSystem == Some(true) && (r'.isSuperAdmin <==> WILDCARD in Listed(c.baseline, name, []))
            && r'.order == Listed(c.order, name, 100)
            && r'.permissions == (if name in roles then roles[name].permissions else [])
            && (r'.portalOnly <==> name == "Customer" || (name in roles && roles[name].portalOnly))
            && r'.slug == (if name in roles && roles[name].slug != "" then roles[name].slug else c.slugOf(name))
            && (name in roles && roles[name].description != "" ==> r'.description == roles[name].description)
            && ((name !in roles || roles[name].description == "") && Listed(c.descriptions, name, "") != "" ==>
                  r'.description == c.descriptions[name])
            && (if name in roles && roles[name].grants != [] then r'.grants == roles[name].grants
                else Shows(c, r'.grants, Listed(c.baseline, name, []) + r'.permissions))
  {
    SeedAt(c, roles, name);
    assert Get(Seed(c, roles), name).Some?;
    SystemFields(c, name, Get(roles, name));
    SystemMatrix(c, name, Get(roles, name));
    hide Shows, Seed, AfterSeed;
  }

  lemma {:induction false} SystemFields(c: Config, name: string, r: Option<Role>)
    requires IsSystemName(c, name)
    ensures AfterSeed(c, name, r).Some?
    ensures var r' := AfterSeed(c, name, r).value;
            && r'.isSystem == Some(true) && (r'.isSuperAdmin <==> WILDCARD in Listed(c.baseline, name, []))
            && r'.order == Listed(c.order, name, 100)
            && r'.permissions == (if r.Some? then r.value.permissions else [])
            && (r'.portalOnly <==> name == "Customer" || (r.Some? && r.value.portalOnly))
            && r'.slug == (if r.Some? && r.value.slug != "" then r.value.slug else c.slugOf(name))
            && (r.Some? && r.value.description != "" ==> r'.description == r.value.description)
            && ((r.None? || r.value.description == "") && Listed(c.descriptions, name, "") != "" ==>
                  r'.description == c.descriptions[name])
  {
    hide Derived, IsLegacyName;
    if IsLegacyName(c, name) { LegacyNamed(c, name); }
    hide LegacyOf;
  }

  lemma {:induction false} LegacyNamed(c: Config, name: string)
    requires IsLegacyName(c, name)
    ensures LegacyOf(c, name).name == name
  {
  }

  lemma {:induction false} SystemMatrix(c: Config, name: string, r: Option<Role>)
    requires c.Valid() && IsSystemName(c, name)
    ensures AfterSeed(c, name, r).Some?
    ensures if r.Some? && r.value.grants != [] then AfterSeed(c, name, r).value.grants == r.value.grants
            else Shows(c, AfterSeed(c, name, r).value.grants, Listed(c.baseline, name, []) + if r.Some? then r.value.permissions else [])
  {
    hide Shows, FromPermissions, IsLegacyName, LegacyOf;
    var keys := c.Baseline(name) + if r.Some? then r.value.permissions else [];
    assert r.Some? ==> KeySet(r.value.permissions) <= KeySet(keys);
    hide KeySet;
    DerivedShows(c, keys);
    assert c.Baseline(name) + [] == c.Baseline(name);
    if r.Some? { MoreKeysMoreGrants(c.Registry(), KeySet(r.value.permissions), KeySet(keys)); }
  }

  /** A legacy role that is no system role: its matrix, where it has none, shows what its flat keys earn. */
  lemma {:induction false} LegacyRoleBecomes(c: Config, roles: Roles, name: string)
    requires c.Valid() && IsLegacyName(c, name) && !IsSystemName(c, name)
    ensures name in Seed(c, roles) <==> name in roles
    ensures name in roles ==>
              var r, r' := roles[name], Seed(c, roles)[name];
              && r'.permissions == r.permissions && r'.isSuperAdmin == r.isSuperAdmin && r'.portalOnly == r.portalOnly
              && r'.order == r.order && r'.isSystem == (if r.isSystem == None then Some(false) else r.isSystem)
              && (r.slug != "" ==> r'.slug == r.slug) && (r.slug == "" ==> r'.slug == c.slugOf(name))
              && (r.description != "" ==> r'.description == r.description)
              && (r.description == "" ==> exists i :: 0 <= i < |c.legacy| && c.legacy[i] == Legacy(name, r'.description))
              && (r.grants != [] ==> r'.grants == r.grants)
              && (r.grants == [] && r.permissions != [] ==> Shows(c, r'.grants, r.permissions))
              && (r.grants == [] && r.permissions == [] ==> r'.grants == [])
  {
    SeedAt(c, roles, name);
    if name in roles {
      assert Get(Seed(c, roles), name).Some?;
      DerivedShows(c, roles[name].permissions);
      hide Shows, Seed, FromPermissions;
      var l := LegacyOf(c, name);
      assert l == Legacy(name, l.description);
    } else {
      assert Get(Seed(c, roles), name).None?;
    }
  }

  /** So a super-admin flag somebody set by hand on a system role does not survive the next boot. */
  lemma {:induction false} SuperAdminFlagReset(c: Config, roles: Roles, name: string)
    requires c.Valid() && IsSystemName(c, name) && name in roles
    ensures name in Seed(c, roles)
    ensures Seed(c, roles)[name].isSuperAdmin == roles[name].isSuperAdmin
            <==> roles[name].isSuperAdmin == (WILDCARD in c.Baseline(name))
  {
    SystemRolesPresent(c, roles, name);
  }

  /** Roles the seed does not name are left exactly as they are, and none is invented. */
  lemma {:induction false} OtherRolesUntouched(c: Config, roles: Roles, name: string)
    requires c.Valid() && !IsSystemName(c, name) && !IsLegacyName(c, name)
    ensures Get(Seed(c, roles), name) == Get(roles, name)
  {
    SeedAt(c, roles, name);
  }
}
