/** The gated migration runner: seeds a snapshot from every role, applies a
    rule list to each role in turn against that shared snapshot, saves each
    role, and writes the completion marker last. */
module Migration {
  import opened Predicates
  import opened Transform

  /** A role record as the role store holds it; only its name and its
      permission list take part in a migration. */
  datatype Role = Role(name: RoleName, permissions: seq<Perm>)

  /** A write that reached the stores, in the order it happened. */
  datatype Event = RoleSaved(role: Role) | MarkerSaved(key: string)

  datatype StoreError = RolesLoadFailed | RoleSaveFailed(roleName: RoleName) | MarkerSaveFailed(key: string)

  datatype Outcome = Ok | Failed(error: StoreError)

  /** The error of a migration on `key` that failed after saving `saved` of
      the roles `before`: that of loading the roles (before any save), of
      saving the next role, or, once every role was saved, of saving the
      marker. */
  predicate FailedAt(key: string, before: seq<Role>, saved: nat, outcome: Outcome)
  {
    || (outcome == Failed(RolesLoadFailed) && saved == 0)
    || outcome == if saved < |before| then Failed(RoleSaveFailed(before[saved].name)) else Failed(MarkerSaveFailed(key))
  }

  function Names(roles: seq<Role>): set<RoleName> {
    set i | 0 <= i < |roles| :: roles[i].name
  }

  predicate UniqueNames(roles: seq<Role>) {
    forall a, b :: 0 <= a < b < |roles| ==> roles[a].name != roles[b].name
  }

  function RoleEvents(roles: seq<Role>): (events: seq<Event>)
    ensures |events| == |roles|
    decreases |roles|
  {
    if roles == [] then []
    else RoleEvents(roles[..|roles| - 1]) + [RoleSaved(roles[|roles| - 1])]
  }

  /** The `i`-th write of a run of role saves saved the `i`-th role. */
  lemma {:induction false} RoleEventsAt(roles: seq<Role>, i: nat)
    requires i < |roles|
    ensures RoleEvents(roles)[i] == RoleSaved(roles[i])
    decreases |roles|
  {
    var front := roles[..|roles| - 1];
    if i < |front| {
      RoleEventsAt(front, i);
      assert front[i] == roles[i];
    }
  }

  // ---------------------------------------------------------------------
  // Seeding the snapshot

  /** The seeding loop: each role's entry is reset and every permission it
      lists is written as true. A later role with the same name replaces an
      earlier one's entry. */
  function Seed(roles: seq<Role>): (snap: Snapshot)
    ensures snap.Keys == Names(roles)
    decreases |roles|
  {
    if roles == [] then map[]
    else
      var front := roles[..|roles| - 1];
      var last := roles[|roles| - 1];
      assert Names(roles) == Names(front) + {last.name} by {
        assert forall i :: 0 <= i < |front| ==> front[i] == roles[i];
      }
      Seed(front)[last.name := SetAll(map[], last.permissions, true)]
  }

  method BuildRoleMap(roles: seq<Role>) returns (roleMap: Snapshot)
    ensures roleMap == Seed(roles)
  {
    roleMap := map[];
    var i := 0;
    while i < |roles|
      invariant 0 <= i <= |roles|
      invariant roleMap == Seed(roles[..i])
    {
      roleMap := SeedRole(roleMap, roles[i]);
      SeedStep(roles, i);
      i := i + 1;
    }
    assert roles[..i] == roles;
  }

  /** One turn of the seeding loop: the role's entry is reset, then each
      listed permission is written as true. */
  method SeedRole(roleMap: Snapshot, role: Role) returns (after: Snapshot)
    ensures after == roleMap[role.name := SetAll(map[], role.permissions, true)]
  {
    var prev := roleMap[role.name := map[]];
    after := WriteAll(role.name, prev, role.permissions, true);
    assert prev[role.name := SetAll(map[], role.permissions, true)] == roleMap[role.name := SetAll(map[], role.permissions, true)];
  }

  lemma SeedStep(roles: seq<Role>, i: nat)
    requires i < |roles|
    ensures Seed(roles[..i + 1]) == Seed(roles[..i])[roles[i].name := SetAll(map[], roles[i].permissions, true)]
  {
    assert roles[..i + 1][..i] == roles[..i];
  }

  /** Seeding writes only `true`: every entry of the seeded snapshot is a grant. */
  lemma {:induction false} SeedAllTrue(roles: seq<Role>)
    ensures forall r, p :: r in Seed(roles) && p in Seed(roles)[r] ==> Seed(roles)[r][p]
    decreases |roles|
  {
    if roles != [] {
      SeedAllTrue(roles[..|roles| - 1]);
    }
  }

  /** With unique role names, each role's seeded entry grants exactly the
      permissions the role was loaded with. */
  lemma {:induction false} SeedGrantsLoaded(roles: seq<Role>)
    requires UniqueNames(roles)
    ensures forall i :: 0 <= i < |roles| ==> TrueKeys(Seed(roles)[roles[i].name]) == Elems(roles[i].permissions)
    decreases |roles|
  {
    if roles != [] {
      var front := roles[..|roles| - 1];
      assert UniqueNames(front);
      SeedGrantsLoaded(front);
      forall i | 0 <= i < |roles|
        ensures TrueKeys(Seed(roles)[roles[i].name]) == Elems(roles[i].permissions)
      {
        if i < |roles| - 1 {
          assert roles[i] == front[i];
        }
      }
    }
  }

  // ---------------------------------------------------------------------
  // The per-role pass

  /** The shared snapshot after the first `n` roles, in load order, have had
      the rules applied. */
  function SnapshotAfter(roles: seq<Role>, rules: seq<Rule>, n: nat): (snap: Snapshot)
    requires n <= |roles|
    ensures snap.Keys == Names(roles)
    decreases n
  {
    if n == 0 then Seed(roles)
    else
      var prev := SnapshotAfter(roles, rules, n - 1);
      assert roles[n - 1].name in Names(roles);
      ApplyRules(roles[n - 1].name, prev, rules)
  }

  /** The permissions role `i` is saved with: the grants of its entry once
      its own rules have run, with every earlier role already migrated. */
  function NewPermissions(roles: seq<Role>, rules: seq<Rule>, i: nat): set<Perm>
    requires i < |roles|
  {
    TrueKeys(SnapshotAfter(roles, rules, i + 1)[roles[i].name])
  }

  /** With unique role names, the earlier turns never write role `j`'s
      entry: when its turn comes, it still grants exactly the permissions
      the role was loaded with. */
  lemma OwnEntryAtTurn(roles: seq<Role>, rules: seq<Rule>, j: nat)
    requires UniqueNames(roles) && j < |roles|
    ensures roles[j].name in SnapshotAfter(roles, rules, j)
    ensures TrueKeys(SnapshotAfter(roles, rules, j)[roles[j].name]) == Elems(roles[j].permissions)
  {
    SeedGrantsLoaded(roles);
    assert forall m :: 0 <= m < j ==> roles[m].name != roles[j].name;
    UntouchedUntilTurn(roles, rules, j, j);
  }

  lemma {:induction false} UntouchedUntilTurn(roles: seq<Role>, rules: seq<Rule>, j: nat, n: nat)
    requires n <= j < |roles|
    requires forall m :: 0 <= m < n ==> roles[m].name != roles[j].name
    ensures roles[j].name in SnapshotAfter(roles, rules, n)
    ensures SnapshotAfter(roles, rules, n)[roles[j].name] == Seed(roles)[roles[j].name]
    decreases n
  {
    if n > 0 {
      UntouchedUntilTurn(roles, rules, j, n - 1);
      var prev := SnapshotAfter(roles, rules, n - 1);
      assert roles[n - 1].name in Names(roles);
      ApplyRulesKeeps(roles[n - 1].name, prev, rules, roles[j].name);
    }
  }

  /** Role `j` of `after` is role `j` of `before` saved with its new
      permissions, each listed once. */
  predicate RoleMigrated(before: seq<Role>, rules: seq<Rule>, after: seq<Role>, j: nat)
    requires j < |before| && j < |after|
  {
    && after[j].name == before[j].name
    && Elems(after[j].permissions) == NewPermissions(before, rules, j)
    && NoDuplicates(after[j].permissions)
  }

  /** The first `n` roles of `before` are migrated in `after`, the rest are
      untouched. */
  predicate Migrated(before: seq<Role>, rules: seq<Rule>, after: seq<Role>, n: nat) {
    && n <= |before|
    && |after| == |before|
    && (forall j {:trigger RoleMigrated(before, rules, after, j)} :: 0 <= j < n ==> RoleMigrated(before, rules, after, j))
    && (forall j {:trigger after[j]} :: n <= j < |before| ==> after[j] == before[j])
  }

  /** The role store and the system (marker) store, as the migration sees
      them. Every store call is numbered; the calls numbered in `faults`
      fail. */
  class Store {
    var markers: set<string>
    var roles: seq<Role>
    var log: seq<Event>
    var calls: nat
    const faults: set<nat>

    constructor (markers: set<string>, roles: seq<Role>, faults: set<nat>)
      ensures this.markers == markers && this.roles == roles && this.faults == faults
      ensures log == [] && calls == 0
    {
      this.markers := markers;
      this.roles := roles;
      this.faults := faults;
      log := [];
      calls := 0;
    }

    /** No store call from now on fails. */
    predicate FaultFree()
      reads this`calls
    {
      forall n :: n in faults ==> n < calls
    }

    /** `System().GetByName(key)`: the caller only asks whether it erred, so
        a failing lookup reads as a missing marker. */
    method GetMarker(key: string) returns (found: bool)
      modifies this`calls
      ensures calls == old(calls) + 1
      ensures found == (key in markers && old(calls) !in faults)
    {
      found := key in markers && calls !in faults;
      calls := calls + 1;
    }

    /** `GetAllRoles()`: every role, in the store's order. */
    method GetAllRoles() returns (loaded: bool, all: seq<Role>)
      modifies this`calls
      ensures calls == old(calls) + 1
      ensures loaded == (old(calls) !in faults)
      ensures loaded ==> all == roles
    {
      loaded := calls !in faults;
      all := if loaded then roles else [];
      calls := calls + 1;
    }

    /** `Role().Save(role)` for the role loaded at position `index`. */
    method SaveRole(index: nat, role: Role) returns (saved: bool)
      requires index < |roles|
      modifies this`calls, this`roles, this`log
      ensures calls == old(calls) + 1
      ensures saved == (old(calls) !in faults)
      ensures roles == if saved then old(roles)[index := role] else old(roles)
      ensures log == if saved then old(log) + [RoleSaved(role)] else old(log)
    {
      saved := calls !in faults;
      if saved {
        roles := roles[index := role];
        log := log + [RoleSaved(role)];
      }
      calls := calls + 1;
    }

    /** `System().Save(&System{Name: key, Value: "true"})`. */
    method SaveMarker(key: string) returns (saved: bool)
      modifies this`calls, this`markers, this`log
      ensures calls == old(calls) + 1
      ensures saved == (old(calls) !in faults)
      ensures markers == if saved then old(markers) + {key} else old(markers)
      ensures log == if saved then old(log) + [MarkerSaved(key)] else old(log)
    {
      saved := calls !in faults;
      if saved {
        markers := markers + {key};
        log := log + [MarkerSaved(key)];
      }
      calls := calls + 1;
    }

    /** The source's `doPermissionsMigration`. `skipped` tells whether the
        marker was found; `saved` counts the roles that were saved. */
    method DoPermissionsMigration(key: string, migrationMap: seq<Rule>)
      returns (result: Outcome, ghost skipped: bool, ghost saved: nat)
      modifies this
      ensures old(calls) < calls
      ensures skipped == (key in old(markers) && old(calls) !in faults)
      ensures skipped ==> result == Ok && saved == 0 && roles == old(roles) && markers == old(markers) && log == old(log)
      ensures Migrated(old(roles), migrationMap, roles, saved)
      ensures result.Failed? ==> markers == old(markers) && log == old(log) + RoleEvents(roles[..saved])
      ensures result == Ok && !skipped ==>
                && saved == |roles|
                && markers == old(markers) + {key}
                && log == old(log) + RoleEvents(roles) + [MarkerSaved(key)]
      // every call after the marker lookup succeeded, except a failing last one
      ensures forall n :: old(calls) < n < calls - 1 ==> n !in faults
      ensures result.Failed? ==> calls - 1 in faults
      ensures result == Ok ==> forall n :: old(calls) < n < calls ==> n !in faults
      ensures old(FaultFree()) ==> result == Ok && FaultFree()
      // the error returned is that of the call that failed: the role load
      // (call `old(calls) + 1`), the first failing role save, or the marker save
      ensures !skipped && old(calls) + 1 in faults ==> result == Failed(RolesLoadFailed) && saved == 0
      ensures result.Failed? && old(calls) + 1 !in faults ==>
                result == if saved < |old(roles)| then Failed(RoleSaveFailed(old(roles)[saved].name))
                          else Failed(MarkerSaveFailed(key))
      ensures result.Failed? ==> FailedAt(key, old(roles), saved, result)
    {
      var found := GetMarker(key);
      skipped := found;
      if found {
        result, saved := Ok, 0;
      } else {
        result, saved := RunMigration(key, migrationMap);
      }
    }

    /** `doPermissionsMigration` past the marker check: load every role,
        seed the snapshot, migrate and save each role, then write the
        marker. The first failing store call ends it. */
    method RunMigration(key: string, migrationMap: seq<Rule>) returns (result: Outcome, ghost saved: nat)
      modifies this
      ensures old(calls) < calls
      ensures Migrated(old(roles), migrationMap, roles, saved)
      ensures result.Failed? ==> && markers == old(markers)
                                 && log == old(log) + RoleEvents(roles[..saved])
                                 && calls - 1 in faults
      ensures result == Ok ==>
                && saved == |roles|
                && markers == old(markers) + {key}
                && log == old(log) + RoleEvents(roles) + [MarkerSaved(key)]
      ensures forall n :: old(calls) <= n < calls - 1 ==> n !in faults
      ensures result == Ok ==> forall n :: old(calls) <= n < calls ==> n !in faults
      // the error returned is that of the call that failed
      ensures old(calls) in faults ==> result == Failed(RolesLoadFailed) && saved == 0
      ensures result.Failed? && old(calls) !in faults ==>
                result == if saved < |old(roles)| then Failed(RoleSaveFailed(old(roles)[saved].name))
                          else Failed(MarkerSaveFailed(key))
    {
      var loaded, all := GetAllRoles();
      if !loaded {
        result, saved := Failed(RolesLoadFailed), 0;
        assert roles[..saved] == [];
      } else {
        result, saved := SaveRolesAndMarker(key, all, migrationMap);
      }
    }

    /** The rest of a run once the roles `all` are loaded: seed the
        snapshot, migrate and save each role, then write the marker. */
    method SaveRolesAndMarker(key: string, all: seq<Role>, migrationMap: seq<Rule>) returns (result: Outcome, ghost saved: nat)
      requires roles == all
      modifies this
      ensures old(calls) < calls
      ensures Migrated(all, migrationMap, roles, saved)
      ensures result.Failed? ==> && markers == old(markers)
                                 && log == old(log) + RoleEvents(roles[..saved])
                                 && calls - 1 in faults
      ensures result == Ok ==>
                && saved == |roles|
                && markers == old(markers) + {key}
                && log == old(log) + RoleEvents(roles) + [MarkerSaved(key)]
      ensures forall n :: old(calls) <= n < calls - 1 ==> n !in faults
      ensures result == Ok ==> forall n :: old(calls) <= n < calls ==> n !in faults
      ensures result.Failed? ==>
                result == if saved < |all| then Failed(RoleSaveFailed(all[saved].name)) else Failed(MarkerSaveFailed(key))
    {
      var roleMap := BuildRoleMap(all);
      var failedRole;
      result, failedRole, saved := SaveMigratedRoles(all, roleMap, migrationMap);
      if result == Ok {
        assert roles[..saved] == roles;
        ghost var logSaved := log;
        var ok := SaveMarker(key);
        if ok {
          assert log == logSaved + [MarkerSaved(key)];
        } else {
          result := Failed(MarkerSaveFailed(key));
          assert saved == |all| && log == logSaved;
        }
      }
    }

    /** That second loop: each loaded role, in load order, gets the rules
        applied against the shared snapshot and is saved; the first failing
        save ends the loop. */
    method SaveMigratedRoles(all: seq<Role>, roleMap: Snapshot, migrationMap: seq<Rule>)
      returns (result: Outcome, failedRole: RoleName, ghost saved: nat)
      requires roles == all && roleMap == Seed(all)
      modifies this`roles, this`log, this`calls
      ensures Migrated(all, migrationMap, roles, saved)
      ensures log == old(log) + RoleEvents(roles[..saved])
      ensures calls == old(calls) + saved + (if result.Failed? then 1 else 0)
      ensures result.Failed? ==> && saved < |all| && failedRole == all[saved].name && old(calls) + saved in faults
                                 && result == Failed(RoleSaveFailed(all[saved].name))
      ensures result == Ok ==> saved == |all|
      ensures forall n :: old(calls) <= n < old(calls) + saved ==> n !in faults
    {
      var roleMap := roleMap;
      var i := 0;
      result, failedRole := Ok, "";
      assert roles[..0] == [];
      while i < |all|
        invariant 0 <= i <= |all|
        invariant roleMap == SnapshotAfter(all, migrationMap, i)
        invariant Migrated(all, migrationMap, roles, i)
        invariant log == old(log) + RoleEvents(roles[..i])
        invariant calls == old(calls) + i
        invariant forall n :: old(calls) <= n < calls ==> n !in faults
      {
        var ok;
        roleMap, ok := MigrateRole(all, migrationMap, roleMap, i, old(log));
        if !ok {
          result, failedRole := Failed(RoleSaveFailed(all[i].name)), all[i].name;
          break;
        }
        i := i + 1;
      }
      saved := i;
    }

    /** One turn of that loop: role `i` gets the rules applied against the
        shared snapshot and is saved with the granted permissions. */
    method MigrateRole(all: seq<Role>, migrationMap: seq<Rule>, roleMap: Snapshot, i: nat, ghost log0: seq<Event>)
      returns (after: Snapshot, ok: bool)
      requires i < |all| && roleMap == SnapshotAfter(all, migrationMap, i)
      requires Migrated(all, migrationMap, roles, i)
      requires log == log0 + RoleEvents(roles[..i])
      modifies this`roles, this`log, this`calls
      ensures after == SnapshotAfter(all, migrationMap, i + 1)
      ensures calls == old(calls) + 1
      ensures ok == (old(calls) !in faults)
      ensures ok ==> Migrated(all, migrationMap, roles, i + 1)
      ensures ok ==> log == log0 + RoleEvents(roles[..i + 1])
      ensures !ok ==> roles == old(roles) && log == old(log)
    {
      var role := all[i];
      assert role.name in Names(all);
      var permissions;
      after, permissions := ApplyPermissionsMap(role.name, roleMap, migrationMap);
      ghost var before := roles;
      ok := SaveRole(i, Role(role.name, permissions));
      MigrateStep(all, migrationMap, roleMap, i, before, permissions, after);
      if ok {
        EventsStep(before, i, Role(role.name, permissions));
        assert log == log0 + (RoleEvents(before[..i]) + [RoleSaved(Role(role.name, permissions))]);
      }
    }
  }

  lemma EventsStep(before: seq<Role>, i: nat, role: Role)
    requires i < |before|
    ensures RoleEvents(before[i := role][..i + 1]) == RoleEvents(before[..i]) + [RoleSaved(role)]
  {
    assert before[i := role][..i + 1][..i] == before[..i];
  }

  /** The facts one turn of the per-role loop relies on. */
  lemma MigrateStep(all: seq<Role>, rules: seq<Rule>, roleMap: Snapshot, i: nat, roles: seq<Role>,
                    permissions: seq<Perm>, after: Snapshot)
    requires i < |all|
    requires roleMap == SnapshotAfter(all, rules, i)
    requires Migrated(all, rules, roles, i)
    requires all[i].name in roleMap
    requires after == ApplyRules(all[i].name, roleMap, rules)
    requires Elems(permissions) == TrueKeys(after[all[i].name]) && NoDuplicates(permissions)
    ensures Migrated(all, rules, roles[i := Role(all[i].name, permissions)], i + 1)
    ensures after == SnapshotAfter(all, rules, i + 1)
  {
    assert Elems(permissions) == NewPermissions(all, rules, i);
    MigratedStep(all, rules, roles, i, Role(all[i].name, permissions));
  }

  lemma MigratedStep(all: seq<Role>, rules: seq<Rule>, before: seq<Role>, i: nat, role: Role)
    requires Migrated(all, rules, before, i) && i < |all|
    requires role.name == all[i].name
    requires Elems(role.permissions) == NewPermissions(all, rules, i) && NoDuplicates(role.permissions)
    ensures Migrated(all, rules, before[i := role], i + 1)
  {
    var after := before[i := role];
    forall j | 0 <= j < i + 1
      ensures RoleMigrated(all, rules, after, j)
    {
      if j < i {
        assert RoleMigrated(all, rules, before, j);
      }
    }
  }
}
