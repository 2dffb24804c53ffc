/** The top-level driver: runs each registered migration in order, each
    gated by its own completion marker, and stops at the first error. */
module Driver {
  import opened Predicates
  import opened Transform
  import opened Migration
  import Catalog
  import Moderation

  /** The rule-list builders, one per registered migration. */
  datatype Builder =
    | EmojiPermissionsSplit
    | WebhookPermissionsSplit
    | ListJoinPublicPrivateTeams
    | RemovePermanentDeleteUser
    | AddBotPermissions
    | ApplyChannelManageDeleteToChannelUser
    | RemoveChannelManageDeleteFromTeamUser
    | ViewMembersNewPermission
    | AddManageGuestsPermissions
    | ChannelModerationsPermissions

  /** The migration keys; their string values come from the model package,
      which is not part of this model. */
  datatype MigrationKeys = MigrationKeys(
    emojiPermissionsSplit: string,
    webhookPermissionsSplit: string,
    listJoinPublicPrivateTeams: string,
    removePermanentDeleteUser: string,
    addBotPermissions: string,
    applyChannelManageDeleteToChannelUser: string,
    removeChannelManageDeleteFromTeamUser: string,
    viewMembersNewPermission: string,
    addManageGuestsPermissions: string,
    channelModerationsPermissions: string)

  datatype PermissionsMigration = PermissionsMigration(key: string, migration: Builder)

  /** The registration table: ten migrations, in the order they run. */
  function PermissionsMigrations(keys: MigrationKeys): (ms: seq<PermissionsMigration>)
    ensures |ms| == 10
  {
    var ms := [
      PermissionsMigration(keys.emojiPermissionsSplit, EmojiPermissionsSplit),
      PermissionsMigration(keys.webhookPermissionsSplit, WebhookPermissionsSplit),
      PermissionsMigration(keys.listJoinPublicPrivateTeams, ListJoinPublicPrivateTeams),
      PermissionsMigration(keys.removePermanentDeleteUser, RemovePermanentDeleteUser),
      PermissionsMigration(keys.addBotPermissions, AddBotPermissions),
      PermissionsMigration(keys.applyChannelManageDeleteToChannelUser, ApplyChannelManageDeleteToChannelUser),
      PermissionsMigration(keys.removeChannelManageDeleteFromTeamUser, RemoveChannelManageDeleteFromTeamUser),
      PermissionsMigration(keys.viewMembersNewPermission, ViewMembersNewPermission),
      PermissionsMigration(keys.addManageGuestsPermissions, AddManageGuestsPermissions),
      PermissionsMigration(keys.channelModerationsPermissions, ChannelModerationsPermissions)
    ];
    ms
  }

  /** Every builder is registered, the channel-moderation one last. */
  lemma EveryBuilderRegistered(keys: MigrationKeys, b: Builder)
    ensures PermissionsMigrations(keys)[BuilderIndex(b)].migration == b
    ensures PermissionsMigrations(keys)[9].migration == ChannelModerationsPermissions
  {
  }

  /** The keys of a migration list, in order. */
  function KeysOf(ms: seq<PermissionsMigration>): (ks: seq<string>)
    ensures |ks| == |ms|
    ensures forall i :: 0 <= i < |ms| ==> ks[i] == ms[i].key
    decreases |ms|
  {
    if ms == [] then []
    else
      var front := KeysOf(ms[..|ms| - 1]);
      assert forall i :: 0 <= i < |ms| - 1 ==> ms[..|ms| - 1][i] == ms[i];
      front + [ms[|ms| - 1].key]
  }

  /** Where each builder sits in the registration table. */
  function BuilderIndex(b: Builder): (i: nat)
    ensures i < 10
  {
    match b
    case EmojiPermissionsSplit => 0
    case WebhookPermissionsSplit => 1
    case ListJoinPublicPrivateTeams => 2
    case RemovePermanentDeleteUser => 3
    case AddBotPermissions => 4
    case ApplyChannelManageDeleteToChannelUser => 5
    case RemoveChannelManageDeleteFromTeamUser => 6
    case ViewMembersNewPermission => 7
    case AddManageGuestsPermissions => 8
    case ChannelModerationsPermissions => 9
  }

  /** The rule lists that do not depend on the stores. */
  function FixedRules(builder: Builder, ids: Catalog.ModelIds): seq<Rule>
    requires !builder.ChannelModerationsPermissions?
  {
    match builder
    case EmojiPermissionsSplit => Catalog.EmojisPermissionsSplitMigration()
    case WebhookPermissionsSplit => Catalog.WebhooksPermissionsSplitMigration()
    case ListJoinPublicPrivateTeams => Catalog.ListJoinPublicPrivateTeamsPermissionsMigration(ids)
    case RemovePermanentDeleteUser => Catalog.RemovePermanentDeleteUserMigration()
    case AddBotPermissions => Catalog.AddBotPermissionsMigration(ids)
    case ApplyChannelManageDeleteToChannelUser => Catalog.ApplyChannelManageDeleteToChannelUser(ids)
    case RemoveChannelManageDeleteFromTeamUser => Catalog.RemoveChannelManageDeleteFromTeamUser(ids)
    case ViewMembersNewPermission => Catalog.ViewMembersPermissionMigration(ids)
    case AddManageGuestsPermissions => Catalog.AddManageGuestsPermissionsMigration(ids)
  }

  /** What a builder yields: its fixed list, or for channel moderation the
      copy rules of every role pair, each pair's moderated permissions in
      the visiting order `orders` gives, followed by the mentions rule. */
  predicate Built(builder: Builder, ids: Catalog.ModelIds, batches: seq<seq<Moderation.Scheme>>, moderated: set<Perm>,
                  rules: seq<Rule>, orders: seq<seq<Perm>>)
  {
    if builder.ChannelModerationsPermissions? then
      && |orders| == |Moderation.TeamSchemes(batches)| + 1
      && (forall k :: 0 <= k < |orders| ==> Moderation.Enumerates(orders[k], moderated))
      && rules == Moderation.ModerationRules(Moderation.RolePairs(ids, Moderation.TeamSchemes(batches)), orders)
                  + [Moderation.MentionsRule()]
    else
      rules == FixedRules(builder, ids)
  }

  /** Calls one builder. The channel-moderation builder reads the team
      schemes, given here as the iterator's batches. No builder fails. */
  method BuildMigration(builder: Builder, ids: Catalog.ModelIds, batches: seq<seq<Moderation.Scheme>>, moderated: set<Perm>)
    returns (rules: seq<Rule>, ghost orders: seq<seq<Perm>>)
    ensures Built(builder, ids, batches, moderated, rules, orders)
  {
    if builder.ChannelModerationsPermissions? {
      rules, orders := Moderation.ChannelModerationPermissionsMigration(ids, batches, moderated);
    } else {
      rules, orders := FixedRules(builder, ids), [];
    }
  }

  // ---------------------------------------------------------------------
  // Reading the write log

  /** The markers a write log records, in order. */
  function MarkersWritten(events: seq<Event>): seq<string>
    decreases |events|
  {
    if events == [] then []
    else
      MarkersWritten(events[..|events| - 1])
      + (match events[|events| - 1] case MarkerSaved(k) => [k] case RoleSaved(_) => [])
  }

  lemma {:induction false} MarkersWrittenConcat(a: seq<Event>, b: seq<Event>)
    ensures MarkersWritten(a + b) == MarkersWritten(a) + MarkersWritten(b)
    decreases |b|
  {
    if b != [] {
      var n := |b| - 1;
      assert (a + b)[..|a + b| - 1] == a + b[..n];
      MarkersWrittenConcat(a, b[..n]);
    } else {
      assert a + b == a;
    }
  }

  /** Role saves write no marker. */
  lemma {:induction false} MarkersWrittenRoles(roles: seq<Role>)
    ensures MarkersWritten(RoleEvents(roles)) == []
    decreases |roles|
  {
    if roles != [] {
      MarkersWrittenRoles(roles[..|roles| - 1]);
    }
  }

  /** The keys a fault-free run writes, in order: each key that is neither
      among the markers already present nor an earlier key. */
  function Pending(keys: seq<string>, markers: set<string>): seq<string>
    decreases |keys|
  {
    if keys == [] then []
    else
      var front := keys[..|keys| - 1];
      var k := keys[|keys| - 1];
      var rest := Pending(front, markers);
      if k in markers || k in front then rest else rest + [k]
  }

  /** Exactly the keys not already marked are written. */
  lemma {:induction false} PendingElems(keys: seq<string>, markers: set<string>)
    ensures Elems(Pending(keys, markers)) == Elems(keys) - markers
    decreases |keys|
  {
    if keys != [] {
      var front := keys[..|keys| - 1];
      var k := keys[|keys| - 1];
      var rest := Pending(front, markers);
      PendingElems(front, markers);
      assert Elems(keys) == Elems(front) + {k};
      if k in markers || k in front {
        assert Pending(keys, markers) == rest;
        assert k in front ==> k in Elems(front);
      } else {
        assert Pending(keys, markers) == rest + [k];
        assert Elems(rest + [k]) == Elems(rest) + {k};
      }
    }
  }

  /** No key is written twice. */
  lemma {:induction false} PendingDistinct(keys: seq<string>, markers: set<string>)
    ensures NoDuplicates(Pending(keys, markers))
    decreases |keys|
  {
    if keys != [] {
      var front := keys[..|keys| - 1];
      var k := keys[|keys| - 1];
      var rest := Pending(front, markers);
      PendingDistinct(front, markers);
      PendingElems(front, markers);
      if !(k in markers || k in front) {
        assert k !in Elems(rest);
        AppendFresh(rest, k);
      }
    }
  }

  lemma PendingAppend(keys: seq<string>, k: string, markers: set<string>)
    ensures Pending(keys + [k], markers) == Pending(keys, markers) + (if k in markers + Elems(keys) then [] else [k])
  {
    assert (keys + [k])[..|keys|] == keys;
  }

  /** The markers logged after one more turn of a fault-free driver loop. */
  lemma LogAppend(keys: seq<string>, k: string, markers: set<string>, written: seq<Event>, delta: seq<Event>)
    requires MarkersWritten(written) == Pending(keys, markers)
    requires written == [] <==> MarkersWritten(written) == []
    requires MarkersWritten(delta) == if k in markers + Elems(keys) then [] else [k]
    requires delta == [] <==> k in markers + Elems(keys)
    ensures MarkersWritten(written + delta) == Pending(keys + [k], markers)
    ensures written + delta == [] <==> MarkersWritten(written + delta) == []
  {
    PendingAppend(keys, k, markers);
    MarkersWrittenConcat(written, delta);
  }

  // ---------------------------------------------------------------------
  // What each turn did

  /** One turn of the driver loop: the rule list its builder built (with the
      moderation builder's visiting orders), whether the marker lookup found
      the key, the roles before and after the turn, how many roles it saved,
      the writes it logged and the outcome it returned. */
  datatype Turn = Turn(rules: seq<Rule>, orders: seq<seq<Perm>>, marked: bool, before: seq<Role>, after: seq<Role>,
                       saved: nat, delta: seq<Event>, outcome: Outcome)

  /** Turn `t` ran migration `m`: its rules are what `m`'s builder yields and
      its first `saved` roles were migrated with them. A turn that finished
      was skipped, saving and logging nothing, exactly when the lookup found
      its marker; otherwise it saved every role and then the marker. A turn
      that failed got past the lookup and logged only the saves it made. */
  predicate TurnDid(m: PermissionsMigration, ids: Catalog.ModelIds, batches: seq<seq<Moderation.Scheme>>,
                    moderated: set<Perm>, t: Turn, finished: bool)
  {
    && Built(m.migration, ids, batches, moderated, t.rules, t.orders)
    && Attempted(m.key, t, finished)
  }

  /** Turn `t` ran its rules behind the marker `key`: its first `saved`
      roles were migrated with them, and it returned `Ok` exactly when it
      finished, after the skip or the full save described by `TurnDid`. */
  predicate Attempted(key: string, t: Turn, finished: bool)
  {
    && Migrated(t.before, t.rules, t.after, t.saved)
    && if finished then
         && t.outcome == Ok
         && if t.marked then t.saved == 0 && t.delta == []
            else t.saved == |t.before| && t.delta == RoleEvents(t.after) + [MarkerSaved(key)]
       else
         && t.outcome.Failed?
         && !t.marked && t.delta == RoleEvents(t.after[..t.saved])
  }


  /** Each turn starts from the roles the previous one left, the first from
      `start`, and the last leaves `end`. */
  predicate Chained(start: seq<Role>, turns: seq<Turn>, end: seq<Role>)
    decreases |turns|
  {
    if turns == [] then end == start
    else Chained(start, turns[..|turns| - 1], turns[|turns| - 1].before) && end == turns[|turns| - 1].after
  }

  /** Turn `k` ran migration `k`; every turn but the last finished, and the
      last one finished if `finished` says so. */
  predicate Ran(ms: seq<PermissionsMigration>, ids: Catalog.ModelIds, batches: seq<seq<Moderation.Scheme>>,
                moderated: set<Perm>, turns: seq<Turn>, finished: bool)
    requires |turns| <= |ms|
    decreases |turns|
  {
    turns == []
    || (&& Ran(ms, ids, batches, moderated, turns[..|turns| - 1], true)
        && TurnDid(ms[|turns| - 1], ids, batches, moderated, turns[|turns| - 1], finished))
  }

  /** The writes of the turns, in order. */
  function Deltas(turns: seq<Turn>): seq<Event>
    decreases |turns|
  {
    if turns == [] then [] else Deltas(turns[..|turns| - 1]) + turns[|turns| - 1].delta
  }

  /** Every skipped turn's key was already marked: in `markers`, the stores'
      markers before the run, or by an earlier migration of the run. */
  predicate SkipsMarked(ms: seq<PermissionsMigration>, markers: set<string>, turns: seq<Turn>)
    requires |turns| <= |ms|
  {
    forall k :: 0 <= k < |turns| && turns[k].marked ==> KeysOf(ms)[k] in markers + Elems(KeysOf(ms)[..k])
  }

  /** A turn that was skipped on a key marked before the run or by the
      finished migrations `doneKeys` keeps `SkipsMarked`. */
  lemma SkipsMarkedStep(ms: seq<PermissionsMigration>, markers: set<string>, turns: seq<Turn>, doneKeys: seq<string>, t: Turn)
    requires |turns| < |ms| && SkipsMarked(ms, markers, turns)
    requires |doneKeys| == |turns| && forall k :: 0 <= k < |doneKeys| ==> doneKeys[k] == ms[k].key
    requires t.marked ==> ms[|turns|].key in markers + Elems(doneKeys)
    ensures SkipsMarked(ms, markers, turns + [t])
  {
    assert doneKeys == KeysOf(ms)[..|turns|];
    assert forall k :: 0 <= k < |turns| ==> (turns + [t])[k] == turns[k];
  }

  /** One more turn extends the chain, the record and the writes. */
  lemma TurnsStep(ms: seq<PermissionsMigration>, ids: Catalog.ModelIds, batches: seq<seq<Moderation.Scheme>>,
                  moderated: set<Perm>, start: seq<Role>, turns: seq<Turn>, t: Turn, finished: bool)
    requires |turns| < |ms|
    requires Chained(start, turns, t.before)
    requires Ran(ms, ids, batches, moderated, turns, true)
    requires TurnDid(ms[|turns|], ids, batches, moderated, t, finished)
    ensures Chained(start, turns + [t], t.after)
    ensures Ran(ms, ids, batches, moderated, turns + [t], finished)
    ensures Deltas(turns + [t]) == Deltas(turns) + t.delta
  {
    assert (turns + [t])[..|turns|] == turns;
  }

  /** `Chained` pointwise: each turn starts where the one before it ended. */
  lemma {:induction false} ChainedAt(start: seq<Role>, turns: seq<Turn>, end: seq<Role>, k: nat)
    requires Chained(start, turns, end) && k < |turns|
    ensures turns[k].before == if k == 0 then start else turns[k - 1].after
    decreases |turns|
  {
    var front := turns[..|turns| - 1];
    if k < |front| {
      ChainedAt(start, front, turns[|turns| - 1].before, k);
      assert front[k] == turns[k];
      if 0 < k {
        assert front[k - 1] == turns[k - 1];
      }
    } else if 0 < k {
      assert front[k - 1] == turns[k - 1];
    }
  }

  /** `Ran` pointwise: turn `k` ran migration `k`, and finished unless it is
      the last turn of a run that did not. */
  lemma {:induction false} RanAt(ms: seq<PermissionsMigration>, ids: Catalog.ModelIds, batches: seq<seq<Moderation.Scheme>>,
                                 moderated: set<Perm>, turns: seq<Turn>, finished: bool, k: nat)
    requires |turns| <= |ms| && Ran(ms, ids, batches, moderated, turns, finished) && k < |turns|
    ensures TurnDid(ms[k], ids, batches, moderated, turns[k], k < |turns| - 1 || finished)
    decreases |turns|
  {
    var front := turns[..|turns| - 1];
    if k < |front| {
      RanAt(ms, ids, batches, moderated, front, true, k);
      assert front[k] == turns[k];
    }
  }

  // ---------------------------------------------------------------------
  // The driver

  /** One turn of the driver loop: build the migration's rules and run it
      behind its marker. */
  method RunMigrationStep(store: Store, migration: PermissionsMigration, ids: Catalog.ModelIds,
                          batches: seq<seq<Moderation.Scheme>>, moderated: set<Perm>)
    returns (result: Outcome, ghost turn: Turn)
    modifies store
    ensures turn.before == old(store.roles) && turn.after == store.roles && turn.outcome == result
    ensures TurnDid(migration, ids, batches, moderated, turn, result == Ok)
    // a failed turn returns the error of the call that failed
    ensures result.Failed? ==> FailedAt(migration.key, turn.before, turn.saved, result)
    // a turn is skipped only when the key is marked, so a successful turn on an
    // unmarked key saved every role and then the marker
    ensures turn.marked ==> migration.key in old(store.markers)
    ensures result == Ok && migration.key !in old(store.markers) ==>
              turn.saved == |turn.before| && turn.delta == RoleEvents(turn.after) + [MarkerSaved(migration.key)]
    ensures store.log == old(store.log) + turn.delta
    ensures result.Failed? ==> store.markers == old(store.markers) && store.calls - 1 in store.faults
    ensures result == Ok ==> store.markers == old(store.markers) + {migration.key}
    ensures old(store.FaultFree()) ==>
              && result == Ok && store.FaultFree()
              && MarkersWritten(turn.delta) == if migration.key in old(store.markers) then [] else [migration.key]
    ensures old(store.FaultFree()) ==> (turn.delta == [] <==> migration.key in old(store.markers))
    // a turn that writes nothing leaves the roles as they were
    ensures turn.delta == [] ==> store.roles == old(store.roles)
  {
    var rules, orders := BuildMigration(migration.migration, ids, batches, moderated);
    result, turn := RunBuiltMigration(store, migration.key, rules, orders);
  }

  /** The second half of a turn: run the built rules behind the marker
      `key`, recording the turn. */
  method RunBuiltMigration(store: Store, key: string, rules: seq<Rule>, ghost orders: seq<seq<Perm>>)
    returns (result: Outcome, ghost turn: Turn)
    modifies store
    ensures turn.rules == rules && turn.orders == orders
    ensures turn.before == old(store.roles) && turn.after == store.roles && turn.outcome == result
    ensures Attempted(key, turn, result == Ok)
    ensures result.Failed? ==> FailedAt(key, turn.before, turn.saved, result)
    ensures turn.marked ==> key in old(store.markers)
    ensures result == Ok && key !in old(store.markers) ==>
              turn.saved == |turn.before| && turn.delta == RoleEvents(turn.after) + [MarkerSaved(key)]
    ensures store.log == old(store.log) + turn.delta
    ensures result.Failed? ==> store.markers == old(store.markers) && store.calls - 1 in store.faults
    ensures result == Ok ==> store.markers == old(store.markers) + {key}
    ensures old(store.FaultFree()) ==>
              && result == Ok && store.FaultFree()
              && MarkersWritten(turn.delta) == if key in old(store.markers) then [] else [key]
    ensures old(store.FaultFree()) ==> (turn.delta == [] <==> key in old(store.markers))
    ensures turn.delta == [] ==> store.roles == old(store.roles)
  {
    ghost var skipped, saved;
    result, skipped, saved := store.DoPermissionsMigration(key, rules);
    ghost var delta: seq<Event>;
    if skipped {
      delta := [];
      assert store.log == old(store.log) + delta;
    } else if result == Ok {
      delta := RoleEvents(store.roles) + [MarkerSaved(key)];
      MarkersWrittenConcat(RoleEvents(store.roles), [MarkerSaved(key)]);
      MarkersWrittenRoles(store.roles);
    } else {
      delta := RoleEvents(store.roles[..saved]);
      if delta == [] {
        assert saved == 0;
      }
    }
    turn := Turn(rules, orders, skipped, old(store.roles), store.roles, saved, delta, result);
  }

  /** The state of the stores at one point of the driver loop: the markers,
      the roles, the write log, and whether no call from now on fails. */
  datatype Stores = Stores(markers: set<string>, roles: seq<Role>, log: seq<Event>, faultFree: bool)

  /** Where the driver loop stands after `turns`, begun on the stores `start`:
      `doneKeys` are the keys of the migrations that finished, and the stores
      are now `now`. */
  predicate Progress(ms: seq<PermissionsMigration>, ids: Catalog.ModelIds, batches: seq<seq<Moderation.Scheme>>,
                     moderated: set<Perm>, start: Stores, turns: seq<Turn>, doneKeys: seq<string>, result: Outcome,
                     now: Stores)
  {
    && |turns| <= |ms|
    && (result.Failed? ==> 1 <= |turns|)
    && |doneKeys| == (if result.Failed? then |turns| - 1 else |turns|)
    && (forall k :: 0 <= k < |doneKeys| ==> doneKeys[k] == ms[k].key)
    && now.markers == start.markers + Elems(doneKeys)
    && Chained(start.roles, turns, now.roles)
    && Ran(ms, ids, batches, moderated, turns, result == Ok)
    && now.log == start.log + Deltas(turns)
    && (start.faultFree ==> result == Ok && now.faultFree)
    && (start.faultFree ==> MarkersWritten(Deltas(turns)) == Pending(doneKeys, start.markers))
    && (Deltas(turns) == [] ==> now.roles == start.roles)
    && (start.faultFree ==> (Deltas(turns) == [] <==> MarkersWritten(Deltas(turns)) == []))
  }

  /** One more turn keeps the driver loop's bookkeeping: `turn` ran the next
      migration on the stores `now` and left them as `next`. */
  lemma ProgressStep(ms: seq<PermissionsMigration>, ids: Catalog.ModelIds, batches: seq<seq<Moderation.Scheme>>,
                     moderated: set<Perm>, start: Stores, turns: seq<Turn>, doneKeys: seq<string>, now: Stores,
                     turn: Turn, result: Outcome, next: Stores)
    requires |turns| < |ms|
    requires Progress(ms, ids, batches, moderated, start, turns, doneKeys, Ok, now)
    requires turn.before == now.roles && next.roles == turn.after && next.log == now.log + turn.delta
    requires TurnDid(ms[|turns|], ids, batches, moderated, turn, result == Ok)
    requires result.Failed? ==> next.markers == now.markers
    requires result == Ok ==> next.markers == now.markers + {ms[|turns|].key}
    requires now.faultFree ==>
               && result == Ok && next.faultFree
               && MarkersWritten(turn.delta) == if ms[|turns|].key in now.markers then [] else [ms[|turns|].key]
    requires now.faultFree ==> (turn.delta == [] <==> ms[|turns|].key in now.markers)
    requires turn.delta == [] ==> turn.after == now.roles
    ensures Progress(ms, ids, batches, moderated, start, turns + [turn],
                     if result == Ok then doneKeys + [ms[|turns|].key] else doneKeys, result, next)
  {
    var key := ms[|turns|].key;
    if start.faultFree {
      LogAppend(doneKeys, key, start.markers, Deltas(turns), turn.delta);
    }
    TurnsStep(ms, ids, batches, moderated, start.roles, turns, turn, result == Ok);
    if result == Ok {
      assert Elems(doneKeys + [key]) == Elems(doneKeys) + {key};
      assert forall k :: 0 <= k < |doneKeys| ==> (doneKeys + [key])[k] == doneKeys[k];
    }
  }

  /** One turn of the driver loop, with its bookkeeping. */
  method DriverTurn(store: Store, migrations: seq<PermissionsMigration>, ids: Catalog.ModelIds,
                    batches: seq<seq<Moderation.Scheme>>, moderated: set<Perm>, i: nat, ghost start: Stores,
                    ghost turns: seq<Turn>, ghost doneKeys: seq<string>)
    returns (result: Outcome, ghost turns': seq<Turn>, ghost doneKeys': seq<string>)
    requires i == |turns| < |migrations|
    requires Progress(migrations, ids, batches, moderated, start, turns, doneKeys, Ok,
                      Stores(store.markers, store.roles, store.log, store.FaultFree()))
    requires SkipsMarked(migrations, start.markers, turns)
    modifies store
    ensures |turns'| == |turns| + 1
    ensures Progress(migrations, ids, batches, moderated, start, turns', doneKeys', result,
                     Stores(store.markers, store.roles, store.log, store.FaultFree()))
    ensures SkipsMarked(migrations, start.markers, turns')
    ensures result.Failed? ==> store.calls - 1 in store.faults
    ensures result == turns'[|turns'| - 1].outcome
    ensures result.Failed? ==> FailedAt(migrations[i].key, turns'[i].before, turns'[i].saved, result)
  {
    ghost var now := Stores(store.markers, store.roles, store.log, store.FaultFree());
    ghost var turn;
    result, turn := RunMigrationStep(store, migrations[i], ids, batches, moderated);
    ProgressStep(migrations, ids, batches, moderated, start, turns, doneKeys, now,
                 turn, result, Stores(store.markers, store.roles, store.log, store.FaultFree()));
    SkipsMarkedStep(migrations, start.markers, turns, doneKeys, turn);
    turns' := turns + [turn];
    doneKeys' := if result == Ok then doneKeys + [migrations[i].key] else doneKeys;
  }

  /** The loop of the source's `DoPermissionsMigrations` over a migration
      list; `turns` records what each attempted migration did. */
  method RunMigrations(store: Store, migrations: seq<PermissionsMigration>, ids: Catalog.ModelIds,
                       batches: seq<seq<Moderation.Scheme>>, moderated: set<Perm>)
    returns (result: Outcome, ghost turns: seq<Turn>)
    modifies store
    ensures |turns| <= |migrations|
    ensures result == Ok ==> |turns| == |migrations|
    ensures result.Failed? ==> 1 <= |turns| && store.calls - 1 in store.faults
    // a failed run returns the error of its last turn: loading the roles,
    // saving the role after those it saved, or saving the marker
    ensures result.Failed? ==>
              && result == turns[|turns| - 1].outcome
              && FailedAt(migrations[|turns| - 1].key, turns[|turns| - 1].before, turns[|turns| - 1].saved, result)
    // the migrations ran in order, each on the roles the one before left,
    // and only the last attempted one can have failed
    ensures Chained(old(store.roles), turns, store.roles)
    ensures Ran(migrations, ids, batches, moderated, turns, result == Ok)
    // a migration was skipped only when its key was marked before it ran
    ensures forall k :: 0 <= k < |turns| && turns[k].marked ==>
              KeysOf(migrations)[k] in old(store.markers) + Elems(KeysOf(migrations)[..k])
    ensures store.log == old(store.log) + Deltas(turns)
    // each migration that completed, or was skipped, leaves its marker
    ensures store.markers == old(store.markers) + Elems(KeysOf(migrations)[..if result.Failed? then |turns| - 1 else |turns|])
    // without faults every migration completes and exactly the missing markers are written, in order
    ensures old(store.FaultFree()) ==>
              && result == Ok && store.FaultFree()
              && MarkersWritten(Deltas(turns)) == Pending(KeysOf(migrations), old(store.markers))
    // a fault-free run over keys that are all marked changes nothing
    ensures old(store.FaultFree()) && Elems(KeysOf(migrations)) <= old(store.markers) ==>
              store.roles == old(store.roles) && store.log == old(store.log)
  {
    ghost var start := Stores(store.markers, store.roles, store.log, store.FaultFree());
    ghost var doneKeys: seq<string> := [];
    turns := [];
    result := Ok;
    var i := 0;
    while i < |migrations| && result.Ok?
      invariant |turns| == i <= |migrations|
      invariant Progress(migrations, ids, batches, moderated, start, turns, doneKeys, result,
                         Stores(store.markers, store.roles, store.log, store.FaultFree()))
      invariant SkipsMarked(migrations, start.markers, turns)
      invariant result.Failed? ==> store.calls - 1 in store.faults
      invariant result.Failed? ==>
                  && result == turns[|turns| - 1].outcome
                  && FailedAt(migrations[|turns| - 1].key, turns[|turns| - 1].before, turns[|turns| - 1].saved, result)
    {
      result, turns, doneKeys := DriverTurn(store, migrations, ids, batches, moderated, i, start, turns, doneKeys);
      i := i + 1;
    }
    ghost var keyList := KeysOf(migrations);
    if start.faultFree && Elems(keyList) <= start.markers {
      PendingElems(keyList, start.markers);
      EmptyElems(Pending(keyList, start.markers));
    }
    assert doneKeys == keyList[..|doneKeys|];
    assert keyList[..|keyList|] == keyList;
  }

  /** The source's `DoPermissionsMigrations`: the registered migrations, run
      in order until one fails. */
  method DoPermissionsMigrations(store: Store, ids: Catalog.ModelIds, keys: MigrationKeys,
                                 batches: seq<seq<Moderation.Scheme>>, moderated: set<Perm>)
    returns (result: Outcome, ghost turns: seq<Turn>)
    modifies store
    ensures |turns| <= 10
    ensures result == Ok ==> |turns| == 10
    ensures result.Failed? ==> 1 <= |turns| && store.calls - 1 in store.faults
    ensures result.Failed? ==>
              && result == turns[|turns| - 1].outcome
              && FailedAt(PermissionsMigrations(keys)[|turns| - 1].key, turns[|turns| - 1].before, turns[|turns| - 1].saved, result)
    ensures Chained(old(store.roles), turns, store.roles)
    ensures Ran(PermissionsMigrations(keys), ids, batches, moderated, turns, result == Ok)
    ensures forall k :: 0 <= k < |turns| && turns[k].marked ==>
              KeysOf(PermissionsMigrations(keys))[k] in old(store.markers) + Elems(KeysOf(PermissionsMigrations(keys))[..k])
    ensures store.log == old(store.log) + Deltas(turns)
    ensures store.markers
            == old(store.markers) + Elems(KeysOf(PermissionsMigrations(keys))[..if result.Failed? then |turns| - 1 else |turns|])
    ensures old(store.FaultFree()) ==>
              && result == Ok && store.FaultFree()
              && MarkersWritten(Deltas(turns)) == Pending(KeysOf(PermissionsMigrations(keys)), old(store.markers))
    ensures old(store.FaultFree()) && Elems(KeysOf(PermissionsMigrations(keys))) <= old(store.markers) ==>
              store.roles == old(store.roles) && store.log == old(store.log)
  {
    result, turns := RunMigrations(store, PermissionsMigrations(keys), ids, batches, moderated);
  }

  /** Running the migrations twice on stores that never fail: both runs
      succeed, and the second changes no role and writes nothing. */
  method DoPermissionsMigrationsTwice(store: Store, ids: Catalog.ModelIds, keys: MigrationKeys,
                                      batches: seq<seq<Moderation.Scheme>>, moderated: set<Perm>)
    returns (first: Outcome, second: Outcome, ghost rolesBetween: seq<Role>, ghost logBetween: seq<Event>)
    requires store.FaultFree()
    modifies store
    ensures first == Ok && second == Ok
    ensures store.roles == rolesBetween && store.log == logBetween
  {
    ghost var turns;
    first, turns := DoPermissionsMigrations(store, ids, keys, batches, moderated);
    rolesBetween, logBetween := store.roles, store.log;
    ghost var keyList := KeysOf(PermissionsMigrations(keys));
    assert keyList[..|turns|] == keyList;
    second, turns := DoPermissionsMigrations(store, ids, keys, batches, moderated);
  }
}
