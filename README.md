# Permissions migrations

A Dafny model of the permissions-migration engine of the Mattermost server, with proofs about the model. The engine is a small rule language that rewrites the permission lists of named roles, once per migration key.

- **Predicates** (`predicates.dfy`, module `Predicates`). The closures `isRole`, `permissionExists`, `permissionNotExists`, `onOtherRole`, `permissionOr` and `permissionAnd` become one datatype `Pred`. It has an evaluator `Eval(pred, subject, snapshot)`. A snapshot is a map from role name to a map from permission to a bool.
- **Rule applier** (`transform.dfy`, module `Transform`). `applyPermissionsMap` is a method with the source's nested loops. It is proved against the pure specification `ApplyRules`. Each rule whose condition holds in the current snapshot writes `true` for every add and then `false` for every remove, into the subject's entry only. The method returns the permissions whose final value is `true`.
- **Rule shapes** (`ruleforms.dfy`, module `RuleForms`). The catalog is built from a few shapes of rule: splits, role grants, copies from another role, guarded revokes, and lists that only add or only remove. Splits, role grants, copies (from another role or from the target itself) and revokes each come with a lemma giving their exact effect on a role's grants. For add-only and remove-only lists the lemmas state monotonicity: an add-only list never takes a grant away, a remove-only list never gives one, and a list whose adds lie in a set grants nothing outside it.
- **Gated runner** (`migration.dfy`, module `Migration`). `doPermissionsMigration` is a method of a `Store` class. The class holds:
  - the completion markers;
  - the role list;
  - a log of the writes that reached the stores;
  - a call counter;
  - a fixed set `faults` of call numbers that fail.

  The runner first looks up the marker. It then loads every role, seeds a snapshot, and applies the rules to each role in load order against that shared snapshot. Each role is saved, and the marker is written last. The first failing call ends the run, and its error is the run's result.
- **Catalog** (`catalog.dfy`, module `Catalog`). It holds the permission-name constants and the nine fixed rule-list builders. For each builder a lemma gives its effect on every role.
- **Channel moderation** (`moderation.dfy`, module `Moderation`). `channelModerationPermissionsMigration` does three loops:
  - it collects team schemes from an iterator;
  - it forms role pairs;
  - for each pair and each moderated permission, it emits a copy rule, then a final mentions rule.
- **Driver** (`driver.dfy`, module `Driver`). `DoPermissionsMigrations` holds the registration table of ten migrations. It runs them in order, each behind its own marker, and stops at the first error.

Store calls are modelled by the `Store` class. A call numbered `n` fails exactly when `n` is in `faults`. `FaultFree()` says that no call from now on fails. The write log (`RoleSaved`, `MarkerSaved`) records the order in which writes reached the stores.

## Model

| member | source | states |
|---|---|---|
| Predicates.Granted | app/permissions_migrations.go:60-72 | the lookup `val, ok := permissionsMap[roleName][permission]; ok && val`, with a role missing from the snapshot read as an empty map |
| Predicates.Eval | app/permissions_migrations.go:54-100 | evaluates each combinator as its closure does: `isRole` compares the subject, the two lookups test a grant, `onOtherRole` evaluates its argument at the other role, and `permissionOr`/`permissionAnd` run their loops |
| Predicates.AnyFrom | app/permissions_migrations.go:82-87 | the `permissionOr` loop from position `i`: the first sub-predicate that holds returns true, running off the end returns false |
| Predicates.AllFrom | app/permissions_migrations.go:93-98 | the `permissionAnd` loop from position `i`: the first sub-predicate that fails returns false, running off the end returns true |
| Predicates.IsRoleIff | app/permissions_migrations.go:54-58 | `isRole(r)` holds exactly when the subject is `r`, whatever the snapshot |
| Predicates.PermissionExistsIff | app/permissions_migrations.go:60-65 | `permissionExists(p)` holds exactly when the subject's entry has key `p` mapped to true; a missing role or key reads as false |
| Predicates.PermissionNotExistsIsNegation | app/permissions_migrations.go:67-72 | `permissionNotExists(p)` is the exact negation of `permissionExists(p)`, so an entry mapped to false counts the same as an absent one |
| Predicates.OnOtherRoleIgnoresSubject | app/permissions_migrations.go:74-78 | `onOtherRole(r, f)` equals `f` evaluated at `r` and gives the same answer for every subject |
| Predicates.AnyFromIff | app/permissions_migrations.go:82-87 | the early-return loop of `permissionOr` from position `i` is true iff some later predicate holds |
| Predicates.AllFromIff | app/permissions_migrations.go:93-98 | the early-return loop of `permissionAnd` from position `i` is true iff every later predicate holds |
| Predicates.PermissionOrIff | app/permissions_migrations.go:80-89 | `permissionOr` is true iff some sub-predicate holds, and false on an empty list |
| Predicates.PermissionAndIff | app/permissions_migrations.go:91-100 | `permissionAnd` is true iff every sub-predicate holds, and true on an empty list |
| Predicates.EvalRespectsGrants | app/permissions_migrations.go:54-100 | a condition's answer depends only on which permissions each role holds as true, not on stored false entries |
| Predicates.AnyFromRespectsGrants | app/permissions_migrations.go:82-87 | the `permissionOr` loop gives the same answer on two snapshots with the same grants |
| Predicates.AllFromRespectsGrants | app/permissions_migrations.go:93-98 | the `permissionAnd` loop gives the same answer on two snapshots with the same grants |
| Transform.SetAll | app/permissions_migrations.go:107-112 | writing a list of permissions as `v` adds exactly those keys, maps each to `v` and keeps every other key's value |
| Transform.ApplyRules | app/permissions_migrations.go:105-114 | applying rules never adds or drops a role from the snapshot |
| Transform.ApplyRule | app/permissions_migrations.go:106-113 | one turn of the rule loop: when the condition holds on the current snapshot, the adds are written true and then the removes false, into the subject's entry only |
| Transform.ApplyPermissionsMap | app/permissions_migrations.go:102-122 | the method's final snapshot is the rule specification's. Only `roleMap[roleName]` changes, and no role is added or dropped. The result lists each permission whose final value is true, exactly once |
| Transform.RunRule | app/permissions_migrations.go:106-113 | one turn of the rule loop leaves the snapshot the single-rule specification gives: the adds, then the removes, when the rule holds |
| Transform.WriteAll | app/permissions_migrations.go:107-112 | the add loop and the remove loop write their list into the subject's entry and nowhere else |
| Transform.GrantedKeys | app/permissions_migrations.go:116-120 | the result loop lists exactly the keys mapped to true, each once, in no fixed order |
| Transform.ApplyRulesFrame | app/permissions_migrations.go:105-114 | every role's entry other than the subject's is the same after the rules run, even though conditions may read it |
| Transform.ApplyRulesKeeps | app/permissions_migrations.go:105-114 | the same frame fact for one given other role |
| Transform.ApplyRuleAt | app/permissions_migrations.go:106-113 | within one rule that holds, removes are written after adds: a permission in both lists ends false, one only added ends true, and an untouched key keeps its value |
| Transform.ApplyRulesAppend | app/permissions_migrations.go:105-114 | running `a` and then `b` on the snapshot `a` left is running `a + b` |
| Transform.UntouchedPermission | app/permissions_migrations.go:105-114 | a permission that no rule lists keeps its presence and its value |
| Transform.UnfiredPermission | app/permissions_migrations.go:105-114 | a permission keeps its presence and its value when every rule that lists it does not hold on the snapshot the rules before it left |
| Transform.LastWriterWins | app/permissions_migrations.go:105-114 | across rules, the last rule that holds and lists a permission decides it: false if that rule removes it, true if it only adds it. Later rules may list the permission as long as they do not hold |
| Transform.RuleOrderSensitivity | app/permissions_migrations.go:105-114 | rule order matters: an add then a remove of `p` leaves it revoked, and the reverse order leaves it granted |
| Transform.AlwaysHolds | app/permissions_migrations.go:91-100 | an empty `permissionAnd` holds for every subject |
| Transform.CrossRolePredicate | app/permissions_migrations.go:74-78 | a condition may read another role's entry: the subject gains `r` when role `b` holds `q` |
| RuleForms.TrueKeysSetAll | app/permissions_migrations.go:107-112 | writing a list as true adds it to the grants; writing it as false removes it from them |
| RuleForms.GrantsOf | app/permissions_migrations.go:60-65 | a role's grants are exactly the permissions `permissionExists` finds on it |
| RuleForms.AddOnlyGrows | app/permissions_migrations.go:105-114 | rules without removes never take away a grant |
| RuleForms.RemoveOnlyShrinks | app/permissions_migrations.go:105-114 | rules without adds never give a grant |
| RuleForms.AddsWithinBound | app/permissions_migrations.go:105-114 | rules that add only permissions of a set grant the subject nothing outside its old grants and that set |
| RuleForms.AddsWithinConcat | app/permissions_migrations.go:313 | joining rule lists whose adds lie in a set keeps their adds in that set |
| RuleForms.SingleRuleSplit | app/permissions_migrations.go:157-161 | a split rule turns a role holding just `x` into one holding exactly its two new permissions |
| RuleForms.SingleRuleSplitUnmatched | app/permissions_migrations.go:157-161 | a split rule leaves a role without `x` unchanged |
| RuleForms.SplitRuleGrants | app/permissions_migrations.go:157-161 | a split replaces a held permission by its new ones and leaves a role without it alone |
| RuleForms.TwoSplits | app/permissions_migrations.go:156-167 | two splits with distinct permissions act independently, each replacing its own old permission |
| RuleForms.RoleGrantRule | app/permissions_migrations.go:187-191 | an `isRole` grant adds its permissions to the named role and to no other |
| RuleForms.RoleGrantsSingle | app/permissions_migrations.go:210-216 | a one-rule list of role grants adds the permissions to the named role only |
| RuleForms.RoleGrantsPair | app/permissions_migrations.go:186-197 | a two-rule list of role grants adds each rule's permissions to its own role |
| RuleForms.CopyRules | app/permissions_migrations.go:307-315 | one add-only copy rule per listed permission |
| RuleForms.CopyRulesAddWithin | app/permissions_migrations.go:307-315 | copy rules add only the permissions they list |
| RuleForms.CopyRuleFires | app/permissions_migrations.go:310 | a copy rule holds iff the subject is its target and the other role holds the permission |
| RuleForms.CopyRulesSkipOthers | app/permissions_migrations.go:307-315 | copy rules leave every subject other than their target unchanged |
| RuleForms.CopyRulesEffect | app/permissions_migrations.go:307-315 | copy rules give the target exactly the listed permissions that the other role holds, and keep its grants. This includes a role copying from itself, which gains nothing |
| RuleForms.AddOnlyConcat | app/permissions_migrations.go:313 | joining add-only rule lists keeps them add-only |
| RuleForms.RevokeRuleFires | app/permissions_migrations.go:243 | a guarded revoke holds iff the subject is its target and holds the tested permission |
| RuleForms.RevokeRuleEffect | app/permissions_migrations.go:242-245 | a revoke that removes the permission it tests takes it from the target and changes no other subject |
| RuleForms.RevokeRules | app/permissions_migrations.go:241-258 | one guarded revoke per listed permission |
| RuleForms.RevokeRulesEffect | app/permissions_migrations.go:241-258 | revokes take every listed permission from the target and change no other subject |
| Migration.RoleEvents | app/permissions_migrations.go:142-147 | one save event per saved role |
| Migration.RoleEventsAt | app/permissions_migrations.go:142-147 | the `i`-th save event records the `i`-th role, as saved |
| Migration.Seed | app/permissions_migrations.go:134-140 | the seeded snapshot has an entry for exactly the loaded role names |
| Migration.BuildRoleMap | app/permissions_migrations.go:134-140 | the seeding loop's snapshot is the seed specification's |
| Migration.SeedRole | app/permissions_migrations.go:136-139 | one seeding turn resets the role's entry and writes each listed permission as true |
| Migration.SeedAllTrue | app/permissions_migrations.go:134-140 | every key the seeding writes is true |
| Migration.SeedGrantsLoaded | app/permissions_migrations.go:134-140 | with unique names, each role's seeded entry grants exactly the permissions it was loaded with |
| Migration.SnapshotAfter | app/permissions_migrations.go:142-143 | the shared snapshot keeps the loaded role names while the roles are migrated in turn |
| Migration.NewPermissions | app/permissions_migrations.go:143 | the permissions role `i` is saved with: the grants of its own entry after its rules ran, with every earlier role already migrated in the shared snapshot |
| Migration.OwnEntryAtTurn | app/permissions_migrations.go:142-143 | with unique names, a role's entry at its turn still grants exactly what it was loaded with, because earlier turns write only their own entries |
| Migration.UntouchedUntilTurn | app/permissions_migrations.go:142-143 | an entry no earlier turn owns is still its seeded value |
| Migration.Store.GetMarker | app/permissions_migrations.go:125 | the marker is found iff it is present and the lookup does not fail |
| Migration.Store.GetAllRoles | app/permissions_migrations.go:129 | a load that does not fail returns every stored role in store order |
| Migration.Store.SaveRole | app/permissions_migrations.go:144 | a save that does not fail replaces that role and logs it; a failing save changes nothing |
| Migration.Store.SaveMarker | app/permissions_migrations.go:149 | a marker save that does not fail adds the marker and logs it; a failing one changes nothing |
| Migration.FailedAt | app/permissions_migrations.go:129-152 | the error of a failed run is that of the failing call: the role load before any save, the save of the first role not saved, or the marker save after every role |
| Migration.Store.DoPermissionsMigration | app/permissions_migrations.go:124-153 | a found marker means success and nothing written. On a failure the marker is not written, only a prefix of the roles has been saved, and the last call is the one that failed. The error returned is that call's: `RolesLoadFailed` with nothing saved when the role load fails, otherwise `RoleSaveFailed` naming the first role not saved, or `MarkerSaveFailed` once every role was saved. On success every role is saved with its migrated permissions, then the marker is written last. Without faults the run succeeds |
| Migration.Store.RunMigration | app/permissions_migrations.go:129-152 | past the marker check: the roles load, each is migrated and saved in order, and then the marker is written. The first failure stops it with the marker unwritten and returns that call's error: the load's, the failing role save's (naming that role) or the marker save's |
| Migration.Store.SaveRolesAndMarker | app/permissions_migrations.go:134-152 | once the roles are loaded: each is migrated and saved in order, then the marker is written. A failure returns `RoleSaveFailed` for the first role not saved, or `MarkerSaveFailed` once all were saved |
| Migration.Store.SaveMigratedRoles | app/permissions_migrations.go:142-147 | the save loop saves a prefix of the roles, migrated against the shared snapshot. It stops at the first failing save and returns `RoleSaveFailed` naming that role |
| Migration.Store.MigrateRole | app/permissions_migrations.go:143-146 | one turn: the role gets the rules applied against the shared snapshot and is saved with the permissions that turn grants |
| Catalog.EmojisPermissionsSplitMigration | app/permissions_migrations.go:155-168 | the two emoji split rules: `manage_emojis` becomes create and delete, `manage_others_emojis` becomes `delete_others_emojis` |
| Catalog.WebhooksPermissionsSplitMigration | app/permissions_migrations.go:170-183 | the two webhook split rules: the manage permissions become their incoming and outgoing halves |
| Catalog.ListJoinPublicPrivateTeamsPermissionsMigration | app/permissions_migrations.go:185-198 | the system admin is granted listing and joining private teams, the system user listing and joining public teams |
| Catalog.RemovePermanentDeleteUserMigration | app/permissions_migrations.go:200-207 | one rule that removes `permanent_delete_user` wherever it is held |
| Catalog.AddBotPermissionsMigration | app/permissions_migrations.go:209-217 | one rule that grants the system admin the five bot permissions |
| Catalog.ApplyChannelManageDeleteToChannelUser | app/permissions_migrations.go:219-238 | four rules, one per channel manage or delete permission, granting it to the channel user when the team user holds it |
| Catalog.RemoveChannelManageDeleteFromTeamUser | app/permissions_migrations.go:240-259 | four rules, one per channel manage or delete permission, revoking it from the team user when it holds it; the delete-private-channel rule removes the id the model package gives |
| Catalog.ViewMembersPermissionMigration | app/permissions_migrations.go:261-272 | two rules granting `view_members` to the system user and to the system admin |
| Catalog.AddManageGuestsPermissionsMigration | app/permissions_migrations.go:274-281 | one rule granting the system admin promoting, demoting and inviting guests |
| Catalog.EmojisSplitEffect | app/permissions_migrations.go:155-168 | every role's grants become the emoji split of its grants |
| Catalog.EmojisSplitOfManager | app/permissions_migrations.go:157-161 | a role holding `manage_emojis` ends with `create_emojis` and `delete_emojis` and without `manage_emojis` |
| Catalog.EmojisSplitOnSavedRoles | app/permissions_migrations.go:142-147 | with unique names, every role the emoji migration saves holds the split of its loaded permissions |
| Catalog.WebhooksSplitEffect | app/permissions_migrations.go:170-183 | every role's grants become the webhook split of its grants |
| Catalog.ListJoinTeamsEffect | app/permissions_migrations.go:185-198 | the system admin gains listing and joining private teams, the system user gains public teams, and other roles are unchanged |
| Catalog.RemovePermanentDeleteUserEffect | app/permissions_migrations.go:200-207 | `permanent_delete_user` is taken from every role and nothing else changes |
| Catalog.AddBotPermissionsEffect | app/permissions_migrations.go:209-217 | the system admin gains the five bot permissions; other roles are unchanged |
| Catalog.ChannelManageDeleteAsCopies | app/permissions_migrations.go:219-238 | the channel-user migration is the four copy rules from the team user |
| Catalog.ChannelManageDeleteToChannelUserEffect | app/permissions_migrations.go:219-238 | the channel user gains each channel manage or delete permission the team user holds, and gains nothing else, also when it is the team user itself; every other role is unchanged |
| Catalog.TeamUserRevokesAsRevokes | app/permissions_migrations.go:240-259 | when the model's delete-private-channel id is `delete_private_channel`, the team-user migration is four revokes, each removing the permission it tests |
| Catalog.RemoveChannelManageDeleteFromTeamUserEffect | app/permissions_migrations.go:240-259 | under that id, the team user loses all four channel manage and delete permissions and every other role is unchanged |
| Catalog.RemoveChannelManageDeleteNeverGrants | app/permissions_migrations.go:240-259 | whatever that id is, the team-user migration never grants anything |
| Catalog.ViewMembersEffect | app/permissions_migrations.go:261-272 | the system user and the system admin gain `view_members`; other roles are unchanged |
| Catalog.AddManageGuestsEffect | app/permissions_migrations.go:274-281 | the system admin gains promoting, demoting and inviting guests; other roles are unchanged |
| Moderation.Next | app/permissions_migrations.go:297-299 | the k-th call of the scheme iterator returns the k-th batch, and an empty batch once the batches run out |
| Moderation.FirstEmpty | app/permissions_migrations.go:299 | the position where the iterator loop stops: every earlier batch is non-empty and the batch there is empty |
| Moderation.CollectTeamSchemes | app/permissions_migrations.go:295-301 | the iterator loop collects the schemes of every batch before the first empty one, in order |
| Moderation.FlattenFrom | app/permissions_migrations.go:300 | every collected scheme comes from some batch |
| Moderation.TeamSchemes | app/permissions_migrations.go:295-301 | the team schemes the iterator loop collects: the batches before the first empty one, joined in order |
| Moderation.RolePairs | app/permissions_migrations.go:291-305 | the first pair is channel admin from channel user, followed by one pair per team scheme in order |
| Moderation.CollectRolePairs | app/permissions_migrations.go:303-305 | the role-pair loop builds exactly those pairs |
| Moderation.ModerationRules | app/permissions_migrations.go:307-315 | the expanded copy rules never revoke |
| Moderation.PairRules | app/permissions_migrations.go:308-314 | the inner range loop visits every moderated permission exactly once, in some order, and emits one copy rule for each |
| Moderation.ModerationRulesCount | app/permissions_migrations.go:307-315 | when each pair visits every moderated permission once, there are pairs times moderated permissions copy rules |
| Moderation.ChannelModerationPermissionsMigration | app/permissions_migrations.go:283-323 | the builder yields the copy rules for every role pair, then the mentions rule. There are (schemes + 1) times moderated permissions, plus one, rules |
| Moderation.ModerationOnlyGrants | app/permissions_migrations.go:307-320 | the channel-moderation migration never takes a grant away |
| Moderation.ModerationRulesAddWithin | app/permissions_migrations.go:307-315 | the copy rules of every pair add only moderated permissions |
| Moderation.ModerationGainsBounded | app/permissions_migrations.go:307-320 | for every role, a pair target included, the migration grants nothing beyond its old grants, the moderated permissions and `use_channel_mentions` |
| Moderation.MentionsRule | app/permissions_migrations.go:317-320 | the closing rule: a role that holds `create_post` or `create_post_public` is granted `use_channel_mentions` |
| Moderation.MentionsRuleEffect | app/permissions_migrations.go:317-320 | the closing rule adds `use_channel_mentions` exactly to a role that may post, publicly or not, and changes nothing else |
| Moderation.MentionsFollowPosting | app/permissions_migrations.go:317-320 | a role that could post before the migration holds `use_channel_mentions` after it |
| Moderation.CopiedByPairRules | app/permissions_migrations.go:307-315 | a target role gains every visited permission its pair's other role holds, also when the target is the other role itself |
| Moderation.ModerationCopiesGrants | app/permissions_migrations.go:307-320 | after the whole migration, a pair's target holds every moderated permission its other role held |
| Moderation.PairRulesSkipNonTargets | app/permissions_migrations.go:307-315 | the copy rules leave a role that is no pair's target unchanged |
| Moderation.NonTargetGainsOnlyMentions | app/permissions_migrations.go:307-320 | a role that is no pair's target gains at most `use_channel_mentions`, and gains it exactly when it may post |
| Driver.PermissionsMigrations | app/permissions_migrations.go:327-341 | the registration table has ten migrations |
| Driver.EveryBuilderRegistered | app/permissions_migrations.go:327-341 | every builder appears in the table at its declared position, with channel moderation last |
| Driver.KeysOf | app/permissions_migrations.go:327-341 | the table's keys, in declaration order |
| Driver.FixedRules | app/permissions_migrations.go:327-341 | each of the nine fixed builders of the table yields its catalog rule list |
| Driver.Built | app/permissions_migrations.go:344 | what a registered builder yields: its fixed list, or for channel moderation the copy rules of every role pair, each pair visiting every moderated permission once, then the mentions rule |
| Driver.BuildMigration | app/permissions_migrations.go:344 | calling a registered builder yields the rule list `Built` describes, with the visiting orders of the moderation builder's range loops |
| Driver.MarkersWrittenRoles | app/permissions_migrations.go:142-147 | role saves write no markers |
| Driver.PendingElems | app/permissions_migrations.go:343-351 | a fault-free run writes exactly the keys not already marked |
| Driver.PendingDistinct | app/permissions_migrations.go:343-351 | a fault-free run writes each marker at most once |
| Driver.RunMigrationStep | app/permissions_migrations.go:344-350 | one turn builds the migration's rules and runs the gated runner on them. The roles after the turn are the roles before it migrated with exactly those rules, and the turn's writes are appended to the log. The turn records the outcome it returns, and a failed turn's error is that of the call that failed (`FailedAt`). The turn is a skip only when the key was marked, so a success on an unmarked key saved every role and then the marker. A failure leaves the markers as they were and ends on a failing call; a success adds the key's marker. Without faults the turn succeeds, the store stays fault free, and the marker is written iff it was missing. A turn that writes nothing leaves the roles unchanged |
| Driver.RunBuiltMigration | app/permissions_migrations.go:349 | the runner on rules already built records the turn: its roles, writes and outcome, and the failing call's error; a skip only when the key was marked |
| Driver.TurnDid | app/permissions_migrations.go:344-350 | a turn ran its migration: its rules are what the builder yields and the roles it saved were migrated with them. A finished turn returned `Ok` and logged nothing when its marker lookup found the key, and otherwise every role and then the marker; a failed turn got past the lookup and logged only the saves made before the failure |
| Driver.Attempted | app/permissions_migrations.go:349 | the store half of `TurnDid`: the saved roles were migrated with the turn's rules, and the turn returned `Ok` exactly when it finished |
| Driver.SkipsMarkedStep | app/permissions_migrations.go:343-352 | a turn skipped on a key marked before the run or by a finished earlier migration keeps every skip of the run tied to a marked key |
| Driver.TurnsStep | app/permissions_migrations.go:343-352 | one more turn extends the chain of role lists, the record of what each turn ran, and the log |
| Driver.ChainedAt | app/permissions_migrations.go:343-352 | each migration runs on the roles the one before it left, the first on the roles the driver found |
| Driver.RanAt | app/permissions_migrations.go:343-352 | the k-th turn ran the k-th registered migration with its own builder's rules, and finished unless it is the last turn of a failed run |
| Driver.ProgressStep | app/permissions_migrations.go:343-352 | one more turn keeps the driver loop's bookkeeping: completed keys, markers, chained roles, per-turn record, log, and the fault-free markers written in order |
| Driver.DriverTurn | app/permissions_migrations.go:344-350 | one loop turn runs the next migration and re-establishes the loop's bookkeeping and the tie between skips and marked keys. It returns the new turn's outcome, and a failure ends on a failing call whose error it returns |
| Driver.RunMigrations | app/permissions_migrations.go:343-352 | the loop runs the migrations in order and stops at the first failure. It then returns the failed turn's error: loading the roles, saving the next role, or saving the marker. Each migration runs with its own builder's rules on the roles the one before it left, and the final roles are the last turn's. A migration is skipped only when its key was marked before the run or by an earlier migration, so every other turn before a failure saved all roles and its marker. The log is the turns' writes in order. The markers gained are those of the migrations before the failing one. Without faults every migration completes, the store stays fault free, and the missing markers are written in declaration order. A fault-free run over keys that are all marked changes no role and writes nothing |
| Driver.DoPermissionsMigrations | app/permissions_migrations.go:326-353 | the same facts as `RunMigrations`, for the ten registered migrations in declaration order |
| Driver.DoPermissionsMigrationsTwice | app/permissions_migrations.go:326-353 | on stores that never fail, two runs of the driver both succeed, and the second changes no role and writes nothing |

## Left out

- Store calls (`System().GetByName`, `System().Save`, `Role().Save`, `GetAllRoles`) are modelled by the `Store` class. Whether a call fails comes from the `faults` set of call numbers. The stores' own implementation, their error values and `*model.AppError` formatting are modelled by the `StoreError` kinds only: which call failed, and for a role save which role.
- `Migration.Store.GetMarker`: every failed lookup reads as a missing marker, because the source checks only whether `GetByName` erred.
- `Migration.Store.SaveRole`: a saved role replaces the one loaded at the same position in the role list. Role IDs and other role fields are not modelled, as the migration reads only names and permission lists.
- `Migration.OwnEntryAtTurn`, `Migration.SeedGrantsLoaded` and `Catalog.EmojisSplitOnSavedRoles` assume unique role names. With two roles of the same name, the later one's entry replaces the earlier one at seeding, and the runner's contracts cover that case through `Seed` and `SnapshotAfter`.
- `Transform.ApplyPermissionsMap` requires the role to be in the snapshot. In the source a missing entry would panic on the write, and the seeding loop always creates it.
- Go's map iteration order is not modelled. The result of `applyPermissionsMap` is specified as a duplicate-free list of the granted permissions. The inner range loop over the moderated permissions is specified through a ghost visiting order (`orders`) that covers each moderated permission once.
- `SchemesIterator` is modelled as its sequence of batches. The k-th call returns the k-th batch, and an empty batch once the batches run out. Its page size of 100 and its read errors are not modelled.
- The contents of `model.ModeratedPermissions`, the role IDs (`SYSTEM_ADMIN_ROLE_ID` and the others), the `MIGRATION_KEY_*` strings and `model.PERMISSION_DELETE_PRIVATE_CHANNEL.Id` are defined in the `model` package, which is not part of this model. They are parameters: `moderated`, `Catalog.ModelIds` and `Driver.MigrationKeys`.
- `Catalog.TeamUserRevokesAsRevokes` and `Catalog.RemoveChannelManageDeleteFromTeamUserEffect` assume that `model.PERMISSION_DELETE_PRIVATE_CHANNEL.Id` is `delete_private_channel`. `Catalog.RemoveChannelManageDeleteNeverGrants` needs no such assumption.
- The builders return no error in the source, so the error branch at line 345 cannot be reached and is not modelled.
- Concurrent runs of the check-then-mark gate by several processes are not modelled, since the model is sequential.
