/** The permission names the migrations use and the nine migrations whose
    rule lists are fixed, with what each one does to a role's grants. */
module Catalog {
  import opened Predicates
  import opened Transform
  import opened RuleForms
  import opened Migration

  const ManageSystem: Perm := "manage_system"
  const ManageEmojis: Perm := "manage_emojis"
  const ManageOthersEmojis: Perm := "manage_others_emojis"
  const CreateEmojis: Perm := "create_emojis"
  const DeleteEmojis: Perm := "delete_emojis"
  const DeleteOthersEmojis: Perm := "delete_others_emojis"
  const ManageWebhooks: Perm := "manage_webhooks"
  const ManageOthersWebhooks: Perm := "manage_others_webhooks"
  const ManageIncomingWebhooks: Perm := "manage_incoming_webhooks"
  const ManageOthersIncomingWebhooks: Perm := "manage_others_incoming_webhooks"
  const ManageOutgoingWebhooks: Perm := "manage_outgoing_webhooks"
  const ManageOthersOutgoingWebhooks: Perm := "manage_others_outgoing_webhooks"
  const ListPublicTeams: Perm := "list_public_teams"
  const ListPrivateTeams: Perm := "list_private_teams"
  const JoinPublicTeams: Perm := "join_public_teams"
  const JoinPrivateTeams: Perm := "join_private_teams"
  const PermanentDeleteUser: Perm := "permanent_delete_user"
  const CreateBot: Perm := "create_bot"
  const ReadBots: Perm := "read_bots"
  const ReadOthersBots: Perm := "read_others_bots"
  const ManageBots: Perm := "manage_bots"
  const ManageOthersBots: Perm := "manage_others_bots"
  const DeletePublicChannel: Perm := "delete_public_channel"
  const DeletePrivateChannel: Perm := "delete_private_channel"
  const ManagePublicChannelProperties: Perm := "manage_public_channel_properties"
  const ManagePrivateChannelProperties: Perm := "manage_private_channel_properties"
  const ViewMembers: Perm := "view_members"
  const InviteUser: Perm := "invite_user"
  const InviteGuest: Perm := "invite_guest"
  const PromoteGuest: Perm := "promote_guest"
  const DemoteToGuest: Perm := "demote_to_guest"
  const UseChannelMentions: Perm := "use_channel_mentions"
  const CreatePost: Perm := "create_post"
  const CreatePostPublic: Perm := "create_post_public"

  /** Identifiers the migrations take from the `model` package, whose values
      are defined elsewhere. `deletePrivateChannelId` is the permission id
      one revoke of the team-user migration removes. */
  datatype ModelIds = ModelIds(
    systemAdmin: RoleName,
    systemUser: RoleName,
    teamUser: RoleName,
    channelUser: RoleName,
    channelAdmin: RoleName,
    deletePrivateChannelId: Perm)

  // ---------------------------------------------------------------------
  // The fixed rule lists

  function EmojisPermissionsSplitMigration(): seq<Rule> {
    [ Rule(PermissionExists(ManageEmojis), [CreateEmojis, DeleteEmojis], [ManageEmojis]),
      Rule(PermissionExists(ManageOthersEmojis), [DeleteOthersEmojis], [ManageOthersEmojis]) ]
  }

  function WebhooksPermissionsSplitMigration(): seq<Rule> {
    [ Rule(PermissionExists(ManageWebhooks), [ManageIncomingWebhooks, ManageOutgoingWebhooks], [ManageWebhooks]),
      Rule(PermissionExists(ManageOthersWebhooks), [ManageOthersIncomingWebhooks, ManageOthersOutgoingWebhooks],
           [ManageOthersWebhooks]) ]
  }

  function ListJoinPublicPrivateTeamsPermissionsMigration(ids: ModelIds): seq<Rule> {
    [ Rule(IsRole(ids.systemAdmin), [ListPrivateTeams, JoinPrivateTeams], []),
      Rule(IsRole(ids.systemUser), [ListPublicTeams, JoinPublicTeams], []) ]
  }

  function RemovePermanentDeleteUserMigration(): seq<Rule> {
    [ Rule(PermissionExists(PermanentDeleteUser), [], [PermanentDeleteUser]) ]
  }

  function AddBotPermissionsMigration(ids: ModelIds): seq<Rule> {
    [ Rule(IsRole(ids.systemAdmin), [CreateBot, ReadBots, ReadOthersBots, ManageBots, ManageOthersBots], []) ]
  }

  function ApplyChannelManageDeleteToChannelUser(ids: ModelIds): seq<Rule> {
    [ Rule(PermissionAnd([IsRole(ids.channelUser), OnOtherRole(ids.teamUser, PermissionExists(ManagePrivateChannelProperties))]),
           [ManagePrivateChannelProperties], []),
      Rule(PermissionAnd([IsRole(ids.channelUser), OnOtherRole(ids.teamUser, PermissionExists(DeletePrivateChannel))]),
           [DeletePrivateChannel], []),
      Rule(PermissionAnd([IsRole(ids.channelUser), OnOtherRole(ids.teamUser, PermissionExists(ManagePublicChannelProperties))]),
           [ManagePublicChannelProperties], []),
      Rule(PermissionAnd([IsRole(ids.channelUser), OnOtherRole(ids.teamUser, PermissionExists(DeletePublicChannel))]),
           [DeletePublicChannel], []) ]
  }

  function RemoveChannelManageDeleteFromTeamUser(ids: ModelIds): seq<Rule> {
    [ Rule(PermissionAnd([IsRole(ids.teamUser), PermissionExists(ManagePrivateChannelProperties)]),
           [], [ManagePrivateChannelProperties]),
      Rule(PermissionAnd([IsRole(ids.teamUser), PermissionExists(DeletePrivateChannel)]),
           [], [ids.deletePrivateChannelId]),
      Rule(PermissionAnd([IsRole(ids.teamUser), PermissionExists(ManagePublicChannelProperties)]),
           [], [ManagePublicChannelProperties]),
      Rule(PermissionAnd([IsRole(ids.teamUser), PermissionExists(DeletePublicChannel)]),
           [], [DeletePublicChannel]) ]
  }

  function ViewMembersPermissionMigration(ids: ModelIds): seq<Rule> {
    [ Rule(IsRole(ids.systemUser), [ViewMembers], []),
      Rule(IsRole(ids.systemAdmin), [ViewMembers], []) ]
  }

  function AddManageGuestsPermissionsMigration(ids: ModelIds): seq<Rule> {
    [ Rule(IsRole(ids.systemAdmin), [PromoteGuest, DemoteToGuest, InviteGuest], []) ]
  }

  // ---------------------------------------------------------------------
  // The permission splits

  /** The emoji split as a reference: `manage_emojis` becomes
      `create_emojis` and `delete_emojis`, `manage_others_emojis` becomes
      `delete_others_emojis`, and nothing else changes. */
  function EmojisSplit(granted: set<Perm>): set<Perm> {
    (granted - {ManageEmojis, ManageOthersEmojis})
    + (if ManageEmojis in granted then {CreateEmojis, DeleteEmojis} else {})
    + (if ManageOthersEmojis in granted then {DeleteOthersEmojis} else {})
  }

  lemma EmojisSplitEffect(role: RoleName, snap: Snapshot)
    requires role in snap
    ensures TrueKeys(ApplyRules(role, snap, EmojisPermissionsSplitMigration())[role]) == EmojisSplit(TrueKeys(snap[role]))
  {
    TwoSplits(role, snap, ManageEmojis, [CreateEmojis, DeleteEmojis], ManageOthersEmojis, [DeleteOthersEmojis]);
    assert Elems([CreateEmojis, DeleteEmojis]) == {CreateEmojis, DeleteEmojis};
    assert Elems([DeleteOthersEmojis]) == {DeleteOthersEmojis};
  }

  /** A role holding `manage_emojis` ends with `create_emojis` and
      `delete_emojis` and without `manage_emojis`. */
  lemma EmojisSplitOfManager(role: RoleName, snap: Snapshot)
    requires role in snap && Granted(snap, role, ManageEmojis)
    ensures var after := TrueKeys(ApplyRules(role, snap, EmojisPermissionsSplitMigration())[role]);
            CreateEmojis in after && DeleteEmojis in after && ManageEmojis !in after
  {
    EmojisSplitEffect(role, snap);
  }

  /** Every role the emoji migration saves holds the split of the
      permissions it was loaded with. */
  lemma EmojisSplitOnSavedRoles(before: seq<Role>, after: seq<Role>)
    requires UniqueNames(before)
    requires Migrated(before, EmojisPermissionsSplitMigration(), after, |before|)
    ensures forall j :: 0 <= j < |before| ==> Elems(after[j].permissions) == EmojisSplit(Elems(before[j].permissions))
  {
    var rules := EmojisPermissionsSplitMigration();
    forall j | 0 <= j < |before|
      ensures Elems(after[j].permissions) == EmojisSplit(Elems(before[j].permissions))
    {
      assert RoleMigrated(before, rules, after, j);
      OwnEntryAtTurn(before, rules, j);
      EmojisSplitEffect(before[j].name, SnapshotAfter(before, rules, j));
    }
  }

  function WebhooksSplit(granted: set<Perm>): set<Perm> {
    (granted - {ManageWebhooks, ManageOthersWebhooks})
    + (if ManageWebhooks in granted then {ManageIncomingWebhooks, ManageOutgoingWebhooks} else {})
    + (if ManageOthersWebhooks in granted then {ManageOthersIncomingWebhooks, ManageOthersOutgoingWebhooks} else {})
  }

  lemma WebhooksSplitEffect(role: RoleName, snap: Snapshot)
    requires role in snap
    ensures TrueKeys(ApplyRules(role, snap, WebhooksPermissionsSplitMigration())[role]) == WebhooksSplit(TrueKeys(snap[role]))
  {
    TwoSplits(role, snap, ManageWebhooks, [ManageIncomingWebhooks, ManageOutgoingWebhooks],
              ManageOthersWebhooks, [ManageOthersIncomingWebhooks, ManageOthersOutgoingWebhooks]);
    assert Elems([ManageIncomingWebhooks, ManageOutgoingWebhooks]) == {ManageIncomingWebhooks, ManageOutgoingWebhooks};
    assert Elems([ManageOthersIncomingWebhooks, ManageOthersOutgoingWebhooks])
        == {ManageOthersIncomingWebhooks, ManageOthersOutgoingWebhooks};
  }

  /** `permanent_delete_user` is taken from every role and nothing else changes. */
  lemma RemovePermanentDeleteUserEffect(role: RoleName, snap: Snapshot)
    requires role in snap
    ensures TrueKeys(ApplyRules(role, snap, RemovePermanentDeleteUserMigration())[role]) == TrueKeys(snap[role]) - {PermanentDeleteUser}
  {
    ApplyRulesSingle(role, snap, SplitRule(PermanentDeleteUser, []));
    SplitRuleGrants(role, snap, PermanentDeleteUser, []);
    assert Elems<Perm>([]) == {};
  }

  // ---------------------------------------------------------------------
  // Grants to system roles

  /** The system admin gains listing and joining private teams, the system
      user listing and joining public teams; other roles are unchanged. */
  lemma ListJoinTeamsEffect(role: RoleName, snap: Snapshot, ids: ModelIds)
    requires role in snap
    ensures TrueKeys(ApplyRules(role, snap, ListJoinPublicPrivateTeamsPermissionsMigration(ids))[role])
            == TrueKeys(snap[role])
               + (if role == ids.systemAdmin then Elems([ListPrivateTeams, JoinPrivateTeams]) else {})
               + (if role == ids.systemUser then Elems([ListPublicTeams, JoinPublicTeams]) else {})
  {
    var rules := ListJoinPublicPrivateTeamsPermissionsMigration(ids);
    assert rules == [rules[0], rules[1]];
    RoleGrantsPair(role, snap, rules[0], rules[1]);
  }

  /** The system admin gains the five bot permissions; other roles are unchanged. */
  lemma AddBotPermissionsEffect(role: RoleName, snap: Snapshot, ids: ModelIds)
    requires role in snap
    ensures TrueKeys(ApplyRules(role, snap, AddBotPermissionsMigration(ids))[role])
            == TrueKeys(snap[role])
               + (if role == ids.systemAdmin then Elems([CreateBot, ReadBots, ReadOthersBots, ManageBots, ManageOthersBots]) else {})
  {
    var rules := AddBotPermissionsMigration(ids);
    assert rules == [rules[0]];
    RoleGrantsSingle(role, snap, rules[0]);
  }

  /** Both the system user and the system admin gain `view_members`. */
  lemma ViewMembersEffect(role: RoleName, snap: Snapshot, ids: ModelIds)
    requires role in snap
    ensures TrueKeys(ApplyRules(role, snap, ViewMembersPermissionMigration(ids))[role])
            == TrueKeys(snap[role]) + (if role == ids.systemUser || role == ids.systemAdmin then Elems([ViewMembers]) else {})
  {
    var rules := ViewMembersPermissionMigration(ids);
    assert rules == [rules[0], rules[1]];
    RoleGrantsPair(role, snap, rules[0], rules[1]);
  }

  /** The system admin gains promoting, demoting and inviting guests. */
  lemma AddManageGuestsEffect(role: RoleName, snap: Snapshot, ids: ModelIds)
    requires role in snap
    ensures TrueKeys(ApplyRules(role, snap, AddManageGuestsPermissionsMigration(ids))[role])
            == TrueKeys(snap[role]) + (if role == ids.systemAdmin then Elems([PromoteGuest, DemoteToGuest, InviteGuest]) else {})
  {
    var rules := AddManageGuestsPermissionsMigration(ids);
    assert rules == [rules[0]];
    RoleGrantsSingle(role, snap, rules[0]);
  }

  // ---------------------------------------------------------------------
  // Channel management and deletion

  const ChannelManageDelete: seq<Perm> :=
    [ManagePrivateChannelProperties, DeletePrivateChannel, ManagePublicChannelProperties, DeletePublicChannel]

  lemma ChannelManageDeleteAsCopies(ids: ModelIds)
    ensures ApplyChannelManageDeleteToChannelUser(ids) == CopyRules(ids.channelUser, ids.teamUser, ChannelManageDelete)
  {
    var c := ChannelManageDelete;
    var t, o := ids.channelUser, ids.teamUser;
    assert [c[0]][..0] == [];
    assert CopyRules(t, o, [c[0]]) == [CopyRule(t, o, c[0])];
    assert [c[0], c[1]][..1] == [c[0]];
    assert CopyRules(t, o, [c[0], c[1]]) == [CopyRule(t, o, c[0]), CopyRule(t, o, c[1])];
    assert [c[0], c[1], c[2]][..2] == [c[0], c[1]];
    assert CopyRules(t, o, [c[0], c[1], c[2]]) == [CopyRule(t, o, c[0]), CopyRule(t, o, c[1]), CopyRule(t, o, c[2])];
    assert c[..3] == [c[0], c[1], c[2]];
  }

  /** The channel user gains each channel manage or delete permission that
      the team user holds; every other subject is unchanged. */
  lemma ChannelManageDeleteToChannelUserEffect(role: RoleName, snap: Snapshot, ids: ModelIds)
    requires role in snap
    ensures role != ids.channelUser ==> ApplyRules(role, snap, ApplyChannelManageDeleteToChannelUser(ids)) == snap
    ensures role == ids.channelUser ==>
              TrueKeys(ApplyRules(role, snap, ApplyChannelManageDeleteToChannelUser(ids))[role])
              == TrueKeys(snap[role]) + (Elems(ChannelManageDelete) * GrantsOf(snap, ids.teamUser))
  {
    ChannelManageDeleteAsCopies(ids);
    if role == ids.channelUser {
      CopyRulesEffect(role, snap, ids.channelUser, ids.teamUser, ChannelManageDelete);
    } else if role != ids.channelUser {
      CopyRulesSkipOthers(role, snap, ids.channelUser, ids.teamUser, ChannelManageDelete);
    }
  }

  lemma TeamUserRevokesAsRevokes(ids: ModelIds)
    requires ids.deletePrivateChannelId == DeletePrivateChannel
    ensures RemoveChannelManageDeleteFromTeamUser(ids) == RevokeRules(ids.teamUser, ChannelManageDelete)
  {
    var c := ChannelManageDelete;
    var t := ids.teamUser;
    assert [c[0]][..0] == [];
    assert RevokeRules(t, [c[0]]) == [RevokeRule(t, c[0], c[0])];
    assert [c[0], c[1]][..1] == [c[0]];
    assert RevokeRules(t, [c[0], c[1]]) == [RevokeRule(t, c[0], c[0]), RevokeRule(t, c[1], c[1])];
    assert [c[0], c[1], c[2]][..2] == [c[0], c[1]];
    assert RevokeRules(t, [c[0], c[1], c[2]]) == [RevokeRule(t, c[0], c[0]), RevokeRule(t, c[1], c[1]), RevokeRule(t, c[2], c[2])];
    assert c[..3] == [c[0], c[1], c[2]];
  }

  /** When the model's delete-private-channel id is `delete_private_channel`,
      the team user loses all four channel manage and delete permissions and
      every other subject is unchanged. */
  lemma RemoveChannelManageDeleteFromTeamUserEffect(role: RoleName, snap: Snapshot, ids: ModelIds)
    requires role in snap && ids.deletePrivateChannelId == DeletePrivateChannel
    ensures role != ids.teamUser ==> ApplyRules(role, snap, RemoveChannelManageDeleteFromTeamUser(ids)) == snap
    ensures role == ids.teamUser ==>
              TrueKeys(ApplyRules(role, snap, RemoveChannelManageDeleteFromTeamUser(ids))[role])
              == TrueKeys(snap[role]) - Elems(ChannelManageDelete)
  {
    TeamUserRevokesAsRevokes(ids);
    RevokeRulesEffect(role, snap, ids.teamUser, ChannelManageDelete);
  }

  /** Whatever that id is, the team-user migration never grants anything. */
  lemma RemoveChannelManageDeleteNeverGrants(role: RoleName, snap: Snapshot, ids: ModelIds)
    requires role in snap
    ensures TrueKeys(ApplyRules(role, snap, RemoveChannelManageDeleteFromTeamUser(ids))[role]) <= TrueKeys(snap[role])
  {
    var rules := RemoveChannelManageDeleteFromTeamUser(ids);
    forall k | 0 <= k < |rules| ensures rules[k].add == [] {
      if k == 0 { } else if k == 1 { } else if k == 2 { } else { assert k == 3; }
    }
    RemoveOnlyShrinks(role, snap, rules);
  }
}
