/** The channel-moderation migration: its rule list is expanded from the
    team schemes found at run time and from the set of moderated
    permissions. */
module Moderation {
  import opened Predicates
  import opened Transform
  import opened RuleForms
  import opened Catalog

  /** The two role names of a team scheme the migration reads. */
  datatype Scheme = Scheme(defaultChannelAdminRole: RoleName, defaultChannelUserRole: RoleName)

  /** A role that receives copies of the moderated permissions that the
      other role holds. */
  datatype RolePair = RolePair(targetRole: RoleName, otherRole: RoleName)

  // ---------------------------------------------------------------------
  // Collecting the team schemes

  /** The `k`-th call of the scheme iterator: the `k`-th batch, and an empty
      batch once the batches are exhausted. */
  function Next(batches: seq<seq<Scheme>>, k: nat): seq<Scheme> {
    if k < |batches| then batches[k] else []
  }

  /** The position of the first empty batch, or the number of batches. */
  function FirstEmpty(batches: seq<seq<Scheme>>): (n: nat)
    ensures n <= |batches|
    ensures forall k :: 0 <= k < n ==> batches[k] != []
    ensures n < |batches| ==> batches[n] == []
    decreases |batches|
  {
    if batches == [] || batches[0] == [] then 0
    else
      var n := 1 + FirstEmpty(batches[1..]);
      assert forall k :: 1 <= k < n ==> batches[k] == batches[1..][k - 1];
      n
  }

  function Flatten(batches: seq<seq<Scheme>>): seq<Scheme>
    decreases |batches|
  {
    if batches == [] then [] else Flatten(batches[..|batches| - 1]) + batches[|batches| - 1]
  }

  /** Every team scheme, in iterator order: the batches before the first
      empty one, joined. */
  function TeamSchemes(batches: seq<seq<Scheme>>): seq<Scheme> {
    Flatten(batches[..FirstEmpty(batches)])
  }

  /** The iterator loop: batches are appended until a call returns an
      empty batch. */
  method CollectTeamSchemes(batches: seq<seq<Scheme>>) returns (allTeamSchemes: seq<Scheme>)
    ensures allTeamSchemes == TeamSchemes(batches)
  {
    allTeamSchemes := [];
    var k := 0;
    var schemeBatch := Next(batches, k);
    assert batches[..0] == [];
    while |schemeBatch| > 0
      invariant k <= FirstEmpty(batches)
      invariant schemeBatch == Next(batches, k)
      invariant allTeamSchemes == Flatten(batches[..k])
      decreases |batches| - k
    {
      assert batches[..k + 1][..k] == batches[..k];
      allTeamSchemes := allTeamSchemes + schemeBatch;
      k := k + 1;
      schemeBatch := Next(batches, k);
    }
  }

  /** Each scheme collected comes from a batch before the first empty one. */
  lemma {:induction false} FlattenFrom(batches: seq<seq<Scheme>>, i: nat)
    requires i < |Flatten(batches)|
    ensures exists k, j :: 0 <= k < |batches| && 0 <= j < |batches[k]| && Flatten(batches)[i] == batches[k][j]
    decreases |batches|
  {
    var front := batches[..|batches| - 1];
    var last := batches[|batches| - 1];
    if i < |Flatten(front)| {
      FlattenFrom(front, i);
      var k, j :| 0 <= k < |front| && 0 <= j < |front[k]| && Flatten(front)[i] == front[k][j];
      assert batches[k] == front[k];
    } else {
      assert Flatten(batches)[i] == last[i - |Flatten(front)|];
    }
  }

  // ---------------------------------------------------------------------
  // Role pairs

  /** The built-in channel admin and channel user first, then each team
      scheme's pair in order. */
  function RolePairs(ids: ModelIds, schemes: seq<Scheme>): (pairs: seq<RolePair>)
    ensures |pairs| == |schemes| + 1
    ensures pairs[0] == RolePair(ids.channelAdmin, ids.channelUser)
    ensures forall k :: 0 <= k < |schemes| ==>
              pairs[k + 1] == RolePair(schemes[k].defaultChannelAdminRole, schemes[k].defaultChannelUserRole)
    decreases |schemes|
  {
    if schemes == [] then [RolePair(ids.channelAdmin, ids.channelUser)]
    else
      var front := schemes[..|schemes| - 1];
      var last := schemes[|schemes| - 1];
      assert forall k :: 0 <= k < |front| ==> front[k] == schemes[k];
      RolePairs(ids, front) + [RolePair(last.defaultChannelAdminRole, last.defaultChannelUserRole)]
  }

  method CollectRolePairs(ids: ModelIds, allTeamSchemes: seq<Scheme>) returns (rolePairs: seq<RolePair>)
    ensures rolePairs == RolePairs(ids, allTeamSchemes)
  {
    rolePairs := [RolePair(ids.channelAdmin, ids.channelUser)];
    var i := 0;
    while i < |allTeamSchemes|
      invariant 0 <= i <= |allTeamSchemes|
      invariant rolePairs == RolePairs(ids, allTeamSchemes[..i])
    {
      var ts := allTeamSchemes[i];
      assert allTeamSchemes[..i + 1][..i] == allTeamSchemes[..i];
      rolePairs := rolePairs + [RolePair(ts.defaultChannelAdminRole, ts.defaultChannelUserRole)];
      i := i + 1;
    }
    assert allTeamSchemes[..i] == allTeamSchemes;
  }

  // ---------------------------------------------------------------------
  // The rules

  /** One turn of the range loop keeps the visited and the remaining
      permissions a partition of the moderated ones. */
  lemma VisitStep(order: seq<Perm>, remaining: set<Perm>, moderated: set<Perm>, perm: Perm)
    requires Elems(order) + remaining == moderated && Elems(order) !! remaining
    requires NoDuplicates(order) && perm in remaining
    ensures Elems(order + [perm]) + (remaining - {perm}) == moderated
    ensures Elems(order + [perm]) !! (remaining - {perm})
    ensures NoDuplicates(order + [perm]) && (order + [perm])[..|order|] == order
  {
    AppendFresh(order, perm);
  }

  /** `order` lists each permission of `perms` exactly once, as a map range
      does. */
  predicate Enumerates(order: seq<Perm>, perms: set<Perm>) {
    NoDuplicates(order) && Elems(order) == perms
  }

  /** One copy rule per pair and moderated permission, pair by pair, each
      pair's permissions in the order its range loop visited them. */
  function ModerationRules(pairs: seq<RolePair>, orders: seq<seq<Perm>>): (rules: seq<Rule>)
    requires |orders| == |pairs|
    ensures AddOnly(rules)
    decreases |pairs|
  {
    if pairs == [] then []
    else
      var n := |pairs| - 1;
      var front := ModerationRules(pairs[..n], orders[..n]);
      var copies := CopyRules(pairs[n].targetRole, pairs[n].otherRole, orders[n]);
      AddOnlyConcat(front, copies);
      front + copies
  }

  /** The closing rule: a role that may post gets `use_channel_mentions`. */
  function MentionsRule(): Rule {
    Rule(PermissionOr([PermissionExists(CreatePost), PermissionExists(CreatePostPublic)]), [UseChannelMentions], [])
  }

  /** The inner range loop for one pair: the moderated permissions are
      visited in some order and each yields a copy rule. */
  method PairRules(rolePair: RolePair, moderated: set<Perm>) returns (rules: seq<Rule>, ghost order: seq<Perm>)
    ensures Enumerates(order, moderated)
    ensures rules == CopyRules(rolePair.targetRole, rolePair.otherRole, order)
  {
    rules, order := [], [];
    var remaining := moderated;
    while remaining != {}
      invariant Elems(order) + remaining == moderated && Elems(order) !! remaining
      invariant NoDuplicates(order)
      invariant rules == CopyRules(rolePair.targetRole, rolePair.otherRole, order)
      decreases |remaining|
    {
      var perm :| perm in remaining;
      VisitStep(order, remaining, moderated, perm);
      rules := rules + [CopyRule(rolePair.targetRole, rolePair.otherRole, perm)];
      order := order + [perm];
      remaining := remaining - {perm};
    }
  }

  lemma {:induction false} DistinctLength(s: seq<Perm>)
    requires NoDuplicates(s)
    ensures |Elems(s)| == |s|
    decreases |s|
  {
    if s != [] {
      var front := s[..|s| - 1];
      assert NoDuplicates(front);
      DistinctLength(front);
      assert Elems(s) == Elems(front) + {s[|s| - 1]};
      assert s[|s| - 1] !in Elems(front);
    }
  }

  lemma ModerationRulesLength(pairs: seq<RolePair>, orders: seq<seq<Perm>>)
    requires |orders| == |pairs| && pairs != []
    ensures |ModerationRules(pairs, orders)|
            == |ModerationRules(pairs[..|pairs| - 1], orders[..|pairs| - 1])| + |orders[|pairs| - 1]|
  {
  }

  lemma ProductStep(n: nat, m: nat)
    ensures n * m + m == (n + 1) * m
  {
  }

  lemma {:induction false} RulesPerPair(pairs: seq<RolePair>, orders: seq<seq<Perm>>, m: nat)
    requires |orders| == |pairs|
    requires forall k :: 0 <= k < |orders| ==> |orders[k]| == m
    ensures |ModerationRules(pairs, orders)| == |pairs| * m
    decreases |pairs|
  {
    if pairs != [] {
      var n := |pairs| - 1;
      assert forall k :: 0 <= k < n ==> orders[..n][k] == orders[k];
      RulesPerPair(pairs[..n], orders[..n], m);
      ModerationRulesLength(pairs, orders);
      ProductStep(n, m);
    }
  }

  /** Each pair contributes one rule per moderated permission. */
  lemma ModerationRulesCount(pairs: seq<RolePair>, orders: seq<seq<Perm>>, moderated: set<Perm>)
    requires |orders| == |pairs|
    requires forall k :: 0 <= k < |orders| ==> Enumerates(orders[k], moderated)
    ensures |ModerationRules(pairs, orders)| == |pairs| * |moderated|
  {
    forall k | 0 <= k < |orders|
      ensures |orders[k]| == |moderated|
    {
      DistinctLength(orders[k]);
    }
    RulesPerPair(pairs, orders, |moderated|);
  }

  /** The source's `channelModerationPermissionsMigration`. `orders` records
      the order each pair's range loop visited the moderated permissions. */
  method ChannelModerationPermissionsMigration(ids: ModelIds, batches: seq<seq<Scheme>>, moderated: set<Perm>)
    returns (transformations: seq<Rule>, ghost orders: seq<seq<Perm>>)
    ensures |orders| == |TeamSchemes(batches)| + 1
    ensures forall k :: 0 <= k < |orders| ==> Enumerates(orders[k], moderated)
    ensures transformations == ModerationRules(RolePairs(ids, TeamSchemes(batches)), orders) + [MentionsRule()]
    ensures |transformations| == (|TeamSchemes(batches)| + 1) * |moderated| + 1
  {
    var allTeamSchemes := CollectTeamSchemes(batches);
    var rolePairs := CollectRolePairs(ids, allTeamSchemes);
    transformations, orders := [], [];
    var i := 0;
    while i < |rolePairs|
      invariant 0 <= i <= |rolePairs|
      invariant |orders| == i
      invariant forall k :: 0 <= k < i ==> Enumerates(orders[k], moderated)
      invariant transformations == ModerationRules(rolePairs[..i], orders)
    {
      var rules, order := PairRules(rolePairs[i], moderated);
      assert rolePairs[..i + 1][..i] == rolePairs[..i];
      assert (orders + [order])[..i] == orders;
      transformations := transformations + rules;
      orders := orders + [order];
      i := i + 1;
    }
    assert rolePairs[..i] == rolePairs;
    ModerationRulesCount(rolePairs, orders, moderated);
    transformations := transformations + [MentionsRule()];
  }

  // ---------------------------------------------------------------------
  // What the rules do

  /** The moderation rules never revoke: every role keeps what it had. */
  lemma ModerationOnlyGrants(role: RoleName, snap: Snapshot, pairs: seq<RolePair>, orders: seq<seq<Perm>>)
    requires role in snap && |orders| == |pairs|
    ensures TrueKeys(snap[role]) <= TrueKeys(ApplyRules(role, snap, ModerationRules(pairs, orders) + [MentionsRule()])[role])
  {
    assert AddOnly([MentionsRule()]);
    AddOnlyConcat(ModerationRules(pairs, orders), [MentionsRule()]);
    AddOnlyGrows(role, snap, ModerationRules(pairs, orders) + [MentionsRule()]);
  }

  /** The copy rules add only permissions of the pairs' orders. */
  lemma {:induction false} ModerationRulesAddWithin(pairs: seq<RolePair>, orders: seq<seq<Perm>>, moderated: set<Perm>)
    requires |orders| == |pairs|
    requires forall k :: 0 <= k < |orders| ==> Elems(orders[k]) <= moderated
    ensures AddsWithin(ModerationRules(pairs, orders), moderated)
    decreases |pairs|
  {
    if pairs != [] {
      var n := |pairs| - 1;
      assert forall k :: 0 <= k < n ==> orders[..n][k] == orders[k];
      ModerationRulesAddWithin(pairs[..n], orders[..n], moderated);
      CopyRulesAddWithin(pairs[n].targetRole, pairs[n].otherRole, orders[n], moderated);
      AddsWithinConcat(ModerationRules(pairs[..n], orders[..n]),
                       CopyRules(pairs[n].targetRole, pairs[n].otherRole, orders[n]), moderated);
    }
  }

  /** Whatever role it is, the migration grants nothing beyond the role's
      old grants, the moderated permissions and `use_channel_mentions`. */
  lemma ModerationGainsBounded(role: RoleName, snap: Snapshot, pairs: seq<RolePair>, orders: seq<seq<Perm>>,
                               moderated: set<Perm>)
    requires role in snap && |orders| == |pairs|
    requires forall k :: 0 <= k < |orders| ==> Elems(orders[k]) <= moderated
    ensures TrueKeys(ApplyRules(role, snap, ModerationRules(pairs, orders) + [MentionsRule()])[role])
            <= TrueKeys(snap[role]) + moderated + {UseChannelMentions}
  {
    ModerationRulesAddWithin(pairs, orders, moderated);
    AddsWithinBound(role, snap, ModerationRules(pairs, orders), moderated);
    MentionsRuleEffect(role, snap, ModerationRules(pairs, orders));
  }

  /** Applying the closing rule last: a role that may post, publicly or
      not, gains `use_channel_mentions`, and otherwise nothing changes. */
  lemma MentionsRuleEffect(role: RoleName, snap: Snapshot, rules: seq<Rule>)
    requires role in snap
    ensures var mid := ApplyRules(role, snap, rules);
            var posts := Granted(mid, role, CreatePost) || Granted(mid, role, CreatePostPublic);
            TrueKeys(ApplyRules(role, snap, rules + [MentionsRule()])[role])
            == TrueKeys(mid[role]) + (if posts then {UseChannelMentions} else {})
  {
    var mid := ApplyRules(role, snap, rules);
    assert (rules + [MentionsRule()])[..|rules|] == rules;
    var fs := [PermissionExists(CreatePost), PermissionExists(CreatePostPublic)];
    PermissionOrIff(fs, role, mid);
    assert Eval(fs[0], role, mid) == Granted(mid, role, CreatePost);
    assert Eval(fs[1], role, mid) == Granted(mid, role, CreatePostPublic);
    TrueKeysSetAll(mid[role], [UseChannelMentions], true);
    TrueKeysSetAll(SetAll(mid[role], [UseChannelMentions], true), [], false);
    assert Elems([UseChannelMentions]) == {UseChannelMentions};
  }

  /** A role that may post before the migration ends with
      `use_channel_mentions`. */
  lemma MentionsFollowPosting(role: RoleName, snap: Snapshot, pairs: seq<RolePair>, orders: seq<seq<Perm>>)
    requires role in snap && |orders| == |pairs|
    requires Granted(snap, role, CreatePost) || Granted(snap, role, CreatePostPublic)
    ensures UseChannelMentions in TrueKeys(ApplyRules(role, snap, ModerationRules(pairs, orders) + [MentionsRule()])[role])
  {
    var rules := ModerationRules(pairs, orders);
    var mid := ApplyRules(role, snap, rules);
    AddOnlyGrows(role, snap, rules);
    assert Granted(mid, role, CreatePost) || Granted(mid, role, CreatePostPublic) by {
      if Granted(snap, role, CreatePost) {
        assert CreatePost in TrueKeys(snap[role]);
      } else {
        assert CreatePostPublic in TrueKeys(snap[role]);
      }
    }
    MentionsRuleEffect(role, snap, rules);
  }

  /** Within the pair rules alone: the target of pair `k` gains each
      permission of that pair's order that the pair's other role holds. */
  lemma {:induction false} CopiedByPairRules(role: RoleName, snap: Snapshot, pairs: seq<RolePair>, orders: seq<seq<Perm>>,
                                             k: nat, p: Perm)
    requires role in snap && |orders| == |pairs| && k < |pairs|
    requires role == pairs[k].targetRole
    requires p in orders[k] && Granted(snap, pairs[k].otherRole, p)
    ensures p in TrueKeys(ApplyRules(role, snap, ModerationRules(pairs, orders))[role])
    decreases |pairs|
  {
    var n := |pairs| - 1;
    var front := ModerationRules(pairs[..n], orders[..n]);
    var copies := CopyRules(pairs[n].targetRole, pairs[n].otherRole, orders[n]);
    ApplyRulesAppend(role, snap, front, copies);
    var mid := ApplyRules(role, snap, front);
    if k == n {
      if role == pairs[k].otherRole {
        // the role copies from itself, and the earlier pairs only added
        assert p in GrantsOf(snap, role);
        AddOnlyGrows(role, snap, front);
        assert p in GrantsOf(mid, role);
      } else {
        ApplyRulesFrame(role, snap, front);
      }
      assert Granted(mid, pairs[k].otherRole, p);
      CopyRulesEffect(role, mid, pairs[n].targetRole, pairs[n].otherRole, orders[n]);
    } else {
      CopiedByPairRules(role, snap, pairs[..n], orders[..n], k, p);
      AddOnlyGrows(role, mid, copies);
    }
  }

  /** The target role of any pair gains every moderated permission that
      the pair's other role holds. */
  lemma ModerationCopiesGrants(role: RoleName, snap: Snapshot, pairs: seq<RolePair>, orders: seq<seq<Perm>>,
                               moderated: set<Perm>, k: nat, p: Perm)
    requires role in snap && |orders| == |pairs| && k < |pairs|
    requires Enumerates(orders[k], moderated)
    requires role == pairs[k].targetRole
    requires p in moderated && Granted(snap, pairs[k].otherRole, p)
    ensures p in TrueKeys(ApplyRules(role, snap, ModerationRules(pairs, orders) + [MentionsRule()])[role])
  {
    assert p in Elems(orders[k]);
    CopiedByPairRules(role, snap, pairs, orders, k, p);
    MentionsRuleEffect(role, snap, ModerationRules(pairs, orders));
  }

  /** A role that is the target of no pair passes through the pair rules
      untouched. */
  lemma {:induction false} PairRulesSkipNonTargets(role: RoleName, snap: Snapshot, pairs: seq<RolePair>, orders: seq<seq<Perm>>)
    requires role in snap && |orders| == |pairs|
    requires forall k :: 0 <= k < |pairs| ==> pairs[k].targetRole != role
    ensures ApplyRules(role, snap, ModerationRules(pairs, orders)) == snap
    decreases |pairs|
  {
    if pairs != [] {
      var n := |pairs| - 1;
      var front := ModerationRules(pairs[..n], orders[..n]);
      var copies := CopyRules(pairs[n].targetRole, pairs[n].otherRole, orders[n]);
      ApplyRulesAppend(role, snap, front, copies);
      PairRulesSkipNonTargets(role, snap, pairs[..n], orders[..n]);
      CopyRulesSkipOthers(role, snap, pairs[n].targetRole, pairs[n].otherRole, orders[n]);
    }
  }

  /** A role that is the target of no pair gains `use_channel_mentions` if
      it may post, and nothing else. */
  lemma NonTargetGainsOnlyMentions(role: RoleName, snap: Snapshot, pairs: seq<RolePair>, orders: seq<seq<Perm>>)
    requires role in snap && |orders| == |pairs|
    requires forall k :: 0 <= k < |pairs| ==> pairs[k].targetRole != role
    ensures var posts := Granted(snap, role, CreatePost) || Granted(snap, role, CreatePostPublic);
            TrueKeys(ApplyRules(role, snap, ModerationRules(pairs, orders) + [MentionsRule()])[role])
            == TrueKeys(snap[role]) + (if posts then {UseChannelMentions} else {})
  {
    PairRulesSkipNonTargets(role, snap, pairs, orders);
    MentionsRuleEffect(role, snap, ModerationRules(pairs, orders));
  }
}
