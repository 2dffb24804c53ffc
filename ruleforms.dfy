/** The few shapes of rule the migration catalog is built from, and what a
    list of rules of each shape does to the subject's grants. */
module RuleForms {
  import opened Predicates
  import opened Transform

  /** What an entry grants after `perms` are all written as `v`. */
  lemma TrueKeysSetAll(entry: map<Perm, bool>, perms: seq<Perm>, v: bool)
    ensures TrueKeys(SetAll(entry, perms, v)) == if v then TrueKeys(entry) + Elems(perms) else TrueKeys(entry) - Elems(perms)
  {
  }

  /** The grants a snapshot gives one role. */
  function GrantsOf(snap: Snapshot, role: RoleName): (g: set<Perm>)
    ensures forall p :: p in g <==> Granted(snap, role, p)
  {
    if role in snap then TrueKeys(snap[role]) else {}
  }

  // ---------------------------------------------------------------------
  // Rules that never revoke

  predicate AddOnly(rules: seq<Rule>) {
    forall k :: 0 <= k < |rules| ==> rules[k].remove == []
  }

  /** Rules without removes can only grant: the subject keeps every grant. */
  lemma {:induction false} AddOnlyGrows(role: RoleName, snap: Snapshot, rules: seq<Rule>)
    requires role in snap && AddOnly(rules)
    ensures TrueKeys(snap[role]) <= TrueKeys(ApplyRules(role, snap, rules)[role])
    decreases |rules|
  {
    if rules != [] {
      var front := rules[..|rules| - 1];
      assert AddOnly(front) by {
        forall k | 0 <= k < |front| ensures front[k].remove == [] {
          assert front[k] == rules[k];
        }
      }
      AddOnlyGrows(role, snap, front);
      var mid := ApplyRules(role, snap, front);
      var rule := rules[|rules| - 1];
      assert rule.remove == [];
      TrueKeysSetAll(mid[role], rule.add, true);
      TrueKeysSetAll(SetAll(mid[role], rule.add, true), rule.remove, false);
    }
  }

  /** Every permission the rules add lies in `allowed`. */
  predicate AddsWithin(rules: seq<Rule>, allowed: set<Perm>) {
    forall k :: 0 <= k < |rules| ==> Elems(rules[k].add) <= allowed
  }

  /** Rules that add only permissions of `allowed` grant the subject nothing
      outside its old grants and `allowed`. */
  lemma {:induction false} AddsWithinBound(role: RoleName, snap: Snapshot, rules: seq<Rule>, allowed: set<Perm>)
    requires role in snap && AddsWithin(rules, allowed)
    ensures TrueKeys(ApplyRules(role, snap, rules)[role]) <= TrueKeys(snap[role]) + allowed
    decreases |rules|
  {
    if rules != [] {
      var front := rules[..|rules| - 1];
      assert AddsWithin(front, allowed) by {
        forall k | 0 <= k < |front| ensures Elems(front[k].add) <= allowed {
          assert front[k] == rules[k];
        }
      }
      AddsWithinBound(role, snap, front, allowed);
      var mid := ApplyRules(role, snap, front);
      var rule := rules[|rules| - 1];
      TrueKeysSetAll(mid[role], rule.add, true);
      TrueKeysSetAll(SetAll(mid[role], rule.add, true), rule.remove, false);
    }
  }

  lemma AddsWithinConcat(a: seq<Rule>, b: seq<Rule>, allowed: set<Perm>)
    requires AddsWithin(a, allowed) && AddsWithin(b, allowed)
    ensures AddsWithin(a + b, allowed)
  {
    forall k | 0 <= k < |a + b| ensures Elems((a + b)[k].add) <= allowed {
      if k < |a| {
        assert (a + b)[k] == a[k];
      } else {
        assert (a + b)[k] == b[k - |a|];
      }
    }
  }

  // ---------------------------------------------------------------------
  // Split rules: `{On: permissionExists(from), Add: to, Remove: [from]}`

  function SplitRule(from: Perm, to: seq<Perm>): Rule {
    Rule(PermissionExists(from), to, [from])
  }

  /** What a split does to a set of grants. */
  function SplitSet(granted: set<Perm>, from: Perm, to: set<Perm>): set<Perm> {
    if from in granted then (granted + to) - {from} else granted
  }

  /** The split rule `{exists x; add a, b; remove x}` turns a role holding
      just `x` into one holding exactly `a` and `b`. */
  lemma SingleRuleSplit(role: RoleName, snap: Snapshot, x: Perm, a: Perm, b: Perm)
    requires role in snap && snap[role] == map[x := true]
    requires x != a && x != b
    ensures TrueKeys(ApplyRules(role, snap, [Rule(PermissionExists(x), [a, b], [x])])[role]) == {a, b}
  {
    ApplyRulesSingle(role, snap, SplitRule(x, [a, b]));
    SplitRuleGrants(role, snap, x, [a, b]);
    assert TrueKeys(snap[role]) == {x};
    assert Elems([a, b]) == {a, b};
  }

  /** The same split rule leaves a role that lacks `x` untouched. */
  lemma SingleRuleSplitUnmatched(role: RoleName, snap: Snapshot, x: Perm, a: Perm, b: Perm)
    requires role in snap && !Granted(snap, role, x)
    ensures ApplyRules(role, snap, [Rule(PermissionExists(x), [a, b], [x])]) == snap
  {
    ApplyRulesSingle(role, snap, Rule(PermissionExists(x), [a, b], [x]));
  }

  /** A split replaces a held `from` by the permissions `to`; a role that
      does not hold `from` is left alone. */
  lemma SplitRuleGrants(role: RoleName, snap: Snapshot, from: Perm, to: seq<Perm>)
    requires role in snap
    ensures TrueKeys(ApplyRule(role, snap, SplitRule(from, to))[role]) == SplitSet(TrueKeys(snap[role]), from, Elems(to))
  {
    var entry := snap[role];
    if from in TrueKeys(entry) {
      TrueKeysSetAll(entry, to, true);
      TrueKeysSetAll(SetAll(entry, to, true), [from], false);
      assert Elems([from]) == {from};
    }
  }

  /** Two splits whose permissions are all distinct act independently. */
  lemma SplitTwice(granted: set<Perm>, f1: Perm, e1: set<Perm>, f2: Perm, e2: set<Perm>)
    requires f1 != f2 && f1 !in e1 && f1 !in e2 && f2 !in e1 && f2 !in e2
    ensures SplitSet(SplitSet(granted, f1, e1), f2, e2)
            == (granted - {f1, f2}) + (if f1 in granted then e1 else {}) + (if f2 in granted then e2 else {})
  {
  }

  /** Two independent splits in a row: each held old permission is replaced
      by its new ones and all other grants stay. */
  lemma TwoSplits(role: RoleName, snap: Snapshot, f1: Perm, t1: seq<Perm>, f2: Perm, t2: seq<Perm>)
    requires role in snap
    requires f1 != f2 && f1 !in t1 && f1 !in t2 && f2 !in t1 && f2 !in t2
    ensures TrueKeys(ApplyRules(role, snap, [SplitRule(f1, t1), SplitRule(f2, t2)])[role])
            == (TrueKeys(snap[role]) - {f1, f2})
               + (if f1 in TrueKeys(snap[role]) then Elems(t1) else {})
               + (if f2 in TrueKeys(snap[role]) then Elems(t2) else {})
  {
    ApplyRulesPair(role, snap, SplitRule(f1, t1), SplitRule(f2, t2));
    var mid := ApplyRule(role, snap, SplitRule(f1, t1));
    SplitRuleGrants(role, snap, f1, t1);
    SplitRuleGrants(role, mid, f2, t2);
    SplitTwice(TrueKeys(snap[role]), f1, Elems(t1), f2, Elems(t2));
  }

  // ---------------------------------------------------------------------
  // Role grants: `{On: isRole(target), Add: perms}`

  predicate IsRoleGrant(rule: Rule) {
    rule.on.IsRole? && rule.remove == []
  }

  /** A role grant adds its permissions to the named role only. */
  lemma RoleGrantRule(role: RoleName, snap: Snapshot, rule: Rule)
    requires role in snap && IsRoleGrant(rule)
    ensures TrueKeys(ApplyRule(role, snap, rule)[role])
            == TrueKeys(snap[role]) + (if rule.on.role == role then Elems(rule.add) else {})
  {
    TrueKeysSetAll(snap[role], rule.add, true);
    TrueKeysSetAll(SetAll(snap[role], rule.add, true), rule.remove, false);
  }

  lemma RoleGrantsSingle(role: RoleName, snap: Snapshot, rule: Rule)
    requires role in snap && IsRoleGrant(rule)
    ensures TrueKeys(ApplyRules(role, snap, [rule])[role])
            == TrueKeys(snap[role]) + (if rule.on.role == role then Elems(rule.add) else {})
  {
    ApplyRulesSingle(role, snap, rule);
    RoleGrantRule(role, snap, rule);
  }

  lemma RoleGrantsPair(role: RoleName, snap: Snapshot, first: Rule, second: Rule)
    requires role in snap && IsRoleGrant(first) && IsRoleGrant(second)
    ensures TrueKeys(ApplyRules(role, snap, [first, second])[role])
            == TrueKeys(snap[role])
               + (if first.on.role == role then Elems(first.add) else {})
               + (if second.on.role == role then Elems(second.add) else {})
  {
    ApplyRulesPair(role, snap, first, second);
    RoleGrantRule(role, snap, first);
    RoleGrantRule(role, ApplyRule(role, snap, first), second);
  }

  // ---------------------------------------------------------------------
  // Copy rules: `{On: permissionAnd(isRole(target), onOtherRole(other,
  // permissionExists(p))), Add: [p]}`

  function CopyRule(target: RoleName, other: RoleName, p: Perm): Rule {
    Rule(PermissionAnd([IsRole(target), OnOtherRole(other, PermissionExists(p))]), [p], [])
  }

  /** One copy rule per permission of `perms`, in that order. */
  function CopyRules(target: RoleName, other: RoleName, perms: seq<Perm>): (rules: seq<Rule>)
    ensures |rules| == |perms|
    ensures AddOnly(rules)
    decreases |perms|
  {
    if perms == [] then []
    else CopyRules(target, other, perms[..|perms| - 1]) + [CopyRule(target, other, perms[|perms| - 1])]
  }

  /** Copy rules add only the permissions they list. */
  lemma {:induction false} CopyRulesAddWithin(target: RoleName, other: RoleName, perms: seq<Perm>, allowed: set<Perm>)
    requires Elems(perms) <= allowed
    ensures AddsWithin(CopyRules(target, other, perms), allowed)
    decreases |perms|
  {
    if perms != [] {
      var front := perms[..|perms| - 1];
      assert Elems(front) <= Elems(perms);
      CopyRulesAddWithin(target, other, front, allowed);
      var last := perms[|perms| - 1];
      assert Elems(CopyRule(target, other, last).add) == {last};
      AddsWithinConcat(CopyRules(target, other, front), [CopyRule(target, other, last)], allowed);
    }
  }

  lemma CopyRuleFires(role: RoleName, snap: Snapshot, target: RoleName, other: RoleName, p: Perm)
    ensures Eval(CopyRule(target, other, p).on, role, snap) <==> role == target && Granted(snap, other, p)
  {
    var fs := [IsRole(target), OnOtherRole(other, PermissionExists(p))];
    PermissionAndIff(fs, role, snap);
    assert Eval(fs[0], role, snap) <==> role == target;
    assert Eval(fs[1], role, snap) <==> Granted(snap, other, p);
  }

  /** Copy rules leave every subject other than their target as it was. */
  lemma {:induction false} CopyRulesSkipOthers(role: RoleName, snap: Snapshot, target: RoleName, other: RoleName, perms: seq<Perm>)
    requires role in snap && role != target
    ensures ApplyRules(role, snap, CopyRules(target, other, perms)) == snap
    decreases |perms|
  {
    if perms != [] {
      var front := perms[..|perms| - 1];
      var rules := CopyRules(target, other, perms);
      assert rules[..|rules| - 1] == CopyRules(target, other, front);
      CopyRulesSkipOthers(role, snap, target, other, front);
      CopyRuleFires(role, snap, target, other, perms[|perms| - 1]);
    }
  }

  /** Copy rules give the target each listed permission that the other role
      holds; a role copying from itself gains nothing. */
  lemma {:induction false} CopyRulesEffect(role: RoleName, snap: Snapshot, target: RoleName, other: RoleName, perms: seq<Perm>)
    requires role in snap && role == target
    ensures TrueKeys(ApplyRules(role, snap, CopyRules(target, other, perms))[role])
            == TrueKeys(snap[role]) + (Elems(perms) * GrantsOf(snap, other))
    decreases |perms|
  {
    if perms != [] {
      var front := perms[..|perms| - 1];
      var p := perms[|perms| - 1];
      var rules := CopyRules(target, other, perms);
      assert rules[..|rules| - 1] == CopyRules(target, other, front);
      CopyRulesEffect(role, snap, target, other, front);
      var mid := ApplyRules(role, snap, CopyRules(target, other, front));
      if other == role {
        // the earlier copies added only what the role already held
        assert TrueKeys(mid[role]) == TrueKeys(snap[role]);
        assert GrantsOf(mid, other) == GrantsOf(snap, other);
      } else {
        ApplyRulesFrame(role, snap, CopyRules(target, other, front));
      }
      assert Granted(mid, other, p) == Granted(snap, other, p);
      CopyRuleFires(role, mid, target, other, p);
      TrueKeysSetAll(mid[role], [p], true);
      TrueKeysSetAll(SetAll(mid[role], [p], true), [], false);
      assert Elems([p]) == {p};
      assert Elems(perms) == Elems(front) + {p};
      CopyStep(TrueKeys(snap[role]), Elems(front), p, GrantsOf(snap, other));
    }
  }

  /** The set algebra of one more copy rule. */
  lemma CopyStep(granted: set<Perm>, copied: set<Perm>, p: Perm, other: set<Perm>)
    ensures (if p in other then (granted + (copied * other)) + {p} else granted + (copied * other))
            == granted + ((copied + {p}) * other)
  {
  }

  /** Rule lists without removes stay so when joined. */
  lemma AddOnlyConcat(a: seq<Rule>, b: seq<Rule>)
    requires AddOnly(a) && AddOnly(b)
    ensures AddOnly(a + b)
  {
    forall k | 0 <= k < |a + b| ensures (a + b)[k].remove == [] {
      if k < |a| {
        assert (a + b)[k] == a[k];
      } else {
        assert (a + b)[k] == b[k - |a|];
      }
    }
  }

  // ---------------------------------------------------------------------
  // Guarded revokes: `{On: permissionAnd(isRole(target), permissionExists(p)),
  // Remove: [q]}`

  function RevokeRule(target: RoleName, p: Perm, q: Perm): Rule {
    Rule(PermissionAnd([IsRole(target), PermissionExists(p)]), [], [q])
  }

  lemma RevokeRuleFires(role: RoleName, snap: Snapshot, target: RoleName, p: Perm, q: Perm)
    ensures Eval(RevokeRule(target, p, q).on, role, snap) <==> role == target && Granted(snap, role, p)
  {
    var fs := [IsRole(target), PermissionExists(p)];
    PermissionAndIff(fs, role, snap);
    assert Eval(fs[0], role, snap) <==> role == target;
    assert Eval(fs[1], role, snap) <==> Granted(snap, role, p);
  }

  /** A revoke that names the permission it tests takes that permission from
      the target and leaves every other subject alone. */
  lemma RevokeRuleEffect(role: RoleName, snap: Snapshot, target: RoleName, p: Perm)
    requires role in snap
    ensures role != target ==> ApplyRule(role, snap, RevokeRule(target, p, p)) == snap
    ensures role == target ==> TrueKeys(ApplyRule(role, snap, RevokeRule(target, p, p))[role]) == TrueKeys(snap[role]) - {p}
  {
    RevokeRuleFires(role, snap, target, p, p);
    var entry := snap[role];
    TrueKeysSetAll(entry, [], true);
    TrueKeysSetAll(SetAll(entry, [], true), [p], false);
    assert Elems([p]) == {p};
  }

  /** One revoke per permission of `perms`, each naming the permission it tests. */
  function RevokeRules(target: RoleName, perms: seq<Perm>): (rules: seq<Rule>)
    ensures |rules| == |perms|
    decreases |perms|
  {
    if perms == [] then []
    else RevokeRules(target, perms[..|perms| - 1]) + [RevokeRule(target, perms[|perms| - 1], perms[|perms| - 1])]
  }

  /** Revokes take every listed permission from the target and nothing from
      anyone else. */
  lemma {:induction false} RevokeRulesEffect(role: RoleName, snap: Snapshot, target: RoleName, perms: seq<Perm>)
    requires role in snap
    ensures role != target ==> ApplyRules(role, snap, RevokeRules(target, perms)) == snap
    ensures role == target ==>
              TrueKeys(ApplyRules(role, snap, RevokeRules(target, perms))[role]) == TrueKeys(snap[role]) - Elems(perms)
    decreases |perms|
  {
    if perms != [] {
      var front := perms[..|perms| - 1];
      var p := perms[|perms| - 1];
      var rules := RevokeRules(target, perms);
      assert rules[..|rules| - 1] == RevokeRules(target, front);
      RevokeRulesEffect(role, snap, target, front);
      var mid := ApplyRules(role, snap, RevokeRules(target, front));
      RevokeRuleEffect(role, mid, target, p);
      assert Elems(perms) == Elems(front) + {p};
    }
  }

  // ---------------------------------------------------------------------
  // Rules that never grant

  predicate RemoveOnly(rules: seq<Rule>) {
    forall k :: 0 <= k < |rules| ==> rules[k].add == []
  }

  /** Rules without adds can only revoke: the subject gains nothing. */
  lemma {:induction false} RemoveOnlyShrinks(role: RoleName, snap: Snapshot, rules: seq<Rule>)
    requires role in snap && RemoveOnly(rules)
    ensures TrueKeys(ApplyRules(role, snap, rules)[role]) <= TrueKeys(snap[role])
    decreases |rules|
  {
    if rules != [] {
      var front := rules[..|rules| - 1];
      assert RemoveOnly(front) by {
        forall k | 0 <= k < |front| ensures front[k].add == [] {
          assert front[k] == rules[k];
        }
      }
      RemoveOnlyShrinks(role, snap, front);
      var mid := ApplyRules(role, snap, front);
      var rule := rules[|rules| - 1];
      assert rule.add == [];
      TrueKeysSetAll(mid[role], rule.add, true);
      TrueKeysSetAll(SetAll(mid[role], rule.add, true), rule.remove, false);
    }
  }
}
