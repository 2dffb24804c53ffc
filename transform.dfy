/** Transformation rules and their application to one role of the shared
    permission snapshot. */
module Transform {
  import opened Predicates

  /** A rule: when `on` holds for the subject, grant every `add` and then
      revoke every `remove` in the subject's own entry. */
  datatype Rule = Rule(on: Pred, add: seq<Perm>, remove: seq<Perm>)

  function Elems<T>(s: seq<T>): set<T> {
    set x | x in s
  }

  /** A list has no elements exactly when it is empty. */
  lemma EmptyElems<T>(s: seq<T>)
    ensures Elems(s) == {} <==> s == []
  {
    if s != [] {
      assert s[0] in Elems(s);
    }
  }

  predicate NoDuplicates<T(==)>(s: seq<T>) {
    forall a, b :: 0 <= a < b < |s| ==> s[a] != s[b]
  }

  /** Appending an element not yet listed keeps the list duplicate-free. */
  lemma AppendFresh<T>(s: seq<T>, x: T)
    requires NoDuplicates(s) && x !in Elems(s)
    ensures NoDuplicates(s + [x]) && Elems(s + [x]) == Elems(s) + {x}
    ensures (s + [x])[..|s|] == s
  {
    assert forall a :: 0 <= a < |s| ==> (s + [x])[a] == s[a];
  }

  /** Whether a rule writes permission `p` at all (when it fires). */
  predicate Touches(rule: Rule, p: Perm) {
    p in rule.add || p in rule.remove
  }

  /** The writes `entry[p] = v` for each `p` of `perms`, in order. */
  function SetAll(entry: map<Perm, bool>, perms: seq<Perm>, v: bool): (r: map<Perm, bool>)
    ensures r.Keys == entry.Keys + Elems(perms)
    ensures forall p :: p in r ==> r[p] == if p in perms then v else entry[p]
    decreases |perms|
  {
    if perms == [] then entry
    else SetAll(entry, perms[..|perms| - 1], v)[perms[|perms| - 1] := v]
  }

  /** One rule applied to the subject: its condition is read against the
      snapshot as it stands, and only the subject's entry is written. */
  function ApplyRule(role: RoleName, snap: Snapshot, rule: Rule): Snapshot
    requires role in snap
  {
    if Eval(rule.on, role, snap) then
      snap[role := SetAll(SetAll(snap[role], rule.add, true), rule.remove, false)]
    else
      snap
  }

  /** The rules applied to the subject one after another, in list order. */
  function ApplyRules(role: RoleName, snap: Snapshot, rules: seq<Rule>): (r: Snapshot)
    requires role in snap
    ensures r.Keys == snap.Keys
    decreases |rules|
  {
    if rules == [] then snap
    else ApplyRule(role, ApplyRules(role, snap, rules[..|rules| - 1]), rules[|rules| - 1])
  }

  /** The permissions an entry grants; entries mapped to false are dropped. */
  function TrueKeys(entry: map<Perm, bool>): set<Perm> {
    set p | p in entry && entry[p]
  }

  /** The source's `applyPermissionsMap`: rewrites the subject's entry of the
      shared snapshot rule by rule and returns the granted keys. The updated
      snapshot is handed back to the caller, which holds the only reference.
      The order of the returned keys is arbitrary, as Go's map iteration is. */
  method ApplyPermissionsMap(roleName: RoleName, roleMap: Snapshot, migrationMap: seq<Rule>)
    returns (after: Snapshot, result: seq<Perm>)
    requires roleName in roleMap
    ensures after == ApplyRules(roleName, roleMap, migrationMap)
    ensures after.Keys == roleMap.Keys
    ensures forall r :: r in roleMap && r != roleName ==> after[r] == roleMap[r]
    ensures Elems(result) == TrueKeys(after[roleName])
    ensures NoDuplicates(result)
  {
    after := roleMap;
    var i := 0;
    while i < |migrationMap|
      invariant 0 <= i <= |migrationMap|
      invariant after == ApplyRules(roleName, roleMap, migrationMap[..i])
    {
      after := RunRule(roleName, after, migrationMap[i]);
      ApplyRulesStep(roleName, roleMap, migrationMap, i);
      i := i + 1;
    }
    assert migrationMap[..i] == migrationMap;
    ApplyRulesFrame(roleName, roleMap, migrationMap);
    result := GrantedKeys(after[roleName]);
  }

  /** One turn of the outer loop of `applyPermissionsMap`: when the rule's
      predicate holds, the adds and then the removes are written. */
  method RunRule(roleName: RoleName, roleMap: Snapshot, transformation: Rule) returns (after: Snapshot)
    requires roleName in roleMap
    ensures after == ApplyRule(roleName, roleMap, transformation)
  {
    after := roleMap;
    if Eval(transformation.on, roleName, roleMap) {
      after := WriteAll(roleName, after, transformation.add, true);
      after := WriteAll(roleName, after, transformation.remove, false);
    }
  }

  lemma ApplyRulesStep(role: RoleName, snap: Snapshot, rules: seq<Rule>, i: nat)
    requires role in snap && i < |rules|
    ensures ApplyRules(role, snap, rules[..i + 1]) == ApplyRule(role, ApplyRules(role, snap, rules[..i]), rules[i])
  {
    var prefix := rules[..i + 1];
    assert prefix[..|prefix| - 1] == rules[..i] && prefix[|prefix| - 1] == rules[i];
  }

  /** The inner loops of `applyPermissionsMap`: `roleMap[roleName][p] = v`
      for each `p` of `perms`, one write at a time. */
  method WriteAll(roleName: RoleName, roleMap: Snapshot, perms: seq<Perm>, v: bool) returns (after: Snapshot)
    requires roleName in roleMap
    ensures after == roleMap[roleName := SetAll(roleMap[roleName], perms, v)]
  {
    after := roleMap;
    var j := 0;
    while j < |perms|
      invariant 0 <= j <= |perms|
      invariant after == roleMap[roleName := SetAll(roleMap[roleName], perms[..j], v)]
    {
      assert perms[..j + 1][..j] == perms[..j];
      after := after[roleName := after[roleName][perms[j] := v]];
      j := j + 1;
    }
    assert perms[..j] == perms;
  }

  /** The closing loop of `applyPermissionsMap`: the keys mapped to true,
      each once, in an arbitrary order. */
  method GrantedKeys(entry: map<Perm, bool>) returns (result: seq<Perm>)
    ensures Elems(result) == TrueKeys(entry)
    ensures NoDuplicates(result)
  {
    var remaining := entry.Keys;
    result := [];
    while remaining != {}
      invariant remaining <= entry.Keys
      invariant forall k :: k in result ==> k in entry && entry[k] && k !in remaining
      invariant forall k :: k in entry && entry[k] && k !in remaining ==> k in result
      invariant NoDuplicates(result)
      decreases remaining
    {
      var key :| key in remaining;
      if entry[key] {
        result := result + [key];
      }
      remaining := remaining - {key};
    }
    assert Elems(result) == TrueKeys(entry);
  }

  // ---------------------------------------------------------------------
  // Properties of rule application

  /** `ApplyRulesFrame` for a single other entry. */
  lemma ApplyRulesKeeps(role: RoleName, snap: Snapshot, rules: seq<Rule>, other: RoleName)
    requires role in snap && other in snap && other != role
    ensures ApplyRules(role, snap, rules)[other] == snap[other]
  {
    ApplyRulesFrame(role, snap, rules);
  }

  /** Rules write only the subject's entry; every other role's entry, which
      conditions may read, is the same afterwards. */
  lemma {:induction false} ApplyRulesFrame(role: RoleName, snap: Snapshot, rules: seq<Rule>)
    requires role in snap
    ensures forall r :: r in snap && r != role ==> ApplyRules(role, snap, rules)[r] == snap[r]
    decreases |rules|
  {
    if rules != [] {
      ApplyRulesFrame(role, snap, rules[..|rules| - 1]);
    }
  }

  /** What one rule does to one permission of the subject: when it fires,
      removes are applied after adds, so a permission in both lists ends false;
      a permission it does not touch, or a rule that does not fire, keeps its
      old entry. */
  lemma ApplyRuleAt(role: RoleName, snap: Snapshot, rule: Rule, p: Perm)
    requires role in snap
    ensures var after := ApplyRule(role, snap, rule);
            var fires := Eval(rule.on, role, snap);
            && role in after
            && (p in after[role] <==> p in snap[role] || (fires && Touches(rule, p)))
            && (fires && p in rule.remove ==> !after[role][p])
            && (fires && p in rule.add && p !in rule.remove ==> after[role][p])
            && (!(fires && Touches(rule, p)) && p in snap[role] ==> after[role][p] == snap[role][p])
  {
  }

  /** Applying `a` and then `b` is applying `a + b`. */
  lemma {:induction false} ApplyRulesAppend(role: RoleName, snap: Snapshot, a: seq<Rule>, b: seq<Rule>)
    requires role in snap
    ensures ApplyRules(role, snap, a + b) == ApplyRules(role, ApplyRules(role, snap, a), b)
    decreases |b|
  {
    if b == [] {
      assert a + b == a;
    } else {
      var b' := b[..|b| - 1];
      assert (a + b)[..|a + b| - 1] == a + b';
      assert (a + b)[|a + b| - 1] == b[|b| - 1];
      ApplyRulesAppend(role, snap, a, b');
    }
  }

  /** A permission no rule of the list mentions keeps its entry (present
      with the same value, or absent). */
  lemma {:induction false} UntouchedPermission(role: RoleName, snap: Snapshot, rules: seq<Rule>, p: Perm)
    requires role in snap
    requires forall k :: 0 <= k < |rules| ==> !Touches(rules[k], p)
    ensures var after := ApplyRules(role, snap, rules);
            && (p in after[role] <==> p in snap[role])
            && (p in snap[role] ==> after[role][p] == snap[role][p])
    decreases |rules|
  {
    if rules != [] {
      var front := rules[..|rules| - 1];
      UntouchedPermission(role, snap, front, p);
      ApplyRuleAt(role, ApplyRules(role, snap, front), rules[|rules| - 1], p);
    }
  }

  /** A permission that every rule mentioning it leaves alone, because the
      rule does not fire on the snapshot the rules before it left, keeps its
      entry (present with the same value, or absent). */
  lemma {:induction false} UnfiredPermission(role: RoleName, snap: Snapshot, rules: seq<Rule>, p: Perm)
    requires role in snap
    requires forall k :: 0 <= k < |rules| && Touches(rules[k], p) ==>
               !Eval(rules[k].on, role, ApplyRules(role, snap, rules[..k]))
    ensures var after := ApplyRules(role, snap, rules);
            && (p in after[role] <==> p in snap[role])
            && (p in snap[role] ==> after[role][p] == snap[role][p])
    decreases |rules|
  {
    if rules != [] {
      var front := rules[..|rules| - 1];
      forall k | 0 <= k < |front| && Touches(front[k], p)
        ensures !Eval(front[k].on, role, ApplyRules(role, snap, front[..k]))
      {
        assert front[..k] == rules[..k] && front[k] == rules[k];
      }
      UnfiredPermission(role, snap, front, p);
      ApplyRuleAt(role, ApplyRules(role, snap, front), rules[|rules| - 1], p);
    }
  }

  /** Across rules the last one that fires and touches a permission decides
      its final value: false if it removes it, true if it only adds it. A
      later rule may mention the permission as long as it does not fire. */
  lemma LastWriterWins(role: RoleName, snap: Snapshot, pre: seq<Rule>, rule: Rule, post: seq<Rule>, p: Perm)
    requires role in snap
    requires Eval(rule.on, role, ApplyRules(role, snap, pre))
    requires Touches(rule, p)
    requires forall k :: 0 <= k < |post| && Touches(post[k], p) ==>
               !Eval(post[k].on, role, ApplyRules(role, snap, pre + [rule] + post[..k]))
    ensures var final := ApplyRules(role, snap, pre + [rule] + post);
            p in final[role] && final[role][p] == (p !in rule.remove)
  {
    var mid := ApplyRules(role, snap, pre + [rule]);
    assert (pre + [rule])[..|pre + [rule]| - 1] == pre;
    ApplyRuleAt(role, ApplyRules(role, snap, pre), rule, p);
    forall k | 0 <= k < |post| && Touches(post[k], p)
      ensures !Eval(post[k].on, role, ApplyRules(role, mid, post[..k]))
    {
      ApplyRulesAppend(role, snap, pre + [rule], post[..k]);
    }
    ApplyRulesAppend(role, snap, pre + [rule], post);
    UnfiredPermission(role, mid, post, p);
  }

  // ---------------------------------------------------------------------
  // Worked cases

  /** A condition that always holds (an empty conjunction). */
  const Always: Pred := PermissionAnd([])

  /** A one-rule list is that rule. */
  lemma ApplyRulesSingle(role: RoleName, snap: Snapshot, rule: Rule)
    requires role in snap
    ensures ApplyRules(role, snap, [rule]) == ApplyRule(role, snap, rule)
  {
    assert [rule][..0] == [];
  }

  /** A two-rule list is the first rule and then the second. */
  lemma ApplyRulesPair(role: RoleName, snap: Snapshot, first: Rule, second: Rule)
    requires role in snap
    ensures ApplyRules(role, snap, [first, second]) == ApplyRule(role, ApplyRule(role, snap, first), second)
  {
    assert [first, second][..1] == [first];
    ApplyRulesSingle(role, snap, first);
  }

  /** Rule order matters: adding and then unconditionally removing a
      permission leaves it revoked; the other order leaves it granted. */
  lemma RuleOrderSensitivity(role: RoleName, snap: Snapshot, p: Perm)
    requires role in snap
    ensures !Granted(ApplyRules(role, snap, [Rule(Always, [p], []), Rule(Always, [], [p])]), role, p)
    ensures Granted(ApplyRules(role, snap, [Rule(Always, [], [p]), Rule(Always, [p], [])]), role, p)
  {
    var grant, revoke := Rule(Always, [p], []), Rule(Always, [], [p]);
    ApplyRulesPair(role, snap, grant, revoke);
    AlwaysHolds(role, ApplyRule(role, snap, grant));
    ApplyRuleAt(role, ApplyRule(role, snap, grant), revoke, p);
    ApplyRulesPair(role, snap, revoke, grant);
    AlwaysHolds(role, ApplyRule(role, snap, revoke));
    ApplyRuleAt(role, ApplyRule(role, snap, revoke), grant, p);
  }

  lemma AlwaysHolds(role: RoleName, snap: Snapshot)
    ensures Eval(Always, role, snap)
  {
    PermissionAndIff([], role, snap);
  }

  /** A rule for role `a` may read role `b`: `a` gains `r` because `b` holds
      `q`, though `a` never held `q` itself. */
  lemma CrossRolePredicate(a: RoleName, b: RoleName, q: Perm, r: Perm, snap: Snapshot)
    requires a in snap
    requires Granted(snap, b, q)
    ensures Granted(ApplyRules(a, snap, [Rule(OnOtherRole(b, PermissionExists(q)), [r], [])]), a, r)
  {
    var rule := Rule(OnOtherRole(b, PermissionExists(q)), [r], []);
    ApplyRulesSingle(a, snap, rule);
    ApplyRuleAt(a, snap, rule, r);
  }
}
