/** The predicate combinators of the permissions-migration rule language.
    A predicate is evaluated against a subject role name and a snapshot of
    every role's permission grants; it never changes the snapshot. */
module Predicates {

  type RoleName = string
  type Perm = string

  /** The transient permission snapshot: role name -> permission -> granted.
      An entry mapped to `false` has been removed by a rule. */
  type Snapshot = map<RoleName, map<Perm, bool>>

  /** The combinators, one constructor per closure builder of the source. */
  datatype Pred =
    | IsRole(role: RoleName)
    | PermissionExists(perm: Perm)
    | PermissionNotExists(perm: Perm)
    | OnOtherRole(otherRole: RoleName, inner: Pred)
    | PermissionOr(funcs: seq<Pred>)
    | PermissionAnd(funcs: seq<Pred>)

  /** The lookup `val, ok := snapshot[role][perm]; ok && val`. A role missing
      from the snapshot reads as an empty map, as a nil Go map does. */
  predicate Granted(snap: Snapshot, role: RoleName, perm: Perm) {
    role in snap && perm in snap[role] && snap[role][perm]
  }

  predicate Eval(p: Pred, subject: RoleName, snap: Snapshot)
    decreases p, 1
  {
    match p
    case IsRole(r) => subject == r
    case PermissionExists(perm) => Granted(snap, subject, perm)
    case PermissionNotExists(perm) => !Granted(snap, subject, perm)
    case OnOtherRole(other, f) => Eval(f, other, snap)
    case PermissionOr(fs) => AnyFrom(fs, 0, subject, snap)
    case PermissionAnd(fs) => AllFrom(fs, 0, subject, snap)
  }

  /** The loop of `permissionOr` from position `i`: the first sub-predicate
      that holds returns true; running off the end returns false. */
  predicate AnyFrom(fs: seq<Pred>, i: nat, subject: RoleName, snap: Snapshot)
    requires i <= |fs|
    decreases fs, 0, |fs| - i
  {
    if i == |fs| then false
    else if Eval(fs[i], subject, snap) then true
    else AnyFrom(fs, i + 1, subject, snap)
  }

  /** The loop of `permissionAnd` from position `i`: the first sub-predicate
      that fails returns false; running off the end returns true. */
  predicate AllFrom(fs: seq<Pred>, i: nat, subject: RoleName, snap: Snapshot)
    requires i <= |fs|
    decreases fs, 0, |fs| - i
  {
    if i == |fs| then true
    else if !Eval(fs[i], subject, snap) then false
    else AllFrom(fs, i + 1, subject, snap)
  }

  // ---------------------------------------------------------------------
  // The leaf combinators

  /** `isRole(r)` is true exactly when the subject is `r`, whatever the snapshot. */
  lemma IsRoleIff(r: RoleName, subject: RoleName, snap: Snapshot)
    ensures Eval(IsRole(r), subject, snap) <==> subject == r
  {
  }

  /** `permissionExists(p)` holds iff the subject's entry maps `p` to true. */
  lemma PermissionExistsIff(perm: Perm, subject: RoleName, snap: Snapshot)
    ensures Eval(PermissionExists(perm), subject, snap)
            <==> subject in snap && perm in snap[subject] && snap[subject][perm] == true
  {
  }

  /** `permissionNotExists(p)` is the exact negation of `permissionExists(p)`:
      an entry mapped to false counts the same as an absent one. */
  lemma PermissionNotExistsIsNegation(perm: Perm, subject: RoleName, snap: Snapshot)
    ensures Eval(PermissionNotExists(perm), subject, snap)
            <==> !Eval(PermissionExists(perm), subject, snap)
    ensures subject in snap && perm in snap[subject] && !snap[subject][perm]
            ==> Eval(PermissionNotExists(perm), subject, snap)
  {
  }

  /** `onOtherRole(r, f)` ignores the subject and is `f` evaluated at `r`. */
  lemma OnOtherRoleIgnoresSubject(other: RoleName, f: Pred, s1: RoleName, s2: RoleName, snap: Snapshot)
    ensures Eval(OnOtherRole(other, f), s1, snap) == Eval(f, other, snap)
    ensures Eval(OnOtherRole(other, f), s1, snap) == Eval(OnOtherRole(other, f), s2, snap)
  {
  }

  // ---------------------------------------------------------------------
  // Disjunction and conjunction

  lemma {:induction false} AnyFromIff(fs: seq<Pred>, i: nat, subject: RoleName, snap: Snapshot)
    requires i <= |fs|
    ensures AnyFrom(fs, i, subject, snap) <==> exists j :: i <= j < |fs| && Eval(fs[j], subject, snap)
    decreases |fs| - i
  {
    if i < |fs| {
      AnyFromIff(fs, i + 1, subject, snap);
    }
  }

  lemma {:induction false} AllFromIff(fs: seq<Pred>, i: nat, subject: RoleName, snap: Snapshot)
    requires i <= |fs|
    ensures AllFrom(fs, i, subject, snap) <==> forall j :: i <= j < |fs| ==> Eval(fs[j], subject, snap)
    decreases |fs| - i
  {
    if i < |fs| {
      AllFromIff(fs, i + 1, subject, snap);
    }
  }

  /** `permissionOr` is false on an empty list and true iff some sub-predicate holds. */
  lemma PermissionOrIff(fs: seq<Pred>, subject: RoleName, snap: Snapshot)
    ensures Eval(PermissionOr(fs), subject, snap) <==> exists j :: 0 <= j < |fs| && Eval(fs[j], subject, snap)
    ensures fs == [] ==> !Eval(PermissionOr(fs), subject, snap)
  {
    AnyFromIff(fs, 0, subject, snap);
  }

  /** `permissionAnd` is true on an empty list and true iff every sub-predicate holds. */
  lemma PermissionAndIff(fs: seq<Pred>, subject: RoleName, snap: Snapshot)
    ensures Eval(PermissionAnd(fs), subject, snap) <==> forall j :: 0 <= j < |fs| ==> Eval(fs[j], subject, snap)
    ensures fs == [] ==> Eval(PermissionAnd(fs), subject, snap)
  {
    AllFromIff(fs, 0, subject, snap);
  }

  // ---------------------------------------------------------------------
  // Predicates only observe grants

  /** Two snapshots that grant the same permissions to the same roles. They may
      differ in entries mapped to false versus absent entries. */
  ghost predicate SameGrants(a: Snapshot, b: Snapshot) {
    forall r, perm :: Granted(a, r, perm) <==> Granted(b, r, perm)
  }

  /** No predicate can tell a false entry from an absent one: evaluation
      depends only on which permissions are granted. */
  lemma {:induction false} EvalRespectsGrants(p: Pred, subject: RoleName, a: Snapshot, b: Snapshot)
    requires SameGrants(a, b)
    ensures Eval(p, subject, a) == Eval(p, subject, b)
    decreases p, 1
  {
    match p
    case IsRole(_) =>
    case PermissionExists(perm) =>
      assert Granted(a, subject, perm) <==> Granted(b, subject, perm);
    case PermissionNotExists(perm) =>
      assert Granted(a, subject, perm) <==> Granted(b, subject, perm);
    case OnOtherRole(other, f) =>
      EvalRespectsGrants(f, other, a, b);
    case PermissionOr(fs) =>
      AnyFromRespectsGrants(fs, 0, subject, a, b);
    case PermissionAnd(fs) =>
      AllFromRespectsGrants(fs, 0, subject, a, b);
  }

  lemma {:induction false} AnyFromRespectsGrants(fs: seq<Pred>, i: nat, subject: RoleName, a: Snapshot, b: Snapshot)
    requires i <= |fs|
    requires SameGrants(a, b)
    ensures AnyFrom(fs, i, subject, a) == AnyFrom(fs, i, subject, b)
    decreases fs, 0, |fs| - i
  {
    if i < |fs| {
      EvalRespectsGrants(fs[i], subject, a, b);
      AnyFromRespectsGrants(fs, i + 1, subject, a, b);
    }
  }

  lemma {:induction false} AllFromRespectsGrants(fs: seq<Pred>, i: nat, subject: RoleName, a: Snapshot, b: Snapshot)
    requires i <= |fs|
    requires SameGrants(a, b)
    ensures AllFrom(fs, i, subject, a) == AllFrom(fs, i, subject, b)
    decreases fs, 0, |fs| - i
  {
    if i < |fs| {
      EvalRespectsGrants(fs[i], subject, a, b);
      AllFromRespectsGrants(fs, i + 1, subject, a, b);
    }
  }
}
