/**
 * The permission evaluator: does a user's claim set satisfy a requirement?
 * Permissions are all-of and roles are any-of, but each axis is only
 * checked when the user holds at least one entry on it.
 */
module Permissions {
  import opened Options

  /** A user's claims; either list may be missing from decoded token claims. */
  datatype User = User(permissions: Option<seq<string>>, roles: Option<seq<string>>)

  /** A requirement; a missing list is an `undefined` field of the options object. */
  datatype Requirement = Requirement(permissions: Option<seq<string>>, roles: Option<seq<string>>)

  /** `list?.length > 0`: a missing list and an empty one both hold nothing. */
  predicate HasEntries(list: Option<seq<string>>) {
    list.Some? && |list.value| > 0
  }

  /** The names a possibly-missing list mentions, ignoring order and repetition. */
  function Elements(list: Option<seq<string>>): set<string> {
    if list.Some? then set x | x in list.value else {}
  }

  /** `required.every(p => held.includes(p))`, scanning from the front. */
  function EveryIncluded(required: seq<string>, held: seq<string>): (r: bool)
    ensures r <==> forall i :: 0 <= i < |required| ==> required[i] in held
  {
    if required == [] then true
    else if required[0] !in held then false
    else EveryIncluded(required[1..], held)
  }

  /** `required.some(p => held.includes(p))`, scanning from the front. */
  function SomeIncluded(required: seq<string>, held: seq<string>): (r: bool)
    ensures r <==> exists i :: 0 <= i < |required| && required[i] in held
  {
    if required == [] then false
    else if required[0] in held then true
    else SomeIncluded(required[1..], held)
  }

  lemma EveryIncludedIsSubset(required: seq<string>, held: seq<string>)
    ensures EveryIncluded(required, held) <==> Elements(Some(required)) <= Elements(Some(held))
  {
    if !EveryIncluded(required, held) {
      var i :| 0 <= i < |required| && required[i] !in held;
      assert required[i] in Elements(Some(required));
    }
  }

  lemma SomeIncludedIsOverlap(required: seq<string>, held: seq<string>)
    ensures SomeIncluded(required, held) <==> Elements(Some(required)) * Elements(Some(held)) != {}
  {
    if SomeIncluded(required, held) {
      var i :| 0 <= i < |required| && required[i] in held;
      assert required[i] in Elements(Some(required)) * Elements(Some(held));
    }
  }

  /**
   * Whether the evaluator runs to completion rather than throwing on an
   * `undefined` requirement list. The permissions list is read whenever the
   * user holds a permission. The roles list is read only when the user holds
   * a role and the evaluator has not already returned false on the
   * permissions axis.
   */
  predicate Evaluable(user: User, req: Requirement) {
    && (HasEntries(user.permissions) ==> req.permissions.Some?)
    && (HasEntries(user.roles)
        && (!HasEntries(user.permissions) || EveryIncluded(req.permissions.value, user.permissions.value))
        ==> req.roles.Some?)
  }

  /** Reference reading of the permissions axis, over sets. */
  predicate PermissionsSatisfied(user: User, req: Requirement) {
    !HasEntries(user.permissions) || Elements(req.permissions) <= Elements(user.permissions)
  }

  /** Reference reading of the roles axis, over sets. */
  predicate RolesSatisfied(user: User, req: Requirement) {
    !HasEntries(user.roles) || Elements(req.roles) * Elements(user.roles) != {}
  }

  /**
   * The evaluator. The result is true exactly when both axes pass: every
   * required permission is held (if the user holds any permission) and some
   * required role is held (if the user holds any role).
   */
  function ValidateUserPermissions(user: User, req: Requirement): (r: bool)
    requires Evaluable(user, req)
    ensures r <==> PermissionsSatisfied(user, req) && RolesSatisfied(user, req)
  {
    EveryIncludedIsSubset(req.permissions.GetOr([]), user.permissions.GetOr([]));
    SomeIncludedIsOverlap(req.roles.GetOr([]), user.roles.GetOr([]));
    if HasEntries(user.permissions) && !EveryIncluded(req.permissions.value, user.permissions.value) then
      false
    else if HasEntries(user.roles) && !SomeIncluded(req.roles.value, user.roles.value) then
      false
    else
      true
  }

  /** A user with no permissions and no roles passes whatever is required. */
  lemma EmptyUserPasses(user: User, req: Requirement)
    requires !HasEntries(user.permissions) && !HasEntries(user.roles)
    ensures Evaluable(user, req)
    ensures ValidateUserPermissions(user, req)
  {
  }

  /** Without permissions of their own, the user's result ignores the required permissions entirely. */
  lemma PermissionsAxisSkipped(user: User, req: Requirement, other: Option<seq<string>>)
    requires !HasEntries(user.permissions)
    requires Evaluable(user, req)
    ensures Evaluable(user, req.(permissions := other))
    ensures ValidateUserPermissions(user, req) == ValidateUserPermissions(user, req.(permissions := other))
  {
  }

  /** Without roles of their own, the user's result ignores the required roles entirely. */
  lemma RolesAxisSkipped(user: User, req: Requirement, other: Option<seq<string>>)
    requires !HasEntries(user.roles)
    requires Evaluable(user, req)
    ensures Evaluable(user, req.(roles := other))
    ensures ValidateUserPermissions(user, req) == ValidateUserPermissions(user, req.(roles := other))
  {
  }

  /** A user holding some permission fails as soon as one required permission is missing. */
  lemma MissingPermissionFails(user: User, req: Requirement, p: string)
    requires HasEntries(user.permissions) && req.permissions.Some?
    requires p in req.permissions.value && p !in user.permissions.value
    ensures Evaluable(user, req)
    ensures !ValidateUserPermissions(user, req)
  {
    assert p in Elements(req.permissions);
  }

  /**
   * The evaluator returns as soon as the permissions axis fails, so an
   * undefined roles list is never read then: the result is false, not a throw.
   */
  lemma FailedPermissionsNeverReadRoles(user: User, req: Requirement)
    requires HasEntries(user.permissions) && req.permissions.Some?
    requires !PermissionsSatisfied(user, req)
    ensures Evaluable(user, req.(roles := None))
    ensures !ValidateUserPermissions(user, req.(roles := None))
  {
    EveryIncludedIsSubset(req.permissions.value, user.permissions.value);
  }

  /** An empty required-permissions list passes the permissions axis (`[].every` is true). */
  lemma EmptyRequiredPermissionsPass(user: User, req: Requirement)
    requires req.permissions == Some([]) && Evaluable(user, req)
    ensures ValidateUserPermissions(user, req) == RolesSatisfied(user, req)
  {
  }

  /** An empty required-roles list fails any user who holds a role (`[].some` is false). */
  lemma EmptyRequiredRolesFail(user: User, req: Requirement)
    requires HasEntries(user.roles) && req.roles == Some([])
    requires Evaluable(user, req)
    ensures !ValidateUserPermissions(user, req)
  {
  }

  lemma HasEntriesIffElements(list: Option<seq<string>>)
    ensures HasEntries(list) <==> Elements(list) != {}
  {
    if HasEntries(list) {
      assert list.value[0] in Elements(list);
    }
  }

  /**
   * Only which names appear matters: lists that mention the same names, in
   * any order and with any repetition, give the same result.
   */
  lemma OrderAndDuplicatesIrrelevant(u1: User, r1: Requirement, u2: User, r2: Requirement)
    requires Elements(u1.permissions) == Elements(u2.permissions)
    requires Elements(u1.roles) == Elements(u2.roles)
    requires Elements(r1.permissions) == Elements(r2.permissions)
    requires Elements(r1.roles) == Elements(r2.roles)
    requires Evaluable(u1, r1) && Evaluable(u2, r2)
    ensures ValidateUserPermissions(u1, r1) == ValidateUserPermissions(u2, r2)
  {
    HasEntriesIffElements(u1.permissions);
    HasEntriesIffElements(u2.permissions);
    HasEntriesIffElements(u1.roles);
    HasEntriesIffElements(u2.roles);
  }

  /** Requiring fewer permissions never turns a pass into a failure. */
  lemma FewerPermissionsStillPass(user: User, req: Requirement, fewer: seq<string>)
    requires Evaluable(user, req) && req.permissions.Some?
    requires forall p :: p in fewer ==> p in req.permissions.value
    requires ValidateUserPermissions(user, req)
    ensures Evaluable(user, req.(permissions := Some(fewer)))
    ensures ValidateUserPermissions(user, req.(permissions := Some(fewer)))
  {
  }

  /** The requirement of the metrics page. */
  const MetricsRequirement: Requirement := Requirement(Some(["metrics.list"]), Some(["administrator"]))

  /** Concrete outcomes for the metrics requirement and further evaluator examples. */
  lemma MetricsExamples()
    ensures ValidateUserPermissions(User(Some(["metrics.list", "users.list"]), Some(["editor", "administrator"])), MetricsRequirement)
    ensures !ValidateUserPermissions(User(Some(["users.list"]), Some(["administrator"])), MetricsRequirement)
    ensures !ValidateUserPermissions(User(Some(["metrics.list"]), Some(["viewer"])), MetricsRequirement)
    ensures ValidateUserPermissions(User(Some([]), Some([])), MetricsRequirement)
    ensures ValidateUserPermissions(User(None, None), MetricsRequirement)
    ensures ValidateUserPermissions(User(Some([]), None), Requirement(Some(["a"]), None))
    ensures !ValidateUserPermissions(User(Some(["a"]), None), Requirement(Some(["a", "b"]), None))
    ensures ValidateUserPermissions(User(None, Some(["x"])), Requirement(None, Some(["x", "y"])))
    ensures Evaluable(User(Some(["a"]), Some(["r"])), Requirement(Some(["b"]), None))
    ensures !ValidateUserPermissions(User(Some(["a"]), Some(["r"])), Requirement(Some(["b"]), None))
  {
    assert "administrator" in Elements(Some(["editor", "administrator"]));
    assert "administrator" in Elements(MetricsRequirement.roles);
    assert "metrics.list" in Elements(MetricsRequirement.permissions);
    assert "b" in Elements(Some(["a", "b"]));
    assert "x" in Elements(Some(["x"]));
    assert "x" in Elements(Some(["x", "y"]));
  }
}
