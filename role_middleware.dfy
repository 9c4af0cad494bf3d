/** The `role:` route middleware (app/Http/Middleware/RoleMiddleware.php) as a pure decision. */
module RoleMiddleware {
  import opened Wrappers
  import opened UserRole

  /** Either the request goes on to the controller, or a JSON error with this status is returned. */
  datatype Decision = Continue | Reject(status: int, message: string)

  /**
   * `array_filter(array_map(UserRole::tryFrom, $roles))`: the configured role strings that name a
   * role, in argument order; the strings that name none are dropped.
   */
  function AllowedRoles(roles: seq<string>): (allowed: seq<Role>)
    ensures |allowed| <= |roles|
    ensures forall r: Role :: r in allowed <==> Value(r) in roles
  {
    if roles == [] then []
    else
      var rest := AllowedRoles(roles[1..]);
      assert forall v :: v in roles <==> v == roles[0] || v in roles[1..];
      match TryFrom(roles[0])
      case Some(r) => [r] + rest
      case None => rest
  }

  function Handle(user: Option<Actor>, roles: seq<string>): (d: Decision)
    ensures user.None? ==> d == Reject(401, "Unauthenticated")
    ensures user.Some? && (forall r: Role :: Value(r) !in roles) ==>
              d == Reject(500, "Invalid role configuration")
    ensures user.Some? && (exists r: Role :: Value(r) in roles) && Value(user.value.role) !in roles ==>
              d == Reject(403, "Insufficient permissions")
    ensures d == Continue <==> user.Some? && Value(user.value.role) in roles
  {
    if user.None? then Reject(401, "Unauthenticated")
    else
      var allowed := AllowedRoles(roles);
      if allowed == [] then
        assert forall r: Role :: r !in allowed;
        Reject(500, "Invalid role configuration")
      else
        assert allowed[0] in allowed;
        if user.value.role !in allowed then Reject(403, "Insufficient permissions")
      else Continue
  }

  /** Neither the order nor repetitions of the role arguments change the outcome. */
  lemma HandleIgnoresOrderAndDuplicates(user: Option<Actor>, a: seq<string>, b: seq<string>)
    requires forall v :: v in a <==> v in b
    ensures Handle(user, a) == Handle(user, b)
  {
  }
}
