/** The two account roles (app/Enums/UserRole.php) and the authenticated user the HTTP layer sees. */
module UserRole {
  import opened Wrappers

  datatype Role = Admin | User

  /** The string stored in the `role` column. */
  function Value(r: Role): (v: string)
    ensures v != "" && forall i :: 0 <= i < |v| ==> 'a' <= v[i] <= 'z'
  {
    match r
    case Admin => "admin"
    case User => "user"
  }

  /** The backed enum's `tryFrom`. */
  function TryFrom(v: string): (r: Option<Role>)
    ensures r.Some? ==> Value(r.value) == v
  {
    if v == "admin" then Some(Admin) else if v == "user" then Some(User) else None
  }

  /** Parsing a role's own string gives that role back; any other string gives no role. */
  lemma TryFromExact(v: string, r: Role)
    ensures TryFrom(Value(r)) == Some(r)
    ensures TryFrom(v) == Some(r) <==> v == Value(r)
    ensures TryFrom(v) == None <==> v != "admin" && v != "user"
  {
  }

  function Label(r: Role): (l: string)
    ensures l != "" && 'A' <= l[0] <= 'Z'
  {
    match r
    case Admin => "Administrator"
    case User => "User"
  }

  predicate IsAdmin(r: Role)
    ensures IsAdmin(r) <==> Value(r) == "admin"
  {
    r == Admin
  }

  predicate IsUser(r: Role)
    ensures IsUser(r) <==> Value(r) == "user"
    ensures IsUser(r) <==> !IsAdmin(r)
  {
    r == User
  }

  /** Every role is exactly one of admin and user, and the labels tell them apart. */
  lemma RolesExclusive(r: Role)
    ensures IsAdmin(r) != IsUser(r)
    ensures Label(Admin) == "Administrator" && Label(User) == "User"
    ensures Label(Admin) != Label(User)
  {
  }

  /** The authenticated user (`$request->user()`): its id, e-mail address and role. */
  datatype Actor = Actor(id: int, email: string, role: Role)
}
