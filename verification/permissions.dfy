/** The permission classes of the API, as predicates of the request method, the view
    action, the requesting user (`None` when anonymous) and the author of the object. */
module Permissions {
  import opened Wrappers
  import opened Domain

  datatype HttpMethod = Get | Head | Options | Post | Put | Patch | Delete

  /** `SAFE_METHODS`: GET, HEAD and OPTIONS. */
  predicate Safe(m: HttpMethod) {
    m == Get || m == Head || m == Options
  }

  /** `ReadOnly.has_permission` and `ReadOnly.has_object_permission`: every write method is
      refused, whoever asks and whatever the object. */
  function ReadOnly(m: HttpMethod): (ok: bool)
    ensures ok <==> !(m == Post || m == Put || m == Patch || m == Delete)
  {
    Safe(m)
  }

  /** `IsRetrieveAuthenticatedOrReadOnly.has_permission`: showing one user (`retrieve`) or
      oneself (`me`) needs a login whatever the method; every other action is read-only. */
  function RetrieveAuthenticatedOrReadOnly(action: string, m: HttpMethod, user: Option<UserId>): (ok: bool)
    ensures (action == "retrieve" || action == "me") ==> (ok <==> user.Some?)
    ensures !(action == "retrieve" || action == "me") ==> (ok <==> Safe(m))
  {
    if action == "retrieve" || action == "me" then user.Some? else Safe(m)
  }

  /** `OwnerOrReadOnly.has_permission`: reading is open, writing needs a login. */
  function OwnerOrReadOnly(m: HttpMethod, user: Option<UserId>): (ok: bool)
    ensures Safe(m) ==> ok
    ensures !Safe(m) ==> (ok <==> user.Some?)
  {
    Safe(m) || user.Some?
  }

  /** `OwnerOrReadOnly.has_object_permission`: reading is open, writing is for the author.
      An anonymous user is never equal to an author. */
  function OwnerOrReadOnlyObject(m: HttpMethod, user: Option<UserId>, author: UserId): (ok: bool)
    ensures Safe(m) ==> ok
    ensures !Safe(m) ==> (ok <==> user == Some(author))
  {
    Safe(m) || (user.Some? && user.value == author)
  }

  /** Whoever may change an object also passes the view-level check, and an authenticated
      user who is not the author may only read. */
  lemma ObjectPermissionIsStricter(m: HttpMethod, user: Option<UserId>, author: UserId)
    ensures OwnerOrReadOnlyObject(m, user, author) ==> OwnerOrReadOnly(m, user)
    ensures user.Some? && user.value != author ==>
              (OwnerOrReadOnlyObject(m, user, author) <==> Safe(m))
    ensures user.Some? ==> OwnerOrReadOnly(m, user)
  {
  }

  /** `ReadOnly` allows exactly what every class allows to an anonymous user outside
      `retrieve`/`me`. */
  lemma ReadOnlyIsAnonymousAccess(action: string, m: HttpMethod, author: UserId)
    requires action != "retrieve" && action != "me"
    ensures ReadOnly(m) <==> OwnerOrReadOnly(m, None)
    ensures ReadOnly(m) <==> OwnerOrReadOnlyObject(m, None, author)
    ensures ReadOnly(m) <==> RetrieveAuthenticatedOrReadOnly(action, m, None)
  {
  }

  /** Logging in never takes a permission away. */
  lemma LoginIsMonotone(action: string, m: HttpMethod, u: UserId, author: UserId)
    ensures OwnerOrReadOnly(m, None) ==> OwnerOrReadOnly(m, Some(u))
    ensures OwnerOrReadOnlyObject(m, None, author) ==> OwnerOrReadOnlyObject(m, Some(u), author)
    ensures RetrieveAuthenticatedOrReadOnly(action, m, None) ==> RetrieveAuthenticatedOrReadOnly(action, m, Some(u))
  {
  }

  /** backend/users/permissions.py: the four cases of `has_permission`. */
  lemma UsersPermissionCases(m: HttpMethod, u: UserId)
    ensures !RetrieveAuthenticatedOrReadOnly("retrieve", m, None)
    ensures RetrieveAuthenticatedOrReadOnly("me", m, Some(u))
    ensures Safe(m) ==> RetrieveAuthenticatedOrReadOnly("list", m, None)
    ensures !Safe(m) ==> !RetrieveAuthenticatedOrReadOnly("create", m, Some(u))
  {
  }
}
