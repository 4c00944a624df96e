/** The permission decisions of the API: the two permission classes of
    api/utils.py and the action-to-permission table of `UserViewSet` in
    api/views.py. */
module Permissions {
  import opened Wrappers

  /** The requesting user: Django's anonymous user, or an account identified
      by its primary key. */
  datatype User = AnonymousUser | Account(pk: int, isSuperuser: bool)

  /** An object a view checks permission on: a user row, or a row of some
      other model (Django model equality compares the concrete model and pk). */
  datatype Resource = UserRow(pk: int) | OtherRow(model: string, pk: int)

  predicate IsAnonymous(u: User) { u.AnonymousUser? }

  /** `request.user.is_authenticated`. */
  predicate IsAuthenticated(u: User) { u.Account? }

  /** `request.user.is_superuser` (always false for the anonymous user). */
  predicate IsSuperuser(u: User) { u.Account? && u.isSuperuser }

  /** DRF's SAFE_METHODS (HTTP verbs that only read). */
  const SafeVerbs: set<string> := {"GET", "HEAD", "OPTIONS"}

  /** `IsAdminOrAnonymous.has_permission`. */
  function AdminOrAnonymousHasPermission(verb: string, user: User): (allowed: bool)
    ensures verb in SafeVerbs ==> allowed
    ensures verb == "POST" ==> (allowed <==> IsAnonymous(user) || IsSuperuser(user))
    ensures verb !in SafeVerbs && verb != "POST" ==> !allowed
  {
    if verb in SafeVerbs then true
    else if verb == "POST" then IsAnonymous(user) || IsSuperuser(user)
    else false
  }

  /** `IsAdminOrAnonymous.has_object_permission`. */
  function AdminOrAnonymousHasObjectPermission(user: User, obj: Resource): (allowed: bool)
    ensures allowed <==> !IsAuthenticated(user) || IsSuperuser(user)
  {
    if IsSuperuser(user) then true else IsAnonymous(user)
  }

  /** Whether `user` equals `obj` under Python `==`: only an account equals
      its own user row. */
  predicate SameObject(obj: Resource, user: User) {
    match user
    case AnonymousUser => false
    case Account(pk, _) => obj == UserRow(pk)
  }

  /** `IsUser.has_permission`. */
  function IsUserHasPermission(user: User): (allowed: bool)
    ensures allowed <==> !IsAnonymous(user)
  {
    IsAuthenticated(user)
  }

  /** `IsUser.has_object_permission`: allowed only on the user's own row. */
  function IsUserHasObjectPermission(user: User, obj: Resource): (allowed: bool)
    ensures allowed <==> user.Account? && obj == UserRow(user.pk)
  {
    SameObject(obj, user)
  }

  /** Passing `IsUser`'s object check implies passing its view check. */
  lemma OwnershipImpliesAuthenticated(user: User, obj: Resource)
    requires IsUserHasObjectPermission(user, obj)
    ensures IsUserHasPermission(user)
  {
  }

  /** A non-superuser account is only ever granted safe methods by
      `IsAdminOrAnonymous`. */
  lemma MembersOnlyRead(verb: string, pk: int)
    ensures AdminOrAnonymousHasPermission(verb, Account(pk, false)) <==> verb in SafeVerbs
  {
  }

  /** The permission classes `UserViewSet.get_permissions` chooses from. */
  datatype PermissionClass = AllowAny | IsUser | IsAuthenticatedClass

  const PublicActions: set<string> := {"create", "password_change", "password_reset"}
  const OwnerActions: set<string> := {"update", "partial_update", "destroy"}

  /** `UserViewSet.get_permissions`; `action` is `None` when DRF resolved no
      action for the request. */
  function PermissionFor(action: Option<string>): (p: PermissionClass)
    ensures p == AllowAny <==> action.Some? && action.value in PublicActions
    ensures p == IsUser <==> action.Some? && action.value in OwnerActions
    ensures p == IsAuthenticatedClass <==>
              action.None? || (action.value !in PublicActions && action.value !in OwnerActions)
  {
    match action
    case Some(a) =>
      if a in PublicActions then AllowAny
      else if a in OwnerActions then IsUser
      else IsAuthenticatedClass
    case None => IsAuthenticatedClass
  }

  /** The view-level verdict of a permission class (`has_permission`). */
  function Grants(p: PermissionClass, user: User): bool {
    match p
    case AllowAny => true
    case IsUser => IsUserHasPermission(user)
    case IsAuthenticatedClass => IsAuthenticated(user)
  }

  /** An anonymous request passes the view-level check exactly for the
      public actions (registration and the two password flows). */
  lemma AnonymousReachesOnlyPublicActions(action: Option<string>)
    ensures Grants(PermissionFor(action), AnonymousUser) <==> action.Some? && action.value in PublicActions
  {
  }

  /** Every authenticated account passes the view-level check for every action. */
  lemma AccountsPassViewCheck(action: Option<string>, pk: int, isSuperuser: bool)
    ensures Grants(PermissionFor(action), Account(pk, isSuperuser))
  {
  }

  /** The custom actions `edit_profile`, `view_catalogue` and
      `recommended_movies` declare `IsUser` on their decorator, but the
      table overrides that declaration: they get `IsAuthenticated`. */
  lemma DecoratedActionsGetIsAuthenticated()
    ensures PermissionFor(Some("edit_profile")) == IsAuthenticatedClass
    ensures PermissionFor(Some("view_catalogue")) == IsAuthenticatedClass
    ensures PermissionFor(Some("recommended_movies")) == IsAuthenticatedClass
  {
  }
}
