/** Object-level permission classes of the API. */
module Permissions {
  import opened Types

  /** The user attached to a request: the anonymous user, or a signed-in account with its flags. */
  datatype RequestUser =
    | Anonymous
    | Member(id: UserId, isSuperuser: bool, isStaff: bool)
  {
    predicate IsAuthenticated() { Member? }
    predicate IsAnonymous() { Anonymous? }
    /** Django's anonymous user reports `is_superuser` and `is_staff` as false. */
    predicate IsSuperuser() { Member? && isSuperuser }
    predicate IsStaff() { Member? && isStaff }
    /** `obj.author == request.user`: the anonymous user is nobody's author. */
    predicate Is(author: UserId) { Member? && id == author }
  }

  /** The read-only HTTP methods (`SAFE_METHODS`). */
  const SafeMethods: seq<string> := ["GET", "HEAD", "OPTIONS"]

  /** `IsAdminAuthorOrReadOnly.has_object_permission`. */
  function IsAdminAuthorOrReadOnly(verb: string, user: RequestUser, author: UserId): (r: bool)
    ensures verb in SafeMethods ==> r
    ensures user.IsSuperuser() || user.Is(author) ==> r
    ensures r ==> verb in SafeMethods || user.IsSuperuser() || user.Is(author)
  {
    verb in SafeMethods || user.IsSuperuser() || user.Is(author)
  }

  /** `AnonimOrAuthenticatedReadOnly.has_object_permission`. */
  function AnonimOrAuthenticatedReadOnly(verb: string, user: RequestUser): (r: bool)
    ensures verb in SafeMethods ==> r
    ensures user.IsSuperuser() || user.IsStaff() ==> r
  {
    (verb in SafeMethods && (user.IsAnonymous() || user.IsAuthenticated()))
      || user.IsSuperuser() || user.IsStaff()
  }

  /** The anonymous-or-authenticated test holds of every user, so only the verb and the staff flags decide. */
  lemma AnonimOrAuthenticatedReadOnlyExactly(verb: string, user: RequestUser)
    ensures AnonimOrAuthenticatedReadOnly(verb, user)
        <==> verb in SafeMethods || user.IsSuperuser() || user.IsStaff()
  {
  }

  /** An unsafe verb is denied to anyone who is neither superuser nor the object's author, signed in or not. */
  lemma UnsafeDeniedToOthers(verb: string, user: RequestUser, author: UserId)
    requires verb !in SafeMethods
    requires !user.IsSuperuser() && !user.Is(author)
    ensures !IsAdminAuthorOrReadOnly(verb, user, author)
  {
  }

  /** An unsafe verb is denied to anyone who is neither staff nor superuser. */
  lemma UnsafeDeniedToNonStaff(verb: string, user: RequestUser)
    requires verb !in SafeMethods
    requires !user.IsSuperuser() && !user.IsStaff()
    ensures !AnonimOrAuthenticatedReadOnly(verb, user)
  {
  }
}
