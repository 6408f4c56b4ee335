/**
 * `ProfileView.get_object` (`agora/core/views.py`): which lookup is made,
 * and who may see the profile found. The two ORM lookups (`handle=` and
 * `id=`) and `has_perm` are Django's and are passed in; `requester` is the
 * id of the logged-in user, whom `LoginRequiredMixin` guarantees.
 */
module ProfileViews {
  import opened Wrappers
  import opened Models

  /** `AgoraUser.Visibility`: the two restricted values, and any other. */
  datatype Visibility = Hidden | Private | OtherVisibility(name: string)

  datatype Profile = Profile(id: UserId, visibility: Visibility)

  datatype Permission = ViewHiddenProfile | ViewPrivateProfile

  datatype ViewError = Http404 | AssertionError | PermissionDenied

  /** The profile the URL names: by handle when there is one, else by id. */
  function Requested(handle: Option<string>, id: Option<int>,
                     byHandle: string -> Option<Profile>, byId: int -> Option<Profile>): (r: Option<Profile>)
    requires handle.Some? || id.Some?
  {
    if handle.Some? then byHandle(handle.value) else byId(id.value)
  }

  /** Who may see a profile: its owner always, others when they hold the permission its visibility asks for. */
  predicate MayView(requester: UserId, p: Profile, hasPerm: (Permission, Profile) -> bool) {
    || p.id == requester
    || match p.visibility
       case Hidden => hasPerm(ViewHiddenProfile, p)
       case Private => hasPerm(ViewPrivateProfile, p)
       case OtherVisibility(_) => true
  }

  /** `get_object`. */
  function GetObject(handle: Option<string>, id: Option<int>,
                     byHandle: string -> Option<Profile>, byId: int -> Option<Profile>,
                     requester: UserId, hasPerm: (Permission, Profile) -> bool): (r: Result<Profile, ViewError>)
    ensures handle.None? && id.None? <==> r == Failure(AssertionError)
    ensures (handle.Some? || id.Some?) ==>
      (r == Failure(Http404) <==> Requested(handle, id, byHandle, byId).None?)
    ensures r == Failure(PermissionDenied) <==>
      (handle.Some? || id.Some?) && Requested(handle, id, byHandle, byId).Some?
      && !MayView(requester, Requested(handle, id, byHandle, byId).value, hasPerm)
    ensures r.Success? <==>
      (handle.Some? || id.Some?) && Requested(handle, id, byHandle, byId).Some?
      && MayView(requester, Requested(handle, id, byHandle, byId).value, hasPerm)
    ensures r.Success? ==> r.value == Requested(handle, id, byHandle, byId).value
  {
    var profile: Result<Option<Profile>, ViewError> :=
      if handle.Some? then
        (match byHandle(handle.value) case None => Failure(Http404) case Some(p) => Success(Some(p)))
      else if id.Some? then
        (match byId(id.value) case None => Failure(Http404) case Some(p) => Success(Some(p)))
      else Success(None);
    match profile
    case Failure(e) => Failure(e)
    case Success(None) => Failure(AssertionError)
    case Success(Some(p)) =>
      if p.id == requester then Success(p)
      else if (p.visibility == Hidden && !hasPerm(ViewHiddenProfile, p))
           || (p.visibility == Private && !hasPerm(ViewPrivateProfile, p)) then Failure(PermissionDenied)
      else Success(p)
  }

  /** With a handle in the URL, the id plays no part. */
  lemma HandleTakesPrecedence(handle: string, id1: Option<int>, id2: Option<int>,
                              byHandle: string -> Option<Profile>, byId: int -> Option<Profile>,
                              requester: UserId, hasPerm: (Permission, Profile) -> bool)
    ensures GetObject(Some(handle), id1, byHandle, byId, requester, hasPerm)
         == GetObject(Some(handle), id2, byHandle, byId, requester, hasPerm)
  {
  }

  /** One's own profile is returned whatever its visibility and whatever one's permissions. */
  lemma OwnProfileVisible(handle: Option<string>, id: Option<int>,
                          byHandle: string -> Option<Profile>, byId: int -> Option<Profile>,
                          requester: UserId, hasPerm: (Permission, Profile) -> bool)
    requires handle.Some? || id.Some?
    requires Requested(handle, id, byHandle, byId).Some?
    requires Requested(handle, id, byHandle, byId).value.id == requester
    ensures GetObject(handle, id, byHandle, byId, requester, hasPerm) == Success(Requested(handle, id, byHandle, byId).value)
  {
  }

  /** Another user's hidden or private profile is refused exactly without the matching permission. */
  lemma RestrictedProfileNeedsPermission(handle: Option<string>, id: Option<int>,
                                         byHandle: string -> Option<Profile>, byId: int -> Option<Profile>,
                                         requester: UserId, hasPerm: (Permission, Profile) -> bool)
    requires handle.Some? || id.Some?
    requires Requested(handle, id, byHandle, byId).Some?
    requires var p := Requested(handle, id, byHandle, byId).value; p.id != requester
    ensures var p := Requested(handle, id, byHandle, byId).value;
      p.visibility == Hidden ==>
        (GetObject(handle, id, byHandle, byId, requester, hasPerm) == Failure(PermissionDenied)
         <==> !hasPerm(ViewHiddenProfile, p))
    ensures var p := Requested(handle, id, byHandle, byId).value;
      p.visibility == Private ==>
        (GetObject(handle, id, byHandle, byId, requester, hasPerm) == Failure(PermissionDenied)
         <==> !hasPerm(ViewPrivateProfile, p))
    ensures var p := Requested(handle, id, byHandle, byId).value;
      p.visibility.OtherVisibility? ==> GetObject(handle, id, byHandle, byId, requester, hasPerm) == Success(p)
  {
  }
}
