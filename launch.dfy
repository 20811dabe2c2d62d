/** The launch route: it waits for the auth state (and, for a community
    owner, for the lookup of the owner's community) and then redirects by
    sign-in state and role. */
module Launch {
  import opened Types

  /** `user.unsafeMetadata.role`: absent, or whatever text was stored. */
  datatype AuthUser = AuthUser(id: string, role: Option<string>)

  const OwnerRole: string := "community_owner"
  const UserRole: string := "user"

  predicate IsOwner(user: Option<AuthUser>) {
    user.Some? && user.value.role == Some(OwnerRole)
  }

  /** `!user?.unsafeMetadata.role`: no user, no role or the empty text. */
  predicate HasNoRole(user: Option<AuthUser>) {
    user.None? || user.value.role.None? || user.value.role.value == ""
  }

  datatype Href = SignUp | OnboardingRole | UserHome | CommunityDashboard | OnboardingCommunity

  datatype Route = Spinner | Redirect(href: Href)

  /** The screen Index renders. */
  function Decide(loading: bool, isSignedIn: bool, user: Option<AuthUser>, hasCommunity: Option<bool>): (r: Route)
    ensures r == Spinner <==> loading || (IsOwner(user) && hasCommunity.None?)
    ensures r == Redirect(SignUp) <==> !loading && !(IsOwner(user) && hasCommunity.None?) && !isSignedIn
  {
    if loading || (IsOwner(user) && hasCommunity.None?) then Spinner
    else if !isSignedIn then Redirect(SignUp)
    else if HasNoRole(user) then Redirect(OnboardingRole)
    else if user.value.role.value == UserRole then Redirect(UserHome)
    else if user.value.role.value == OwnerRole then
      (if hasCommunity == Some(true) then Redirect(CommunityDashboard) else Redirect(OnboardingCommunity))
    else Redirect(OnboardingRole)
  }

  /** Once loaded and signed in, each role reaches exactly its own area:
      a user the home feed, an owner the dashboard or the community
      onboarding, and anything else the role picker. */
  lemma RoutesByRole(isSignedIn: bool, user: Option<AuthUser>, hasCommunity: Option<bool>)
    requires isSignedIn
    ensures Decide(false, isSignedIn, user, hasCommunity) == Redirect(UserHome)
            <==> user.Some? && user.value.role == Some(UserRole)
    ensures Decide(false, isSignedIn, user, hasCommunity) == Redirect(CommunityDashboard)
            <==> IsOwner(user) && hasCommunity == Some(true)
    ensures Decide(false, isSignedIn, user, hasCommunity) == Redirect(OnboardingCommunity)
            <==> IsOwner(user) && hasCommunity == Some(false)
    ensures Decide(false, isSignedIn, user, hasCommunity) == Redirect(OnboardingRole)
            <==> user.None? || (user.value.role != Some(UserRole) && user.value.role != Some(OwnerRole))
  {
    assert |UserRole| != |OwnerRole| && |OwnerRole| != 0;
    if IsOwner(user) && hasCommunity == Some(false) {
      assert !HasNoRole(user);
    }
    if Decide(false, isSignedIn, user, hasCommunity) == Redirect(OnboardingCommunity) {
      assert IsOwner(user);
      assert hasCommunity.Some? && hasCommunity != Some(true);
      assert !hasCommunity.value;
    }
  }

  /** The wait state behind Index: the auth libraries' loading flag and the
      owner's community lookup (None while unknown or not applicable). */
  class LaunchState {
    var loading: bool
    var hasCommunity: Option<bool>

    constructor ()
      ensures loading && hasCommunity.None?
    {
      loading := true;
      hasCommunity := None;
    }

    /** The first effect: both auth hooks have loaded. */
    method AuthLoaded(isLoaded: bool, userLoaded: bool)
      modifies this`loading
      ensures loading == (old(loading) && !(isLoaded && userLoaded))
    {
      if isLoaded && userLoaded {
        loading := false;
      }
    }

    /** The second effect, on a change of user: for anyone but an owner the
        lookup is cleared; for an owner the lookup starts. */
    method UserChanged(user: Option<AuthUser>) returns (lookupStarted: bool)
      modifies this`hasCommunity
      ensures lookupStarted == IsOwner(user)
      ensures !IsOwner(user) ==> hasCommunity.None?
      ensures IsOwner(user) ==> hasCommunity == old(hasCommunity)
    {
      lookupStarted := IsOwner(user);
      if !lookupStarted {
        hasCommunity := None;
      }
    }

    /** checkCommunity's answer: `!!data`, false for no row or an error. */
    method CommunityChecked(row: Option<string>)
      modifies this`hasCommunity
      ensures hasCommunity == Some(row.Some?)
    {
      hasCommunity := Some(row.Some?);
    }

    function CurrentRoute(isSignedIn: bool, user: Option<AuthUser>): (r: Route)
      reads this
      ensures r == Decide(loading, isSignedIn, user, hasCommunity)
    {
      Decide(loading, isSignedIn, user, hasCommunity)
    }
  }

  /** An owner stays on the spinner until the lookup answers, and is then
      sent to the dashboard exactly when the community row exists. */
  method OwnerLaunch(owner: AuthUser, row: Option<string>) returns (before: Route, after: Route)
    requires owner.role == Some(OwnerRole)
    ensures before == Spinner
    ensures after == Redirect(if row.Some? then CommunityDashboard else OnboardingCommunity)
  {
    var s := new LaunchState();
    s.AuthLoaded(true, true);
    var started := s.UserChanged(Some(owner));
    before := s.CurrentRoute(true, Some(owner));
    s.CommunityChecked(row);
    after := s.CurrentRoute(true, Some(owner));
  }
}
