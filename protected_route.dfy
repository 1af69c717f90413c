/** The route guard in front of the protected views (src/components/ProtectedRoute.tsx). */
module ProtectedRoute {
  import opened Wrappers
  import opened AuthContext

  /** What the guard renders: the spinner, a `<Navigate>` element, or the child `<Outlet>`. */
  datatype RouteOutcome =
    | LoadingPlaceholder
    | Redirect(to: string, replace: bool)
    | Outlet

  const LOGIN_PATH: string := "/login"

  /** The guard's decision over `(isLoading, isAuthenticated)`; exactly one outcome for each pair. */
  function Guard(isLoading: bool, isAuthenticated: bool): (o: RouteOutcome)
    ensures o.LoadingPlaceholder? <==> isLoading
    ensures o.Redirect? <==> !isLoading && !isAuthenticated
    ensures o.Outlet? <==> !isLoading && isAuthenticated
    ensures o.Redirect? ==> o.to == LOGIN_PATH && o.replace
  {
    if isLoading then LoadingPlaceholder
    else if !isAuthenticated then Redirect(LOGIN_PATH, true)
    else Outlet
  }

  /** The guard as it reads the provider's context. */
  function GuardSession(s: Session): RouteOutcome
  {
    Guard(s.isLoading, IsAuthenticated(s))
  }

  /** After a logout that happens once loading is over, protected views redirect to the login page. */
  lemma LogoutRedirects(s: Session)
    requires !s.isLoading
    ensures GuardSession(LogoutStep(s)) == Redirect(LOGIN_PATH, true)
  {
  }

  /** After a successful login or register that happens once loading is over, protected views render. */
  lemma SignInOpensOutlet(s: Session, token: string, u: User)
    requires !s.isLoading
    ensures GuardSession(SignInStep(s, AuthData(token, u))) == Outlet
  {
  }

  /** While the first verify has not run, the guard shows only the placeholder, whatever
      logins and logouts happened meanwhile. */
  lemma {:induction false} PlaceholderUntilFirstVerify(storedToken: Option<string>, es: seq<Event>)
    requires forall i :: 0 <= i < |es| ==> !es[i].Verify?
    ensures GuardSession(Run(Initial(storedToken), es)) == LoadingPlaceholder
  {
    LoadingEndsOnlyByVerify(Initial(storedToken), es);
  }

  /** A failed verify does not clear the user: after a login whose token then fails
      verification, and the re-run of the effect for the dropped token, the session has
      no token in memory or storage but still passes the guard, and the header still
      carries the rejected token. */
  lemma FailedVerifyKeepsUserSignedIn(u: User)
    ensures var s := Run(Initial(None),
                         [Verify(ProfileFailed), Login(AuthData("T1", u)),
                          Verify(ProfileFailed), Verify(ProfileFailed)]);
      && s.token == None && s.stored == None
      && s.user == Some(u) && s.header == Some(Bearer("T1"))
      && !s.verifyScheduled
      && GuardSession(s) == Outlet
  {
    var s0 := Initial(None);
    var s1 := Step(s0, Verify(ProfileFailed));
    var s2 := Step(s1, Login(AuthData("T1", u)));
    var s3 := Step(s2, Verify(ProfileFailed));
    var s4 := Step(s3, Verify(ProfileFailed));
    var es := [Verify(ProfileFailed), Login(AuthData("T1", u)), Verify(ProfileFailed), Verify(ProfileFailed)];
    assert Truthy(Some("T1"));
    assert es[1..] == [Login(AuthData("T1", u)), Verify(ProfileFailed), Verify(ProfileFailed)];
    assert es[2..] == [Verify(ProfileFailed), Verify(ProfileFailed)];
    assert es[3..] == [Verify(ProfileFailed)];
    calc {
      Run(s0, es);
      Run(s1, es[1..]);
      Run(s2, es[2..]);
      Run(s3, es[3..]);
      { assert es[3..][1..] == []; }
      Run(s4, []);
    }
  }
}
