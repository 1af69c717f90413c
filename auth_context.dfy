/** The session state machine of the client (src/context/AuthContext.tsx).

    The provider keeps `user`, `token` and `isLoading` in component state, mirrors the
    token in the browser's durable storage slot `token` (`stored`) and in the global
    `Authorization` request header (`header`). Every network reply is a parameter, so
    each transition is a deterministic function of the state and the reply. */
module AuthContext {
  import opened Wrappers

  datatype User = User(id: string, name: string, email: string)

  /** The reply to the profile request made while verifying a token.
      `ProfileData(None)` is a successful reply whose body is empty (falsy). */
  datatype ProfileReply = ProfileData(data: Option<User>) | ProfileFailed

  /** The reply to a login or register request: the issued token and user, or the error. */
  datatype AuthReply = AuthData(token: string, user: User) | AuthFailed(error: string)

  /** The whole observable state of the provider. `verifyScheduled` says that the token
      has changed (or the provider has just mounted) and the verify effect has not yet
      run for the current token value. */
  datatype Session = Session(
    user: Option<User>,
    token: Option<string>,
    isLoading: bool,
    stored: Option<string>,
    header: Option<string>,
    verifyScheduled: bool)

  /** The header value that carries a bearer token. */
  function Bearer(token: string): string
  {
    "Bearer " + token
  }

  /** JavaScript truthiness of a token: absent and empty tokens are both falsy. */
  predicate Truthy(token: Option<string>)
  {
    token.Some? && token.value != ""
  }

  /** What every reachable session satisfies: the durable slot mirrors the in-memory
      token, loading lasts only until the first verify, and once the verify for a
      truthy token has settled (or a login set it) the header carries that token. */
  ghost predicate Invariant(s: Session)
  {
    && s.stored == s.token
    && (s.isLoading ==> s.verifyScheduled)
    && (!s.verifyScheduled && Truthy(s.token) ==> s.header == Some(Bearer(s.token.value)))
  }

  /** `!!user`: the session is authenticated exactly when a user is present. */
  function IsAuthenticated(s: Session): (b: bool)
    ensures b <==> s.user.Some?
  {
    s.user.Some?
  }

  /** The provider as it mounts: no user, the token read from storage, loading,
      no header yet, and the verify effect due. */
  function Initial(storedToken: Option<string>): (s: Session)
    ensures s.token == storedToken && s.stored == storedToken
    ensures s.user == None && s.header == None
    ensures s.isLoading && s.verifyScheduled
    ensures Invariant(s)
  {
    Session(None, storedToken, true, storedToken, None, true)
  }

  /** `setToken(t)`: React re-runs the verify effect only when the value changes. */
  function WithToken(s: Session, t: Option<string>): Session
  {
    s.(token := t, verifyScheduled := s.verifyScheduled || s.token != t)
  }

  /** One run of the `verifyToken` effect, for the current token, with `reply` as the
      server's answer to the profile request (ignored when no request is made). */
  function VerifyStep(s: Session, reply: ProfileReply): (r: Session)
    // no (truthy) token: no request, only loading ends
    ensures !Truthy(s.token) ==> r == s.(isLoading := false, verifyScheduled := false)
    // a request was made: the header carries the token and loading ends
    ensures Truthy(s.token) ==> r.header == Some(Bearer(s.token.value)) && !r.isLoading
    // success: the reply's user is adopted, an empty reply keeps the old user
    ensures Truthy(s.token) && reply.ProfileData? ==>
      && r.user == (if reply.data.Some? then reply.data else s.user)
      && r.token == s.token && r.stored == s.stored && !r.verifyScheduled
    // failure: the token is dropped from storage and memory; the user is left as it was
    ensures Truthy(s.token) && reply.ProfileFailed? ==>
      && r.user == s.user && r.token == None && r.stored == None && r.verifyScheduled
    ensures Invariant(s) ==> Invariant(r)
  {
    var s1 := s.(verifyScheduled := false);
    if !Truthy(s1.token) then
      s1.(isLoading := false)
    else
      var s2 := s1.(header := Some(Bearer(s1.token.value)));
      var s3 :=
        match reply
        case ProfileData(data) => if data.Some? then s2.(user := data) else s2
        case ProfileFailed => WithToken(s2.(stored := None), None);
      s3.(isLoading := false)
  }

  /** `login` and `register` once their request has settled with `reply`; the two
      differ only in the endpoint and in what they send. */
  function SignInStep(s: Session, reply: AuthReply): (r: Session)
    // failure: the error is rethrown before any write
    ensures reply.AuthFailed? ==> r == s
    ensures reply.AuthData? ==>
      && r.stored == Some(reply.token) && r.token == Some(reply.token)
      && r.user == Some(reply.user) && r.header == Some(Bearer(reply.token))
      && r.isLoading == s.isLoading
      && r.verifyScheduled == (s.verifyScheduled || s.token != Some(reply.token))
    ensures Invariant(s) ==> Invariant(r)
  {
    match reply
    case AuthFailed(_) => s
    case AuthData(token, user) =>
      WithToken(s.(stored := Some(token)), Some(token))
        .(user := Some(user))
        .(header := Some(Bearer(token)))
  }

  /** `logout`: synchronous and total. */
  function LogoutStep(s: Session): (r: Session)
    ensures r.stored == None && r.token == None && r.user == None && r.header == None
    ensures !IsAuthenticated(r)
    ensures r.isLoading == s.isLoading
    ensures r.verifyScheduled == (s.verifyScheduled || s.token.Some?)
    ensures Invariant(s) ==> Invariant(r)
  {
    WithToken(s.(stored := None), None).(user := None).(header := None)
  }

  /** The events that drive the provider. */
  datatype Event =
    | Verify(ProfileReply)
    | Login(AuthReply)
    | Register(AuthReply)
    | Logout

  function Step(s: Session, e: Event): (r: Session)
    ensures Invariant(s) ==> Invariant(r)
    ensures !s.isLoading ==> !r.isLoading
    ensures !e.Verify? ==> r.isLoading == s.isLoading
  {
    match e
    case Verify(reply) => VerifyStep(s, reply)
    case Login(reply) => SignInStep(s, reply)
    case Register(reply) => SignInStep(s, reply)
    case Logout => LogoutStep(s)
  }

  /** The session after the events `es`, in order. */
  function Run(s: Session, es: seq<Event>): Session
    decreases |es|
  {
    if es == [] then s else Run(Step(s, es[0]), es[1..])
  }

  lemma {:induction false} RunPreservesInvariant(s: Session, es: seq<Event>)
    requires Invariant(s)
    ensures Invariant(Run(s, es))
    decreases |es|
  {
    if es != [] {
      RunPreservesInvariant(Step(s, es[0]), es[1..]);
    }
  }

  /** Every session the provider can reach from mounting satisfies the invariant. */
  lemma {:induction false} ReachableSessionsAreValid(storedToken: Option<string>, es: seq<Event>)
    ensures Invariant(Run(Initial(storedToken), es))
  {
    RunPreservesInvariant(Initial(storedToken), es);
  }

  /** `isLoading` is only ever assigned false: once it is false it stays false. */
  lemma {:induction false} LoadingNeverResumes(s: Session, es: seq<Event>)
    requires !s.isLoading
    ensures !Run(s, es).isLoading
    decreases |es|
  {
    if es != [] {
      LoadingNeverResumes(Step(s, es[0]), es[1..]);
    }
  }

  /** Only the verify effect ends loading: events other than it leave `isLoading` as it is. */
  lemma {:induction false} LoadingEndsOnlyByVerify(s: Session, es: seq<Event>)
    requires forall i :: 0 <= i < |es| ==> !es[i].Verify?
    ensures Run(s, es).isLoading == s.isLoading
    decreases |es|
  {
    if es != [] {
      LoadingEndsOnlyByVerify(Step(s, es[0]), es[1..]);
    }
  }

  /** With an empty storage slot the first verify makes no request: it ends loading
      with nobody signed in and no header, whatever reply would have come. */
  lemma NoStoredTokenResolvesAnonymous(reply: ProfileReply, other: ProfileReply)
    ensures VerifyStep(Initial(None), reply) == VerifyStep(Initial(None), other)
    ensures var s := VerifyStep(Initial(None), reply);
      !s.isLoading && !IsAuthenticated(s) && s.header == None && s.token == None
  {
  }

  /** A stored token that verifies gives a signed-in, settled session with that user. */
  lemma StoredTokenVerified(token: string, u: User)
    requires token != ""
    ensures var s := VerifyStep(Initial(Some(token)), ProfileData(Some(u)));
      && !s.isLoading && s.user == Some(u) && s.token == Some(token)
      && s.stored == Some(token) && s.header == Some(Bearer(token))
  {
  }

  /** Logging out twice is logging out once. */
  lemma LogoutIdempotent(s: Session)
    ensures LogoutStep(LogoutStep(s)) == LogoutStep(s)
  {
  }

  /** The provider object: the fields React keeps, the storage slot and the header. */
  class AuthProvider {
    var user: Option<User>
    var token: Option<string>
    var isLoading: bool
    var stored: Option<string>
    var header: Option<string>
    var verifyScheduled: bool

    function State(): Session
      reads this
    {
      Session(user, token, isLoading, stored, header, verifyScheduled)
    }

    ghost predicate Valid()
      reads this
    {
      Invariant(State())
    }

    /** Mounting the provider, with `storedToken` what `localStorage.getItem('token')` returns. */
    constructor (storedToken: Option<string>)
      ensures State() == Initial(storedToken)
      ensures Valid()
    {
      user := None;
      token := storedToken;
      isLoading := true;
      stored := storedToken;
      header := None;
      verifyScheduled := true;
    }

    /** `setToken`: records that the effect must run again when the value changes. */
    method SetToken(t: Option<string>)
      modifies this`token, this`verifyScheduled
      ensures token == t
      ensures verifyScheduled == (old(verifyScheduled) || old(token) != t)
    {
      if token != t {
        verifyScheduled := true;
      }
      token := t;
    }

    /** The `verifyToken` effect for the current token, with `reply` the profile reply. */
    method VerifyToken(reply: ProfileReply)
      requires Valid()
      modifies this
      ensures State() == VerifyStep(old(State()), reply)
      ensures Valid()
    {
      verifyScheduled := false;
      if !Truthy(token) {
        isLoading := false;
        return;
      }
      header := Some(Bearer(token.value));
      match reply {
        case ProfileData(data) =>
          if data.Some? {
            user := data;
          }
        case ProfileFailed =>
          stored := None;
          SetToken(None);
      }
      isLoading := false;
    }

    /** The writes `login` and `register` make after their request succeeds. */
    method AdoptCredentials(t: string, u: User)
      requires Valid()
      modifies this
      ensures State() == SignInStep(old(State()), AuthData(t, u))
      ensures Valid()
    {
      stored := Some(t);
      SetToken(Some(t));
      user := Some(u);
      header := Some(Bearer(t));
    }

    /** `login(email, password)`; the credentials go only to the server, whose answer is `reply`. */
    method Login(reply: AuthReply) returns (result: Outcome)
      requires Valid()
      modifies this
      ensures State() == SignInStep(old(State()), reply)
      ensures result == (if reply.AuthFailed? then Rejected(reply.error) else Resolved)
      ensures Valid()
    {
      match reply {
        case AuthFailed(error) =>
          return Rejected(error);
        case AuthData(t, u) =>
          AdoptCredentials(t, u);
          return Resolved;
      }
    }

    /** `register(name, email, password)`; the same writes as `login`. */
    method Register(reply: AuthReply) returns (result: Outcome)
      requires Valid()
      modifies this
      ensures State() == SignInStep(old(State()), reply)
      ensures result == (if reply.AuthFailed? then Rejected(reply.error) else Resolved)
      ensures Valid()
    {
      match reply {
        case AuthFailed(error) =>
          return Rejected(error);
        case AuthData(t, u) =>
          AdoptCredentials(t, u);
          return Resolved;
      }
    }

    /** `logout`: removes the stored token, clears token and user, deletes the header. */
    method Logout()
      requires Valid()
      modifies this
      ensures State() == LogoutStep(old(State()))
      ensures Valid()
    {
      stored := None;
      SetToken(None);
      user := None;
      header := None;
    }
  }
}
