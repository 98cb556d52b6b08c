/** `AuthProvider` (client/src/context/AuthProvider.tsx): the client's session
    state, the current user and the loading flag, kept beside the access
    token in `localStorage`. Server replies arrive as settled calls of the
    API client, the interceptors having already run. */
module AuthProvider {
  import opened Wrappers
  import opened ApiClient

  /** The JSON object the provider stores as `user`: the type says
      `{username, email}`, but whatever object the server sent is kept. */
  type Json = map<string, string>

  /** The `user` of a log-in reply. */
  function LoginUserJson(id: string, username: string, email: string): Json
  {
    map["id" := id, "username" := username, "email" := email]
  }

  /** The data of a `GET /me` reply. */
  function MeJson(userId: string): Json
  {
    map["message" := "Authorized access", "userId" := userId]
  }

  datatype LoginReply = LoginReply(accessToken: string, user: Json)

  /** The provider's state and the storage beside it. */
  datatype Session = Session(user: Option<Json>, loading: bool, storage: map<string, string>)

  /** Where a settled call leaves the state. */
  function AfterLogin(s: Session, reply: Settled<LoginReply>): (r: Session)
    ensures reply.Resolved? ==> r == s.(user := Some(reply.value.user), storage := s.storage[TokenKey := reply.value.accessToken])
    ensures reply.Rejected? ==> r == s
  {
    match reply
    case Resolved(data) => s.(user := Some(data.user), storage := s.storage[TokenKey := data.accessToken])
    case Rejected(_) => s
  }

  function AfterLogout<T>(s: Session, reply: Settled<T>): (r: Session)
    ensures reply.Resolved? ==> r.user.None? && TokenKey !in r.storage && r.loading == s.loading
    ensures reply.Resolved? ==> forall k | k in s.storage && k != TokenKey :: k in r.storage && r.storage[k] == s.storage[k]
    ensures reply.Rejected? ==> r == s
  {
    match reply
    case Resolved(_) => s.(user := None, storage := s.storage - {TokenKey})
    case Rejected(_) => s
  }

  /** `initAuth`: `me` is how `GET /me` settles, asked only when a non-empty
      token is stored. */
  function AfterInit(s: Session, me: Settled<Json>): (r: Session)
    ensures !r.loading
  {
    if !HasToken(s.storage) then s.(loading := false)
    else
      match me
      case Resolved(data) => s.(user := Some(data), loading := false)
      case Rejected(_) => s.(user := None, loading := false, storage := s.storage - {TokenKey})
  }

  /** The three `initAuth` outcomes. */
  lemma InitAuthOutcomes(s: Session, me: Settled<Json>)
    ensures !HasToken(s.storage) ==> AfterInit(s, me) == s.(loading := false)
    ensures HasToken(s.storage) && me.Resolved? ==>
              AfterInit(s, me).user == Some(me.value) && AfterInit(s, me).storage == s.storage
    ensures HasToken(s.storage) && me.Rejected? ==>
              AfterInit(s, me).user.None? && !HasToken(AfterInit(s, me).storage)
  {
  }

  /** A session restored from a stored token holds the `/me` data as its
      user, which has no `username` or `email`: the dashboard greets a
      restored session without a name, unlike one that just logged in. */
  lemma RestoredUserLacksProfile(s: Session, userId: string, id: string, username: string, email: string, token: string)
    requires HasToken(s.storage)
    ensures var restored := AfterInit(s, Resolved(MeJson(userId))).user.value;
            "username" !in restored && "email" !in restored
    ensures var fromLogin := AfterLogin(s, Resolved(LoginReply(token, LoginUserJson(id, username, email)))).user.value;
            "username" in fromLogin && fromLogin["username"] == username && "email" in fromLogin && fromLogin["email"] == email
  {
  }

  /** Logging in then out ends signed out with no token, whatever the state
      before, provided both calls succeed. */
  lemma LoginThenLogout<T>(s: Session, reply: LoginReply, bye: T)
    ensures var r := AfterLogout(AfterLogin(s, Resolved(reply)), Resolved(bye));
            r.user.None? && !HasToken(r.storage) && r.loading == s.loading
  {
  }

  class Provider {
    const browser: Browser
    var user: Option<Json>
    var loading: bool

    /** The first render: no user, still loading. */
    constructor (browser: Browser)
      ensures this.browser == browser && user.None? && loading && !RendersChildren()
    {
      this.browser := browser;
      user := None;
      loading := true;
    }

    function State(): Session
      reads this, browser
    {
      Session(user, loading, browser.storage)
    }

    /** The provider renders its children, rather than the loading screen,
        once loading is over. */
    predicate RendersChildren()
      reads this
    {
      !loading
    }

    /** `signup(...)`: the reply changes no state; the call resolves with no
        value once the reply does, and a rejection is passed on. */
    method Signup<T>(reply: Settled<T>) returns (r: Settled<()>)
      ensures reply.Resolved? ==> r == Resolved(())
      ensures reply.Rejected? ==> r == Rejected(reply.error)
    {
      if reply.Rejected? {
        return Rejected(reply.error);
      }
      return Resolved(());
    }

    /** `login(email, password)`. */
    method Login(reply: Settled<LoginReply>) returns (r: Settled<LoginReply>)
      modifies this, browser
      ensures State() == AfterLogin(old(State()), reply) && r == reply
      ensures browser.location == old(browser.location)
    {
      if reply.Rejected? {
        return reply;
      }
      browser.storage := browser.storage[TokenKey := reply.value.accessToken];
      user := Some(reply.value.user);
      return reply;
    }

    /** `logout()`: the token and user go only once the call succeeded. */
    method Logout<T>(reply: Settled<T>) returns (r: Settled<T>)
      modifies this, browser
      ensures State() == AfterLogout(old(State()), reply) && r == reply
      ensures browser.location == old(browser.location)
    {
      if reply.Rejected? {
        return reply;
      }
      browser.storage := browser.storage - {TokenKey};
      user := None;
      return reply;
    }

    /** The mount effect `initAuth()`. */
    method InitAuth(me: Settled<Json>)
      modifies this, browser
      ensures State() == AfterInit(old(State()), me)
      ensures RendersChildren()
      ensures browser.location == old(browser.location)
    {
      var token := GetItem(browser.storage, TokenKey);
      if token.Some? && token.value != "" {
        match me
        case Resolved(data) =>
          user := Some(data);
        case Rejected(_) =>
          browser.storage := browser.storage - {TokenKey};
          user := None;
      }
      loading := false;
    }
  }
}
