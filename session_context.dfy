/** The session manager of the TypeScript client (frontend/src/contexts/AuthContext.tsx): the
    current user, the loading flag, and the tokens and user snapshot kept in browser storage. */
module SessionContext {
  import opened Wrappers
  import opened ApiClient

  /** JSON.stringify and JSON.parse for the user record; parse gives None where JSON.parse throws. */
  datatype UserCodec = UserCodec(serialize: User -> string, parse: string -> Option<User>)

  /** What JSON provides: a serialised user parses back to itself and is never the empty string. */
  ghost predicate RoundTrips(c: UserCodec)
  {
    forall u: User :: c.parse(c.serialize(u)) == Some(u) && c.serialize(u) != ""
  }

  /** The provider's state: browser storage, the in-memory user, and the loading flag. */
  datatype Session = Session(storage: Storage, user: Option<User>, loading: bool)

  /** A provider freshly mounted over the given storage, as after a page reload. */
  function Mounted(storage: Storage): Session
  {
    Session(storage, None, true)
  }

  /** clearTokens: the three keys are removed and the user is dropped. */
  function Cleared(s: Session): Session
  {
    s.(storage := s.storage - {AccessKey, RefreshKey, UserDataKey}, user := None)
  }

  /** The mount effect: with a stored token and a stored user snapshot, the snapshot becomes the
      user, or, when it does not parse, everything is cleared; loading ends either way. */
  function Initialized(s: Session, c: UserCodec): Session
  {
    var token := GetItem(s.storage, AccessKey);
    var saved := GetItem(s.storage, UserDataKey);
    if Truthy(token) && Truthy(saved) then
      match c.parse(saved.value)
      case Some(u) => s.(user := Some(u), loading := false)
      case None => Cleared(s).(loading := false)
    else s.(loading := false)
  }

  /** A successful login: both tokens and the serialised user are stored and the user is set. */
  function LoggedIn(s: Session, reply: LoginReply, c: UserCodec): Session
  {
    s.(storage := s.storage[AccessKey := reply.access][RefreshKey := reply.refresh][UserDataKey := c.serialize(reply.user)],
       user := Some(reply.user))
  }

  /** The three outcomes of the mount effect, and loading is false after it in every case. */
  lemma InitializedSpec(s: Session, c: UserCodec)
    ensures !Initialized(s, c).loading
    ensures var restorable := Truthy(GetItem(s.storage, AccessKey)) && Truthy(GetItem(s.storage, UserDataKey));
      && (restorable && c.parse(s.storage[UserDataKey]).Some? ==>
            Initialized(s, c).user == c.parse(s.storage[UserDataKey]) && Initialized(s, c).storage == s.storage)
      && (restorable && c.parse(s.storage[UserDataKey]).None? ==>
            Initialized(s, c).user.None? &&
            Initialized(s, c).storage == s.storage - {AccessKey, RefreshKey, UserDataKey})
      && (!restorable ==> Initialized(s, c).storage == s.storage && Initialized(s, c).user == s.user)
  {
  }

  /** Logging out leaves none of the three keys and no user, whatever the state before; a second
      logout changes nothing. */
  lemma LogoutIdempotent(s: Session)
    ensures AccessKey !in Cleared(s).storage && RefreshKey !in Cleared(s).storage && UserDataKey !in Cleared(s).storage
    ensures Cleared(s).user.None?
    ensures Cleared(Cleared(s)) == Cleared(s)
  {
  }

  /** Login, then a page reload: the mount effect restores exactly the user the login returned, and
      storage is left as the login wrote it. */
  lemma {:induction false} RestoreAfterLogin(s: Session, reply: LoginReply, c: UserCodec)
    requires RoundTrips(c)
    requires reply.access != ""
    ensures Initialized(Mounted(LoggedIn(s, reply, c).storage), c).user == Some(reply.user)
    ensures Initialized(Mounted(LoggedIn(s, reply, c).storage), c).storage == LoggedIn(s, reply, c).storage
  {
    var stored := LoggedIn(s, reply, c).storage;
    assert stored[UserDataKey] == c.serialize(reply.user);
    assert stored[AccessKey] == reply.access;
    assert c.parse(c.serialize(reply.user)) == Some(reply.user) && c.serialize(reply.user) != "";
  }

  /** Logout, then a page reload: nobody is restored. */
  lemma LogoutSurvivesReload(s: Session, c: UserCodec)
    ensures Initialized(Mounted(Cleared(s).storage), c).user.None?
  {
  }

  /** AuthProvider: the state the provider keeps, with the operations it hands to its consumers. */
  class AuthProvider {
    var storage: Storage
    var user: Option<User>
    var loading: bool
    const codec: UserCodec

    function State(): Session
      reads this
    {
      Session(storage, user, loading)
    }

    /** Mounting: no user yet, loading, over whatever storage holds. */
    constructor (persisted: Storage, codec: UserCodec)
      ensures State() == Mounted(persisted) && this.codec == codec
    {
      storage := persisted;
      user := None;
      loading := true;
      this.codec := codec;
    }

    method ClearTokens()
      modifies this
      ensures State() == Cleared(old(State()))
    {
      storage := storage - {AccessKey};
      storage := storage - {RefreshKey};
      storage := storage - {UserDataKey};
      user := None;
    }

    /** The mount effect. */
    method Initialize()
      modifies this
      ensures State() == Initialized(old(State()), codec)
    {
      var token := GetItem(storage, AccessKey);
      var saved := GetItem(storage, UserDataKey);
      if Truthy(token) && Truthy(saved) {
        var parsed := codec.parse(saved.value);
        if parsed.Some? {
          user := parsed;
        } else {
          ClearTokens();
        }
      }
      loading := false;
    }

    /** login: reply is what apiClient.login produced; when it threw, the error propagates and
        nothing is written. */
    method Login(username: string, password: string, reply: Result<LoginReply, Thrown>) returns (r: Result<(), Thrown>)
      modifies this
      ensures reply.Err? ==> r == Err(reply.error) && State() == old(State())
      ensures reply.Ok? ==> r == Ok(()) && State() == LoggedIn(old(State()), reply.value, codec)
    {
      if reply.Err? {
        return Err(reply.error);
      }
      var response := reply.value;
      storage := storage[AccessKey := response.access];
      storage := storage[RefreshKey := response.refresh];
      storage := storage[UserDataKey := codec.serialize(response.user)];
      user := Some(response.user);
      r := Ok(());
    }

    method Logout()
      modifies this
      ensures State() == Cleared(old(State()))
    {
      ClearTokens();
    }

    /** register: forwards the form; outcome is what apiClient.register produced. Neither storage
        nor the user changes. */
    method Register(form: RegistrationForm, outcome: Result<(), Thrown>) returns (sent: ApiCall, r: Result<(), Thrown>)
      ensures sent == ApiCall.Register(form) && r == outcome
    {
      sent := ApiCall.Register(form);
      r := outcome;
    }
  }
}
