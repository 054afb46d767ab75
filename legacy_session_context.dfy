/** The session manager of the JavaScript client (frontend/src/context/AuthContext.js): it keeps
    the two tokens in browser storage and fetches the current user from the server on mount
    instead of caching it. */
module LegacySessionContext {
  import opened Wrappers
  import opened ApiClient

  /** A failed axios request; responseMessage is err.response?.data?.message. */
  datatype AxiosError = AxiosError(responseMessage: Option<string>)

  /** A request made through the axios instance: method, route relative to its base URL, and body. */
  datatype AxiosCall = AxiosCall(httpMethod: string, route: string, body: Option<Payload>)

  const MeRequest: AxiosCall := AxiosCall("GET", "users/me/", None)

  datatype LegacySession = LegacySession(storage: Storage, user: Option<User>, isLoading: bool)

  function Mounted(storage: Storage): LegacySession
  {
    LegacySession(storage, None, true)
  }

  /** logout: both tokens removed, user dropped; the user_data key is not touched. */
  function LoggedOut(s: LegacySession): LegacySession
  {
    s.(storage := s.storage - {AccessKey, RefreshKey}, user := None)
  }

  /** loadUser: with a stored access token the user comes from users/me/, or a failure logs out;
      without one nothing is requested. isLoading ends false in every case. */
  function Loaded(s: LegacySession, me: Result<User, AxiosError>): LegacySession
  {
    if Truthy(GetItem(s.storage, AccessKey)) then
      match me
      case Ok(u) => s.(user := Some(u), isLoading := false)
      case Err(_) => LoggedOut(s).(isLoading := false)
    else s.(isLoading := false)
  }

  /** login: the two tokens are stored and the user is set; the user record is not persisted. */
  function LoggedIn(s: LegacySession, reply: LoginReply): LegacySession
  {
    s.(storage := s.storage[AccessKey := reply.access][RefreshKey := reply.refresh], user := Some(reply.user))
  }

  /** The outcomes of loadUser; isLoading is false after it in every case. */
  lemma LoadedSpec(s: LegacySession, me: Result<User, AxiosError>)
    ensures !Loaded(s, me).isLoading
    ensures !Truthy(GetItem(s.storage, AccessKey)) ==> Loaded(s, me).storage == s.storage && Loaded(s, me).user == s.user
    ensures Truthy(GetItem(s.storage, AccessKey)) && me.Ok? ==> Loaded(s, me).user == Some(me.value) && Loaded(s, me).storage == s.storage
    ensures Truthy(GetItem(s.storage, AccessKey)) && me.Err? ==>
      Loaded(s, me).user.None? && Loaded(s, me).storage == s.storage - {AccessKey, RefreshKey}
  {
  }

  /** Login writes the two tokens and leaves every other key, the user snapshot included, alone;
      logout removes the two tokens and leaves every other key alone, and doing it twice is doing it once. */
  lemma StorageFootprint(s: LegacySession, reply: LoginReply, key: string)
    requires key != AccessKey && key != RefreshKey
    ensures GetItem(LoggedIn(s, reply).storage, key) == GetItem(s.storage, key)
    ensures GetItem(LoggedOut(s).storage, key) == GetItem(s.storage, key)
    ensures LoggedIn(s, reply).storage[AccessKey] == reply.access && LoggedIn(s, reply).storage[RefreshKey] == reply.refresh
    ensures AccessKey !in LoggedOut(s).storage && RefreshKey !in LoggedOut(s).storage
    ensures LoggedOut(LoggedOut(s)) == LoggedOut(s)
  {
  }

  /** Login, then a page reload: the user is fetched again, so the session holds whatever users/me/
      returns, not what the login returned; a failed fetch logs out. */
  lemma ReloadRefetches(s: LegacySession, reply: LoginReply, me: Result<User, AxiosError>)
    requires reply.access != ""
    ensures me.Ok? ==> Loaded(Mounted(LoggedIn(s, reply).storage), me).user == Some(me.value)
    ensures me.Err? ==> Loaded(Mounted(LoggedIn(s, reply).storage), me).user.None?
  {
  }

  /** AuthProvider of the JavaScript client. */
  class LegacyAuthProvider {
    var storage: Storage
    var user: Option<User>
    var isLoading: bool

    function State(): LegacySession
      reads this
    {
      LegacySession(storage, user, isLoading)
    }

    constructor (persisted: Storage)
      ensures State() == Mounted(persisted)
    {
      storage := persisted;
      user := None;
      isLoading := true;
    }

    /** The mount effect. me is what GET users/me/ would produce; requested is the request made,
        None when none is. */
    method LoadUser(me: Result<User, AxiosError>) returns (requested: Option<AxiosCall>)
      modifies this
      ensures requested == if Truthy(GetItem(old(storage), AccessKey)) then Some(MeRequest) else None
      ensures State() == Loaded(old(State()), me)
    {
      var token := GetItem(storage, AccessKey);
      requested := if Truthy(token) then Some(MeRequest) else None;
      if requested.Some? {
        if me.Ok? {
          user := Some(me.value);
        } else {
          Logout();
        }
      }
      isLoading := false;
    }

    /** login: reply is what POST auth/login/ produced; its data is handed back to the caller. */
    method Login(username: string, password: string, reply: Result<LoginReply, AxiosError>)
      returns (sent: AxiosCall, r: Result<LoginReply, AxiosError>)
      modifies this
      ensures sent == AxiosCall("POST", "auth/login/", Some(Credentials(username, password)))
      ensures r == reply
      ensures reply.Err? ==> State() == old(State())
      ensures reply.Ok? ==> State() == LoggedIn(old(State()), reply.value)
    {
      sent := AxiosCall("POST", "auth/login/", Some(Credentials(username, password)));
      if reply.Err? {
        return sent, reply;
      }
      storage := storage[AccessKey := reply.value.access];
      storage := storage[RefreshKey := reply.value.refresh];
      user := Some(reply.value.user);
      r := reply;
    }

    /** register: posts the form as it is to auth/register/ and passes on the outcome; neither
        tokens nor user change. */
    method Register(form: RegistrationForm, outcome: Result<(), AxiosError>) returns (sent: AxiosCall, r: Result<(), AxiosError>)
      ensures sent == AxiosCall("POST", "auth/register/", Some(Registration(form)))
      ensures r == outcome
    {
      sent := AxiosCall("POST", "auth/register/", Some(Registration(form)));
      r := outcome;
    }

    method Logout()
      modifies this
      ensures State() == LoggedOut(old(State()))
    {
      storage := storage - {AccessKey};
      storage := storage - {RefreshKey};
      user := None;
    }
  }
}
