/** The client's REST wrapper (frontend/src/utils/api.ts): the records it exchanges, how it builds
    endpoints, headers and request configurations, and how it turns failures into errors. */
module ApiClient {
  import opened Wrappers
  import opened Text
  import opened Accounts

  const BaseUrl: string := "http://127.0.0.1:8000/api"

  /** Browser storage: key to stored string. */
  type Storage = map<string, string>
  type Headers = map<string, string>

  const AccessKey: string := "access_token"
  const RefreshKey: string := "refresh_token"
  const UserDataKey: string := "user_data"

  /** localStorage.getItem: the stored string, or null (None) when the key is absent. */
  function GetItem(storage: Storage, key: string): Option<string>
  {
    if key in storage then Some(storage[key]) else None
  }

  /** JavaScript truthiness of a string-or-null: present and non-empty. */
  predicate Truthy(v: Option<string>)
  {
    v.Some? && v.value != ""
  }

  /** The account record the server sends. */
  datatype User = User(
    id: nat,
    username: string,
    email: string,
    firstName: string,
    lastName: string,
    role: Role,
    phone: Option<string>,
    department: Option<string>)

  /** The signed-in user has the admin role (user?.role === "admin"). */
  predicate IsAdmin(user: Option<User>)
  {
    user.Some? && user.value.role == Admin
  }

  /** The registration form, sent as is (password confirmation included). */
  datatype RegistrationForm = RegistrationForm(
    username: string,
    password: string,
    password2: string,
    email: string,
    firstName: string,
    lastName: string,
    role: Role,
    phone: string,
    department: string)

  /** What a successful login returns. */
  datatype LoginReply = LoginReply(access: string, refresh: string, user: User)

  /** The JSON bodies the client sends. */
  datatype Payload =
    | Credentials(username: string, password: string)
    | Registration(form: RegistrationForm)
    | RefreshGrant(refresh: string)
    | NewBuilding(name: string, address: string)
    | NewBookingRequest(roomId: nat, startTime: int, endTime: int, purpose: string)

  /** fetch options as a caller passes them; None stands for a property the caller leaves out. */
  datatype RequestOptions = RequestOptions(httpMethod: Option<string>, headers: Option<Headers>, body: Option<Payload>)

  /** The configuration handed to fetch. */
  datatype RequestConfig = RequestConfig(httpMethod: Option<string>, headers: Headers, body: Option<Payload>)

  const JsonContentType: Headers := map["Content-Type" := "application/json"]

  /** getAuthHeaders: an Authorization header carrying the stored access token, when there is one. */
  function AuthHeaders(storage: Storage): Headers
  {
    var token := GetItem(storage, AccessKey);
    if Truthy(token) then map["Authorization" := "JWT " + token.value] else map[]
  }

  /** request()'s URL: the base URL followed by the endpoint. */
  function Url(endpoint: string): string
  {
    BaseUrl + endpoint
  }

  /** The config request() builds: JSON content type, then the auth headers, then the caller's
      headers, each overriding the one before; then the caller's options are spread over the whole,
      so a caller's own headers object replaces the merged one. */
  function Configure(storage: Storage, options: RequestOptions): RequestConfig
  {
    var callerHeaders := if options.headers.Some? then options.headers.value else map[];
    var merged := JsonContentType + AuthHeaders(storage) + callerHeaders;
    RequestConfig(options.httpMethod, if options.headers.Some? then options.headers.value else merged, options.body)
  }

  /** Without caller headers the request carries the JSON content type, and an Authorization header
      exactly when a non-empty access token is stored, namely "JWT " followed by the token. */
  lemma DefaultHeaders(storage: Storage, options: RequestOptions)
    requires options.headers.None?
    ensures var h := Configure(storage, options).headers;
      && h["Content-Type"] == "application/json"
      && ("Authorization" in h <==> Truthy(GetItem(storage, AccessKey)))
      && ("Authorization" in h ==> h["Authorization"] == "JWT " + storage[AccessKey])
      && h.Keys <= {"Content-Type", "Authorization"}
  {
  }

  /** With caller headers the request carries exactly those: stored tokens and the JSON content type
      are dropped. Method and body are the caller's either way. */
  lemma CallerHeadersWin(storage: Storage, options: RequestOptions)
    requires options.headers.Some?
    ensures Configure(storage, options).headers == options.headers.value
    ensures Configure(storage, options).httpMethod == options.httpMethod
    ensures Configure(storage, options).body == options.body
  {
  }

  /** What may be thrown: a TypeError, any other Error, or a value that is not an Error at all. */
  datatype Thrown = TypeError(message: string) | Error(message: string) | NonError

  /** The fields of a parsed error body that request() looks at: a string, or None for a field that
      is missing or holds null, undefined or another falsy value. */
  datatype ErrorBody = ErrorBody(message: Option<string>, detail: Option<string>)

  function FallbackMessage(status: nat): string
  {
    "HTTP error! status: " + DecimalString(status)
  }

  /** The error text for a non-ok response: the status, then the body's message, else its detail,
      else the fallback; an unparseable body (None) counts as one carrying the fallback message. */
  function StatusErrorMessage(status: nat, body: Option<ErrorBody>): string
  {
    var e := if body.Some? then body.value else ErrorBody(Some(FallbackMessage(status)), None);
    var msg :=
      if Truthy(e.message) then e.message.value
      else if Truthy(e.detail) then e.detail.value
      else FallbackMessage(status);
    DecimalString(status) + ": " + msg
  }

  /** The error text always starts with the status; the message wins over the detail, the detail
      over the fallback, and an unparseable body gives the fallback. */
  lemma StatusErrorMessageSpec(status: nat, body: Option<ErrorBody>)
    ensures var m := StatusErrorMessage(status, body);
      && m[..|DecimalString(status)| + 2] == DecimalString(status) + ": "
      && (body.Some? && Truthy(body.value.message) ==> m == DecimalString(status) + ": " + body.value.message.value)
      && (body.Some? && !Truthy(body.value.message) && Truthy(body.value.detail) ==>
            m == DecimalString(status) + ": " + body.value.detail.value)
      && (body.None? || (!Truthy(body.value.message) && !Truthy(body.value.detail)) ==>
            m == DecimalString(status) + ": " + FallbackMessage(status))
  {
    var m := StatusErrorMessage(status, body);
    assert m == (DecimalString(status) + ": ") + m[|DecimalString(status)| + 2..];
  }

  const NetworkErrorMessage: string := "Network error: Unable to connect to server"

  /** request()'s catch: a TypeError whose message mentions fetch becomes the network error;
      anything else is rethrown as it was. */
  function Rethrown(e: Thrown): Thrown
  {
    if e.TypeError? && Contains(e.message, "fetch") then Error(NetworkErrorMessage) else e
  }

  /** What the transport produced: fetch itself threw, or a response came back. */
  datatype Transport = Unreachable(cause: Thrown) | Answered(ok: bool, status: nat, body: Option<ErrorBody>)

  /** request()'s outcome for a transport result. The body of an ok response is not modelled. */
  function RequestOutcome(t: Transport): Result<(), Thrown>
  {
    match t
    case Unreachable(cause) => Err(Rethrown(cause))
    case Answered(ok, status, body) =>
      if ok then Ok(()) else Err(Rethrown(Error(StatusErrorMessage(status, body))))
  }

  /** A non-ok response reaches the caller as an Error with the composed status message; a fetch
      TypeError mentioning fetch becomes the network error; every other thrown value passes unchanged. */
  lemma RequestOutcomeSpec(t: Transport)
    ensures t.Answered? && t.ok ==> RequestOutcome(t) == Ok(())
    ensures t.Answered? && !t.ok ==> RequestOutcome(t) == Err(Error(StatusErrorMessage(t.status, t.body)))
    ensures t.Unreachable? && t.cause.TypeError? && Contains(t.cause.message, "fetch") ==>
      RequestOutcome(t) == Err(Error(NetworkErrorMessage))
    ensures t.Unreachable? && !(t.cause.TypeError? && Contains(t.cause.message, "fetch")) ==>
      RequestOutcome(t) == Err(t.cause)
  {
  }

  /** The browser's own message for an unreachable server is turned into the network error. */
  lemma FailedToFetchIsNetworkError()
    ensures RequestOutcome(Unreachable(TypeError("Failed to fetch"))) == Err(Error(NetworkErrorMessage))
  {
    ContainsConcat("Failed to ", "fetch", "");
    assert "Failed to " + "fetch" + "" == "Failed to fetch";
  }

  datatype BookingAction = ApproveAction | RejectAction | CancelAction

  function ActionName(a: BookingAction): string
  {
    match a
    case ApproveAction => "approve"
    case RejectAction => "reject"
    case CancelAction => "cancel"
  }

  /** bookings/<id>/<action>/, the route of a booking action below the API root. */
  function BookingActionRoute(id: nat, a: BookingAction): string
  {
    "bookings/" + DecimalString(id) + "/" + ActionName(a) + "/"
  }

  /** The endpoint approveBooking, rejectBooking and cancelBooking request. */
  function ActionEndpoint(id: nat, a: BookingAction): string
  {
    "/" + BookingActionRoute(id, a)
  }

  /** The longest prefix of s made of decimal digits. */
  function DigitPrefix(s: string): (d: string)
    ensures |d| <= |s| && d == s[..|d|]
    ensures forall i :: 0 <= i < |d| ==> IsDigit(d[i])
  {
    if s != [] && IsDigit(s[0]) then [s[0]] + DigitPrefix(s[1..]) else []
  }

  lemma {:induction false} DigitPrefixOfDigits(d: string, t: string)
    requires forall i :: 0 <= i < |d| ==> IsDigit(d[i])
    requires t == [] || !IsDigit(t[0])
    ensures DigitPrefix(d + t) == d
  {
    if d != [] {
      assert (d + t)[1..] == d[1..] + t;
      DigitPrefixOfDigits(d[1..], t);
    }
  }

  function ParseActionName(s: string): Option<BookingAction>
  {
    if s == "approve" then Some(ApproveAction)
    else if s == "reject" then Some(RejectAction)
    else if s == "cancel" then Some(CancelAction)
    else None
  }

  /** Reads "/<action>/" back into the action. */
  function ParseActionTail(tail: string): Option<BookingAction>
  {
    if |tail| < 2 || tail[0] != '/' || tail[|tail| - 1] != '/' then None
    else ParseActionName(tail[1..|tail| - 1])
  }

  lemma ActionTailRoundTrip(a: BookingAction)
    ensures ParseActionTail("/" + ActionName(a) + "/") == Some(a)
  {
    var tail := "/" + ActionName(a) + "/";
    assert tail[1..|tail| - 1] == ActionName(a);
  }

  /** How the server's router reads a booking action route back into its id and action. */
  function ParseBookingActionRoute(route: string): Option<(nat, BookingAction)>
  {
    var prefix := "bookings/";
    if |route| < |prefix| || route[..|prefix|] != prefix then None
    else
      var rest := route[|prefix|..];
      var digits := DigitPrefix(rest);
      if digits == [] then None
      else match ParseActionTail(rest[|digits|..])
        case None => None
        case Some(a) => Some((ParseDecimal(digits), a))
  }

  /** Every action route is read back as the id and action it was built from. */
  lemma {:induction false} ActionRouteRoundTrip(id: nat, a: BookingAction)
    ensures ParseBookingActionRoute(BookingActionRoute(id, a)) == Some((id, a))
  {
    var digits := DecimalString(id);
    var tail := "/" + ActionName(a) + "/";
    var rest := digits + tail;
    var route := BookingActionRoute(id, a);
    assert route == "bookings/" + rest;
    assert route[..|"bookings/"|] == "bookings/";
    assert route[|"bookings/"|..] == rest;
    DigitPrefixOfDigits(digits, tail);
    assert rest[|digits|..] == tail;
    ActionTailRoundTrip(a);
    DecimalRoundTrip(id);
  }

  /** Distinct (id, action) pairs never share a route. */
  lemma ActionRouteInjective(id1: nat, a1: BookingAction, id2: nat, a2: BookingAction)
    requires BookingActionRoute(id1, a1) == BookingActionRoute(id2, a2)
    ensures id1 == id2 && a1 == a2
  {
    ActionRouteRoundTrip(id1, a1);
    ActionRouteRoundTrip(id2, a2);
  }

  /** getRooms: a truthy building id adds the building_id parameter; undefined and 0 do not. */
  function RoomsEndpoint(buildingId: Option<nat>): string
  {
    var query := if buildingId.Some? && buildingId.value != 0 then "?building_id=" + DecimalString(buildingId.value) else "";
    "/rooms/" + query
  }

  /** The building_id the server reads from a rooms endpoint (None: absent or empty). */
  function RoomsBuildingParam(endpoint: string): Option<nat>
  {
    var prefix := "/rooms/?building_id=";
    if |endpoint| <= |prefix| || endpoint[..|prefix|] != prefix then None
    else
      var rest := endpoint[|prefix|..];
      if forall i :: 0 <= i < |rest| ==> IsDigit(rest[i]) then Some(ParseDecimal(rest)) else None
  }

  /** The server filters by exactly the building the client asked for, except that a building id
      of 0 is sent as no filter at all. */
  lemma RoomsEndpointRoundTrip(buildingId: Option<nat>)
    ensures RoomsBuildingParam(RoomsEndpoint(buildingId)) ==
      if buildingId.Some? && buildingId.value != 0 then buildingId else None
  {
    if buildingId.Some? && buildingId.value != 0 {
      var e := RoomsEndpoint(buildingId);
      assert e == "/rooms/?building_id=" + DecimalString(buildingId.value);
      assert e[|"/rooms/?building_id="|..] == DecimalString(buildingId.value);
      DecimalRoundTrip(buildingId.value);
    }
  }

  /** The operations of the client. */
  datatype ApiCall =
    | Register(form: RegistrationForm)
    | Login(username: string, password: string)
    | GetUsers
    | GetBuildings
    | GetRooms(buildingId: Option<nat>)
    | CreateBuilding(name: string, address: string)
    | GetBookings
    | CreateBooking(roomId: nat, startTime: int, endTime: int, purpose: string)
    | Act(bookingId: nat, action: BookingAction)

  const NoOptions: RequestOptions := RequestOptions(None, None, None)

  /** The endpoint and options each operation passes to request(). */
  function RequestFor(call: ApiCall): (string, RequestOptions)
  {
    match call
    case Register(form) => ("/auth/register/", RequestOptions(Some("POST"), None, Some(Registration(form))))
    case Login(u, p) => ("/auth/login/", RequestOptions(Some("POST"), None, Some(Credentials(u, p))))
    case GetUsers => ("/auth/users/", NoOptions)
    case GetBuildings => ("/buildings/", NoOptions)
    case GetRooms(b) => (RoomsEndpoint(b), NoOptions)
    case CreateBuilding(n, a) => ("/buildings/", RequestOptions(Some("POST"), None, Some(NewBuilding(n, a))))
    case GetBookings => ("/bookings/", NoOptions)
    case CreateBooking(r, s, e, p) => ("/bookings/", RequestOptions(Some("POST"), None, Some(NewBookingRequest(r, s, e, p))))
    case Act(id, a) => (ActionEndpoint(id, a), RequestOptions(Some("POST"), None, None))
  }

  /** What fetch receives for an operation: the full URL and the configuration. */
  function Target(storage: Storage, call: ApiCall): (string, RequestConfig)
  {
    (Url(RequestFor(call).0), Configure(storage, RequestFor(call).1))
  }

  /** Every operation but refresh keeps the default headers, so it carries the stored access token;
      the booking actions POST, without a body, to <base>/bookings/<id>/<action>/. */
  lemma RequestForSpec(storage: Storage, call: ApiCall)
    ensures RequestFor(call).1.headers.None?
    ensures Target(storage, call).1.headers == JsonContentType + AuthHeaders(storage)
    ensures call.Act? ==>
      && Target(storage, call).0 == BaseUrl + "/bookings/" + DecimalString(call.bookingId) + "/" + ActionName(call.action) + "/"
      && Target(storage, call).1 == RequestConfig(Some("POST"), JsonContentType + AuthHeaders(storage), None)
  {
  }

  const NoRefreshTokenMessage: string := "No refresh token available"

  /** refreshToken: fails before any request when no refresh token is stored; otherwise posts it
      with its own headers. */
  function RefreshRequest(storage: Storage): Result<(string, RequestOptions), Thrown>
  {
    var token := GetItem(storage, RefreshKey);
    if !Truthy(token) then Err(Error(NoRefreshTokenMessage))
    else Ok(("/auth/refresh/", RequestOptions(Some("POST"), Some(JsonContentType), Some(RefreshGrant(token.value)))))
  }

  /** Without a stored refresh token no request is built; with one, the refresh request carries only
      the JSON content type (never the access token) and posts the stored refresh token. */
  lemma RefreshRequestSpec(storage: Storage)
    ensures !Truthy(GetItem(storage, RefreshKey)) ==> RefreshRequest(storage) == Err(Error(NoRefreshTokenMessage))
    ensures Truthy(GetItem(storage, RefreshKey)) ==>
      && RefreshRequest(storage).Ok?
      && RefreshRequest(storage).value.0 == "/auth/refresh/"
      && Configure(storage, RefreshRequest(storage).value.1).headers == JsonContentType
      && Configure(storage, RefreshRequest(storage).value.1).body == Some(RefreshGrant(storage[RefreshKey]))
  {
  }
}
