# UniversityBooking in Dafny

UniversityBooking is a room-booking system for a university. A Django REST backend keeps
buildings, rooms and bookings. Two React front ends sit on top of it: a TypeScript one, built on
`utils/api.ts` and `contexts/AuthContext.tsx`, and an older JavaScript one, built on
`context/AuthContext.js` and axios.

This project models:

- **The booking backend:**
  - the booking, room and role records (`Accounts`, `Models`);
  - the serializer's interval and overlap validation (`Serializers`);
  - the viewsets (`Views`): permissions, the per-user querysets, and a `BookingTable` class that
    holds the booking rows and implements create, update, approve, reject and cancel.
- **The HTTP client** (`ApiClient`): how request headers are assembled, how error messages are
  formed, the endpoint each operation calls, and the refresh request.
- **The two session managers** (`SessionContext`, `LegacySessionContext`). Each has a class
  holding its user and loading flag, over a browser storage modelled as a map. Each class is
  proved against pure state functions.
- **The pages and components:**
  - the rooms filter (`RoomsPage`);
  - the two booking lists (`BookingsComponent`, `BookingsPage`);
  - the admin page (`AdminPage`);
  - the two registration forms (`RegisterComponent`, `RegisterPage`);
  - the dashboard tabs (`Dashboard`).

Generic helpers are in three modules:

- `Wrappers`: `Option` and `Result`.
- `Seqs`: an order-preserving filter and the subsequence relation.
- `Text`: decimal rendering, with its parse round trip, and substring search.

## Modelling choices

- **Calls to other code become parameters.** Network round trips, the clock, `confirm()` dialogs
  and `JSON.stringify`/`JSON.parse` are all parameters. Replies and outcomes are `Result` values.
  A time is an `int`.
- **Browser storage.** `localStorage` is a `map<string, string>`. `getItem` returns `Option`. A
  stored value counts as truthy when it is present and not the empty string.
- **Database ids.** The booking table hands out ids from a counter, `nextId`, that starts at 1.
- **Each handler is one step.** A handler runs as a single method from its start to its last
  `await`. The model states what holds once it returns.
- **`get_object` is a lookup in the requester's queryset.** A user with the admin role sees every
  booking; anyone else sees only their own. Two consequences follow:
  - The 403 refusal in the cancel action can never fire. A stranger's cancel ends in 404 before
    that check is reached (`Views.CancelRefusalUnreachable`).
  - Approve and reject need the `is_staff` flag (`IsAdminUser`). A staff account without the admin
    role gets 404 on everyone else's bookings.

### What the code does not check

- **Status changes are not guarded.** Approve, reject and cancel set the new status whatever the
  old one was; backend/booking/views.py compares no status before saving.
- **Mounting clears nothing that is missing.** Without a stored token or user snapshot, the mount
  effect of contexts/AuthContext.tsx leaves storage as it is. It clears the keys only when the
  snapshot fails to parse.
- **Authorization header scheme.** utils/api.ts sends `JWT <token>`.
- **The pending tab is not filtered.** The admin page requests `bookings/?status=pending`, but
  the bookings view reads no `status` parameter. The tab therefore lists bookings of every status
  (`AdminPage.PendingTabListsEveryStatus`).
- **Bookings are sent with nested rooms.** The booking serializer sends `room` as a nested
  object, so the client's booking lists are modelled as `Serializers.Representation`, which
  carries the room itself.

## Model

| member | source | states |
|---|---|---|
| Accounts.RoleNameRoundTrip | backend/account/models.py:5-12 | the four roles have distinct stored names that parse back to the same role; no other name parses |
| Models.StatusNameRoundTrip | backend/booking/models.py:39-44 | the four statuses have distinct stored names that parse back to the same status |
| Models.InsertRoom | backend/booking/models.py:32-33 | inserting a room whose (building, number) pair is taken fails with an integrity error and leaves the table unchanged; otherwise the room is appended and numbers stay unique per building |
| Models.NewBooking | backend/booking/models.py:51-53 | a new booking starts in the default status (pending), with created_at and updated_at both set to the moment of creation |
| Models.Saved | backend/booking/models.py:52-53 | saving a booking refreshes updated_at and changes nothing else |
| Models.OrderByStartSorted | backend/booking/models.py:55-56 | the default ordering lists bookings by non-decreasing start time and is a permutation of the rows |
| Models.OrderByStartDistinct | backend/booking/models.py:55-56 | ordering a query never repeats a row: a query without repeated ids gives an ordered list without repeated ids |
| Serializers.ReadOnlyFieldsIgnored | backend/booking/serializers.py:35 | user, status, created_at and updated_at in a client payload have no effect on the data validated |
| Serializers.Validate | backend/booking/serializers.py:37-50 | validation succeeds exactly when start < end and no other booking of the same room overlaps the interval; on success the data is returned unchanged |
| Serializers.EmptyIntervalRejected | backend/booking/serializers.py:38-39 | an interval that ends at or before its start is refused with the end-before-start error, whatever the table holds |
| Serializers.ConflictRejected | backend/booking/serializers.py:41-48 | a valid interval that overlaps another booking of the same room is refused with the room-already-booked error |
| Serializers.TouchingIntervalsAdmitted | backend/booking/serializers.py:42-44 | a booking that starts exactly when another ends, or ends exactly when another starts, does not conflict |
| Serializers.OtherRoomsIgnored | backend/booking/serializers.py:41-42 | adding bookings of other rooms to the table never changes the verdict |
| Serializers.StatusIgnored | backend/booking/serializers.py:41-45 | the statuses of existing bookings never change the verdict: canceled and rejected bookings still block |
| Serializers.InstanceExcluded | backend/booking/serializers.py:45 | when an existing booking is edited, its own row is never a conflict |
| Views.PermissionRule | backend/booking/views.py:14-19 | GET, HEAD and OPTIONS are always allowed; every other method is allowed exactly for an authenticated superuser, and the admin role alone does not allow it |
| Views.RoomQuerysetSpec | backend/booking/views.py:31-36 | without a building_id every room is listed; with one, exactly the rooms of that building, in table order |
| Views.VisibleBookingsSpec | backend/booking/views.py:43-50 | the admin role sees every booking; anyone else sees exactly the bookings they own, unchanged |
| Views.OrderedVisible | backend/booking/views.py:43-50 | the requester's queryset in the default ordering holds each visible booking exactly once, sorted by start time |
| Views.ListBookings | backend/booking/views.py:39-50 | an anonymous requester gets 401 (IsAuthenticated); anyone else gets exactly their visible bookings (all of them for the admin role, their own otherwise), each once, sorted by start time; query parameters change nothing |
| Views.Lookup | backend/booking/views.py:57 | get_object finds a booking exactly when it exists and the requester has the admin role or owns it |
| Views.CancelRefusalUnreachable | backend/booking/views.py:71-76 | any booking get_object returns belongs to the requester, or the requester is an admin, so the 403 refusal cannot fire |
| Views.AdmittedInsertKeepsWellFormed | backend/booking/serializers.py:41-48 | storing a booking the serializer admitted keeps every room free of overlapping bookings |
| Views.AdmittedUpdateKeepsWellFormed | backend/booking/serializers.py:45 | replacing a booking with data admitted for that booking keeps every room free of overlapping bookings |
| Views.StatusChangeKeepsWellFormed | backend/booking/views.py:57-59 | changing a booking's status keeps the table free of overlaps |
| Views.BookingTable.constructor | backend/booking/views.py:39-40 | the empty booking table is well formed, and the first id it hands out is 1 |
| Views.BookingTable.List | backend/booking/views.py:39-50 | GET /bookings/: 401 for an anonymous requester, otherwise the requester's visible rows, each once, in start-time order |
| Views.BookingTable.Create | backend/booking/views.py:52-53 | anonymous requests get 401; a payload that fails validation gets 400 and changes nothing; otherwise exactly one new row is added, owned by the requester, pending, with the payload's room, interval and purpose; the no-overlap invariant is kept |
| Views.BookingTable.Update | backend/booking/serializers.py:37-50 | anonymous requests get 401; a booking outside the requester's queryset gets 404; data that fails validation (with the row itself excluded) gets 400; otherwise only that row changes, keeping its owner, status and created_at |
| Views.BookingTable.Approve | backend/booking/views.py:55-60 | 401 for anonymous requests, 403 without is_staff, 404 outside the queryset; otherwise the row becomes approved, whatever its status was, and no other row changes |
| Views.BookingTable.Reject | backend/booking/views.py:62-67 | 401 for anonymous requests, 403 without is_staff, 404 outside the queryset; otherwise the row becomes rejected, whatever its status was, and no other row changes |
| Views.BookingTable.Cancel | backend/booking/views.py:69-79 | 401 for anonymous requests, 404 outside the queryset; otherwise the row becomes canceled, whatever its status was, and no other row changes |
| ApiClient.DefaultHeaders | frontend/src/utils/api.ts:45-62 | without caller headers, a request carries the JSON content type, plus "JWT <token>" exactly when a non-empty access token is stored |
| ApiClient.CallerHeadersWin | frontend/src/utils/api.ts:55-62 | caller-supplied headers replace the merged ones entirely; method and body are the caller's |
| ApiClient.StatusErrorMessageSpec | frontend/src/utils/api.ts:67-73 | a non-ok response's error text is "<status>: " followed by the body's message, else its detail, else the fallback; an unparseable body gives the fallback |
| ApiClient.RequestOutcomeSpec | frontend/src/utils/api.ts:64-82 | ok responses succeed; non-ok responses throw the composed status error; a TypeError mentioning fetch becomes the network error; anything else thrown passes through unchanged |
| ApiClient.FailedToFetchIsNetworkError | frontend/src/utils/api.ts:77-79 | the browser's "Failed to fetch" TypeError becomes the network error message |
| ApiClient.ActionRouteRoundTrip | frontend/src/utils/api.ts:163-173 | the route of a booking action parses back to the same booking id and action |
| ApiClient.ActionRouteInjective | frontend/src/utils/api.ts:163-173 | distinct (booking, action) pairs never share a route |
| ApiClient.RoomsEndpointRoundTrip | frontend/src/utils/api.ts:134-137 | the server reads back exactly the building id the client asked for, except that 0 and undefined send no filter |
| ApiClient.RequestForSpec | frontend/src/utils/api.ts:97-173 | every operation except refresh keeps the default headers (JSON content type plus the stored token); the booking actions POST, with no body, to the base URL followed by /bookings/<id>/<action>/ |
| ApiClient.RefreshRequestSpec | frontend/src/utils/api.ts:114-127 | without a stored refresh token, refresh fails before any request is made; with one, it posts that token, carrying only the JSON content type and never the access token |
| SessionContext.InitializedSpec | frontend/src/contexts/AuthContext.tsx:41-63 | after mounting, loading is false; a token plus a parseable user snapshot restores that user; an unparseable snapshot clears the three keys and the user; otherwise nothing changes |
| SessionContext.LogoutIdempotent | frontend/src/contexts/AuthContext.tsx:33-39 | after logout none of the three keys remains and there is no user; a second logout changes nothing |
| SessionContext.RestoreAfterLogin | frontend/src/contexts/AuthContext.tsx:65-74 | login followed by a page reload restores exactly the user the login returned, leaving storage as the login wrote it |
| SessionContext.LogoutSurvivesReload | frontend/src/contexts/AuthContext.tsx:41-60 | logout followed by a page reload restores nobody |
| SessionContext.AuthProvider.constructor | frontend/src/contexts/AuthContext.tsx:30-31 | a freshly mounted provider has no user and is loading, over the persisted storage |
| SessionContext.AuthProvider.ClearTokens | frontend/src/contexts/AuthContext.tsx:33-39 | removes the access token, refresh token and user snapshot, and drops the user |
| SessionContext.AuthProvider.Initialize | frontend/src/contexts/AuthContext.tsx:41-63 | the state becomes the mount effect's result (see InitializedSpec) |
| SessionContext.AuthProvider.Login | frontend/src/contexts/AuthContext.tsx:65-74 | a successful reply stores both tokens and the serialised user and sets the user; a failure is passed on with the state unchanged |
| SessionContext.AuthProvider.Logout | frontend/src/contexts/AuthContext.tsx:76-78 | logout is clearTokens |
| SessionContext.AuthProvider.Register | frontend/src/contexts/AuthContext.tsx:80-82 | sends the form to the register endpoint, passes on its outcome, and changes no state |
| LegacySessionContext.LoadedSpec | frontend/src/context/AuthContext.js:10-25 | with a stored token, the profile fetched from users/me becomes the user, and a failed fetch logs out; without a token nothing is fetched; loading ends either way |
| LegacySessionContext.LegacyAuthProvider.constructor | frontend/src/context/AuthContext.js:7-8 | a freshly mounted provider has no user and is loading, over the persisted storage |
| LegacySessionContext.StorageFootprint | frontend/src/context/AuthContext.js:27-43 | login writes only the two tokens and logout removes only those two; no user snapshot is ever stored |
| LegacySessionContext.ReloadRefetches | frontend/src/context/AuthContext.js:10-33 | after login and a page reload, the user is whatever users/me returns, never a stored copy |
| LegacySessionContext.LegacyAuthProvider.LoadUser | frontend/src/context/AuthContext.js:11-22 | issues GET users/me/ exactly when a token is stored, and no request otherwise; the state becomes the loaded state |
| LegacySessionContext.LegacyAuthProvider.Login | frontend/src/context/AuthContext.js:27-33 | POSTs the username and password to auth/login/; on success, stores both tokens, sets the user and returns the reply data; on failure, changes nothing |
| LegacySessionContext.LegacyAuthProvider.Register | frontend/src/context/AuthContext.js:35-37 | POSTs the form, as it is, to auth/register/ and passes on the outcome, changing no state |
| LegacySessionContext.LegacyAuthProvider.Logout | frontend/src/context/AuthContext.js:39-43 | removes the two tokens and drops the user |
| RoomsPage.FilteredRoomsSpec | frontend/src/pages/RoomsPage.js:28-34 | a room is shown exactly when it matches every filter that is set; the result keeps the original order; each shown room appears as many times as in the input |
| RoomsPage.NarrowingNeverEnlarges | frontend/src/pages/RoomsPage.js:29-33 | filling in one more filter field, keeping the others, never shows a room that was hidden: the fields combine with "and" |
| BookingsComponent.StatusColorSpec | frontend/src/components/Bookings.tsx:59-72 | canceled bookings and unknown statuses get the same grey style; the other three statuses each get their own |
| BookingsComponent.StatusTextSpec | frontend/src/components/Bookings.tsx:74-87 | each known status gets its Russian label; an unknown status is shown as it is; both are read from the one label table |
| BookingsComponent.ButtonGating | frontend/src/components/Bookings.tsx:148-165 | approve and reject are offered only to the admin role, on pending bookings; cancel only on pending or approved bookings |
| BookingsComponent.BookingsPanel.constructor | frontend/src/components/Bookings.tsx:9-10 | the panel starts with no bookings and loading |
| BookingsComponent.BookingsPanel.LoadBookings | frontend/src/components/Bookings.tsx:17-26 | a successful fetch replaces the list; a failed one keeps it; loading ends either way |
| BookingsComponent.BookingsPanel.HandleCancel | frontend/src/components/Bookings.tsx:28-37 | nothing is sent unless the user confirms; after a confirmed cancel that succeeds, the list is reloaded; after one that fails, it is kept |
| BookingsComponent.BookingsPanel.HandleApprove | frontend/src/components/Bookings.tsx:39-46 | sends the approve action with no confirmation and reloads the list only if it succeeds |
| BookingsComponent.BookingsPanel.HandleReject | frontend/src/components/Bookings.tsx:48-57 | nothing is sent unless the user confirms; the list is reloaded only after a successful reject |
| BookingsPage.StatusTablesComplete | frontend/src/pages/BookingsPage.js:21-33 | both tables give every status an entry, and distinct statuses get distinct colours and distinct labels |
| BookingsPage.FindRoomSpec | frontend/src/pages/BookingsPage.js:93 | the room found is the first one whose id is strictly equal to the value looked up, and nothing is found when no room's id is |
| BookingsPage.RoomCellAsWrittenFallsBack | frontend/src/pages/BookingsPage.js:93 | with booking.room a nested room object, as the serializer sends it, the lookup never matches and the cell is handed the room object itself |
| BookingsPage.RoomCellSpec | frontend/src/pages/BookingsPage.js:93 | the corrected room column is the nested room's number; when the fetched rooms carry that room under its id, it is exactly what a lookup by id shows |
| BookingsPage.CancelButtonGating | frontend/src/pages/BookingsPage.js:107 | cancel is offered on pending bookings only, not on approved, rejected or canceled ones; after a successful cancel the booking no longer offers it, and no other booking changes |
| BookingsPage.MarkCanceledSpec | frontend/src/pages/BookingsPage.js:55-57 | after a cancel, every booking with that id shows as canceled, all others are unchanged, and the list keeps its length and order |
| BookingsPage.MyBookingsPage.constructor | frontend/src/pages/BookingsPage.js:36-37 | the page starts with no bookings and no rooms, before its mount fetch |
| BookingsPage.MyBookingsPage.FetchData | frontend/src/pages/BookingsPage.js:41-51 | the mount effect requests bookings/ and rooms/ together; both lists are set only when both succeed, and a failure leaves them unchanged |
| BookingsPage.MyBookingsPage.HandleCancel | frontend/src/pages/BookingsPage.js:53-58 | POSTs to bookings/<id>/cancel/ and, only if that succeeds, marks the booking canceled in the local list |
| AdminPage.WithoutBookingSpec | frontend/src/pages/AdminPage.js:52 | after approve or reject, the handled booking leaves the pending list and every other entry stays, in order; each remaining entry keeps its number of occurrences |
| AdminPage.AdminPageState.constructor | frontend/src/pages/AdminPage.js:29-32 | the page starts on tab 0, the pending-bookings tab that the first tab effect fetches, with all three lists empty |
| AdminPage.PendingTabListsEveryStatus | frontend/src/pages/AdminPage.js:37 | for an admin, the first tab's status=pending query returns the same list as no query at all: every booking, so any booking that is not pending appears in it; any query gives the same list |
| AdminPage.AdminPageState.FetchTab | frontend/src/pages/AdminPage.js:34-48 | the tab effect (after mount, for tab 0, and after each tab change) requests the current tab's route and replaces only that tab's list; a failed fetch changes nothing |
| AdminPage.AdminPageState.SelectTab | frontend/src/pages/AdminPage.js:48 | choosing the tab already shown requests nothing and changes nothing; choosing another tab runs the effect for it |
| AdminPage.AdminPageState.HandleApprove | frontend/src/pages/AdminPage.js:50-53 | POSTs to bookings/<id>/approve/ and, only if that succeeds, drops the booking from the pending list |
| AdminPage.AdminPageState.HandleReject | frontend/src/pages/AdminPage.js:55-58 | POSTs to bookings/<id>/reject/ and, only if that succeeds, drops the booking from the pending list |
| RegisterComponent.RegisterForm.constructor | frontend/src/components/Register.tsx:12-25 | the form starts empty with the student role; no error, not loading, not succeeded |
| RegisterComponent.RegisterForm.HandleSubmit | frontend/src/components/Register.tsx:35-54 | mismatched passwords show the mismatch message and send nothing; otherwise the form is sent; success is set, or the thrown Error's message is shown, with a generic message for non-Error values; loading ends false |
| RegisterPage.RoleOptionsSpec | frontend/src/pages/RegisterPage.js:22-26 | the form offers the student, teacher and staff roles, never admin, and defaults to student |
| RegisterPage.RegisterPageState.constructor | frontend/src/pages/RegisterPage.js:7-18 | the form starts with every text field empty and the student role, with no error and no navigation |
| RegisterPage.RegisterPageState.HandleSubmit | frontend/src/pages/RegisterPage.js:33-45 | mismatched passwords show the mismatch message and send nothing; success navigates to /login; a failure shows the response's message, or the generic one |
| Dashboard.TabsSpec | frontend/src/components/Dashboard.tsx:12-18 | the first tab is buildings, then bookings, and the admin tab is present exactly for the admin role |
| Dashboard.PanesSpec | frontend/src/components/Dashboard.tsx:72-74 | at most one pane shows: the active tab's, except that the admin pane needs the admin role as well; a shown pane's tab is always on the bar |

## Findings

| source | as written | input that shows it | evidently intended | confidence | as-written member | corrected member |
|---|---|---|---|---|---|---|
| frontend/src/pages/BookingsPage.js:93 | `rooms.find(r => r.id === booking.room)?.number`, falling back to `booking.room`, compares a room id with `booking.room`, which the booking serializer (backend/booking/serializers.py:24) sends as a nested room object | any booking, for example one whose room is room 3 with number "101": the find never matches, and the cell is handed the room object instead of "101" | show the booking's room number, `booking.room.number`, as AdminPage.js:89 does | not executed; high | BookingsPage.RoomCellAsWrittenFallsBack | BookingsPage.RoomCellSpec |

## Left out

- **Transport, ORM and database.** `fetch`, axios and Django's ORM are replaced by oracle
  parameters. The bodies of successful responses are not decoded, except for the login reply and
  the lists a page stores.
- **JSON.** It is a pair of functions, `SessionContext.UserCodec`. The round-trip property
  (`RoundTrips`) is a requirement on that pair, not proved about any real JSON. The model does not
  cover `JSON.parse` succeeding on text that is not a user, such as `null`.
- **Dates.** Date parsing and formatting (`dayjs`, `toLocaleString`) are left out. A time is an
  integer.
- **Query parameter parsing.** A non-numeric `building_id` is left out; the parameter is
  modelled as an optional natural number.
- **`Number()` coercion.** The coercion in the rooms filter is left out, so NaN comparisons are
  not modelled. A filter is either unset or holds a number.
- **DRF field machinery.** `PrimaryKeyRelatedField` lookups (a `room_id` naming no room),
  `max_length` limits and field type checks are left out. Only the custom `validate` hook and the
  read-only fields are modelled.
- **Default ModelViewSet actions.** retrieve, partial_update (PATCH) and destroy on bookings are
  not modelled. For buildings and rooms, only the permission rule and the room queryset are
  modelled; their create, update and delete views are not.
- **Concurrency.** `Promise.all` ordering, double submits and races are left out. In particular,
  two creates racing between validation and insert are not covered, so the no-overlap invariant
  holds only under serial execution.
- **Intermediate states and rendering.** The loading states inside an await, spinners, console
  logging and rendering in general are left out.
- **Other files.** Presentation-only files (ProfilePage, AdminPanel, Buildings, BookingModal,
  Login, LoginPage, BookingForm, RoomFilter, RoomCard, Navbar, the App and routes files) are not
  part of this model.
- **The legacy axios instance.** `service/axiosConfig` is not part of this model. Its base URL
  and interceptors are left out; the legacy handlers name only relative routes.
- Views.BookingTable.Update: models full replacement (PUT) of the writable fields only.
- ApiClient.RequestOutcomeSpec: an ok response's body is abstracted to success. A 2xx response
  whose body is not JSON (which makes `response.json()` throw) is not modelled.
- ApiClient.RoomsEndpointRoundTrip: the parse side accepts only the exact query string that
  getRooms builds. Other URLs the server would also accept are not modelled.
- **Nested objects in responses.** A booking's nested user object is not part of
  `Serializers.Representation`. A room's nested building object is represented by its id, the only
  field the pages read from it.
- ApiClient.StatusErrorMessageSpec: an error body's message and detail are strings or absent. A
  truthy value that is not a string (a number, an object) would be interpolated into the text, and
  this is not modelled. Neither is a body that parses to `null`, on which reading `error.message`
  throws a TypeError instead of composing the status message.
- RoomsPage.FilteredRoomsSpec: room types are an enumeration, so a type filter holding an
  unknown string is not modelled.
