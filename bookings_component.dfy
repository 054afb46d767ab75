/** The booking list of the TypeScript client (frontend/src/components/Bookings.tsx): status
    badges, which action buttons each booking offers, and the confirm-call-reload handlers. */
module BookingsComponent {
  import opened Wrappers
  import opened Accounts
  import opened Models
  import opened Serializers
  import opened ApiClient

  /** The badge colour of a status; an unknown status is drawn like a canceled one. */
  function StatusColor(status: string): string
  {
    if status == "pending" then "bg-yellow-100 text-yellow-800"
    else if status == "approved" then "bg-green-100 text-green-800"
    else if status == "rejected" then "bg-red-100 text-red-800"
    else if status == "canceled" then "bg-gray-100 text-gray-800"
    else "bg-gray-100 text-gray-800"
  }

  /** The badge text of each known status. */
  function StatusLabel(st: Status): string
  {
    match st
    case Pending => "Ожидает подтверждения"
    case Approved => "Подтверждено"
    case Rejected => "Отклонено"
    case Canceled => "Отменено"
  }

  /** The badge text of a status as received; an unknown status is shown as it is. */
  function StatusText(status: string): string
  {
    match ParseStatus(status)
    case Some(st) => StatusLabel(st)
    case None => status
  }

  /** Known statuses get their own label, unknown ones are shown verbatim. */
  lemma StatusTextSpec(status: string, st: Status)
    ensures StatusText(StatusName(st)) == StatusLabel(st)
    ensures ParseStatus(status).Some? ==> StatusText(status) == StatusLabel(ParseStatus(status).value)
    ensures ParseStatus(status).None? ==> StatusText(status) == status
  {
  }

  /** Pending, approved and rejected each get a colour of their own; canceled and every unknown
      status share the grey one. */
  lemma StatusColorSpec(status: string, st1: Status, st2: Status)
    ensures StatusColor(StatusName(st1)) == StatusColor(StatusName(st2)) <==> st1 == st2
    ensures ParseStatus(status).None? ==> StatusColor(status) == StatusColor(StatusName(Canceled))
  {
  }

  /** Approve and reject buttons: for an admin looking at a pending booking. */
  predicate OffersApproveReject(user: Option<User>, st: Status)
  {
    IsAdmin(user) && st == Pending
  }

  /** The cancel button: for a pending or approved booking, whoever looks at it. */
  predicate OffersCancel(st: Status)
  {
    st == Pending || st == Approved
  }

  /** Only an admin is offered approve and reject, and only on a pending booking; cancel is offered
      on every booking that is neither rejected nor canceled, to any user. */
  lemma ButtonGating(user: Option<User>, st: Status)
    ensures OffersApproveReject(user, st) ==> user.Some? && user.value.role == Admin && st == Pending
    ensures IsAdmin(user) && st == Pending ==> OffersApproveReject(user, st)
    ensures OffersCancel(st) <==> st != Rejected && st != Canceled
    ensures OffersApproveReject(user, st) ==> OffersCancel(st)
  {
  }

  /** The component's state: the bookings on screen and the loading flag. */
  class BookingsPanel {
    var bookings: seq<Representation>
    var loading: bool

    constructor ()
      ensures bookings == [] && loading
    {
      bookings := [];
      loading := true;
    }

    /** loadBookings: fetched is what getBookings produced; a failure is only logged. */
    method LoadBookings(fetched: Result<seq<Representation>, Thrown>)
      modifies this
      ensures !loading
      ensures bookings == if fetched.Ok? then fetched.value else old(bookings)
    {
      if fetched.Ok? {
        bookings := fetched.value;
      }
      loading := false;
    }

    /** Shared by the three handlers: the action's request, then on success a reload. */
    method ActThenReload(id: nat, action: BookingAction, outcome: Result<(), Thrown>, reload: Result<seq<Representation>, Thrown>)
      returns (sent: ApiCall)
      modifies this
      ensures sent == Act(id, action)
      ensures outcome.Err? ==> bookings == old(bookings) && loading == old(loading)
      ensures outcome.Ok? ==> !loading && bookings == if reload.Ok? then reload.value else old(bookings)
    {
      sent := Act(id, action);
      if outcome.Ok? {
        LoadBookings(reload);
      }
    }

    /** handleCancelBooking: nothing is requested unless the user confirms. */
    method HandleCancel(id: nat, confirmed: bool, outcome: Result<(), Thrown>, reload: Result<seq<Representation>, Thrown>)
      returns (sent: Option<ApiCall>)
      modifies this
      ensures !confirmed ==> sent.None? && bookings == old(bookings) && loading == old(loading)
      ensures confirmed ==> sent == Some(Act(id, CancelAction))
      ensures confirmed && outcome.Err? ==> bookings == old(bookings) && loading == old(loading)
      ensures confirmed && outcome.Ok? ==> !loading && bookings == if reload.Ok? then reload.value else old(bookings)
    {
      if !confirmed {
        return None;
      }
      var call := ActThenReload(id, CancelAction, outcome, reload);
      sent := Some(call);
    }

    /** handleApproveBooking: no confirmation is asked. */
    method HandleApprove(id: nat, outcome: Result<(), Thrown>, reload: Result<seq<Representation>, Thrown>)
      returns (sent: Option<ApiCall>)
      modifies this
      ensures sent == Some(Act(id, ApproveAction))
      ensures outcome.Err? ==> bookings == old(bookings) && loading == old(loading)
      ensures outcome.Ok? ==> !loading && bookings == if reload.Ok? then reload.value else old(bookings)
    {
      var call := ActThenReload(id, ApproveAction, outcome, reload);
      sent := Some(call);
    }

    /** handleRejectBooking: nothing is requested unless the user confirms. */
    method HandleReject(id: nat, confirmed: bool, outcome: Result<(), Thrown>, reload: Result<seq<Representation>, Thrown>)
      returns (sent: Option<ApiCall>)
      modifies this
      ensures !confirmed ==> sent.None? && bookings == old(bookings) && loading == old(loading)
      ensures confirmed ==> sent == Some(Act(id, RejectAction))
      ensures confirmed && outcome.Err? ==> bookings == old(bookings) && loading == old(loading)
      ensures confirmed && outcome.Ok? ==> !loading && bookings == if reload.Ok? then reload.value else old(bookings)
    {
      if !confirmed {
        return None;
      }
      var call := ActThenReload(id, RejectAction, outcome, reload);
      sent := Some(call);
    }
  }
}
