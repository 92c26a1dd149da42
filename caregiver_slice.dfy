/** The caregiver slice (src/features/caregiver/caregiverSlice.ts): the
    organisation's caregivers with their pagination, and the cases of the
    fetch and invitation thunks. */
module CaregiverSlice {
  import opened Common
  import opened ErrorHandler

  /** A caregiver record, passed through unchanged. */
  datatype Caregiver = Caregiver(id: string, attributes: map<string, string>)

  datatype Pagination = Pagination(count: int, next: Option<string>, previous: Option<string>)

  /** The fetch thunk's fulfilled payload. */
  datatype CaregiverPage = CaregiverPage(results: seq<Caregiver>, count: int, next: Option<string>, previous: Option<string>)

  /** The caregiver service's paginated answer; fields the thunk does not
      copy are kept in `extra`. */
  datatype ServicePage = ServicePage(
    results: seq<Caregiver>, count: int, next: Option<string>, previous: Option<string>,
    extra: map<string, string>)

  /** The invitation endpoint's answer. */
  datatype Invitation = Invitation(invitationId: string, email: string, role: string, status: string)

  /** `CaregiverState`. */
  datatype CaregiverState = CaregiverState(
    allCaregivers: seq<Caregiver>, pagination: Pagination, loading: bool, hasFetched: bool, error: Option<string>)

  const FetchFailedMessage := "Error fetching caregivers"
  const InviteFailedMessage := "Failed to invite caregiver"

  /** `initialState`. */
  const InitialState := CaregiverState([], Pagination(0, None, None), false, false, None)

  /** The actions the slice's reducer handles. */
  datatype Action =
    | FetchPending
    | FetchFulfilled(page: CaregiverPage)
    | FetchRejected(payload: Option<string>)
    | InvitePending
    | InviteFulfilled(invitation: Invitation)
    | InviteRejected(payload: Option<string>)

  /** The slice's reducer. Loading is raised exactly by the pending cases;
      the list and pagination change only on a successful fetch, which also
      sets `hasFetched` for good; `error` changes only in the rejected cases
      and is never cleared. */
  function Reduce(s: CaregiverState, a: Action): (r: CaregiverState)
    ensures r.loading <==> a.FetchPending? || a.InvitePending?
    ensures !a.FetchFulfilled? ==> r.allCaregivers == s.allCaregivers && r.pagination == s.pagination
    ensures r.hasFetched <==> s.hasFetched || a.FetchFulfilled?
    ensures r.error != s.error ==> (a.FetchRejected? || a.InviteRejected?) && r.error.Some?
    ensures s.error.Some? ==> r.error.Some?
  {
    match a
    case FetchPending => s.(loading := true)
    case FetchFulfilled(p) =>
      s.(allCaregivers := p.results, pagination := Pagination(p.count, p.next, p.previous),
         loading := false, hasFetched := true)
    case FetchRejected(payload) => s.(loading := false, error := Some(OrElse(payload, FetchFailedMessage)))
    case InvitePending => s.(loading := true)
    case InviteFulfilled(_) => s.(loading := false)
    case InviteRejected(payload) => s.(error := Some(OrElse(payload, InviteFailedMessage)), loading := false)
  }

  /** The body of `fetchAllCaregiversInOrganization`, given what the service
      returned or threw: fulfilled with the four copied fields, or rejected
      with "Error fetching caregivers" after `handleApiError` showed its
      toasts. */
  function FetchAllCaregivers(service: Result<ServicePage, Thrown>): (r: (ThunkResult<CaregiverPage>, seq<string>))
    ensures service.Ok? ==>
      && r.0.Fulfilled? && r.1 == []
      && r.0.value.results == service.value.results && r.0.value.count == service.value.count
      && r.0.value.next == service.value.next && r.0.value.previous == service.value.previous
    ensures service.Err? ==> r == (RejectedWith(Some(FetchFailedMessage)), Messages(service.error))
  {
    match service
    case Ok(data) => (Fulfilled(CaregiverPage(data.results, data.count, data.next, data.previous)), [])
    case Err(e) => (RejectedWith(Some(FetchFailedMessage)), Messages(e))
  }

  /** The body of `sendInvitationToCaregiver`: fulfilled with the service's
      answer, or rejected with "Failed to invite caregiver". */
  function SendInvitation(service: Result<Invitation, Thrown>): (r: (ThunkResult<Invitation>, seq<string>))
    ensures service.Ok? ==> r == (Fulfilled(service.value), [])
    ensures service.Err? ==> r == (RejectedWith(Some(InviteFailedMessage)), Messages(service.error))
  {
    match service
    case Ok(inv) => (Fulfilled(inv), [])
    case Err(e) => (RejectedWith(Some(InviteFailedMessage)), Messages(e))
  }

  /** A whole dispatch of the fetch thunk: pending, then fulfilled or rejected. */
  function RunFetch(s: CaregiverState, service: Result<ServicePage, Thrown>): CaregiverState {
    var settled := match FetchAllCaregivers(service).0
      case Fulfilled(p) => FetchFulfilled(p)
      case RejectedWith(payload) => FetchRejected(payload);
    Reduce(Reduce(s, FetchPending), settled)
  }

  /** A whole dispatch of the invitation thunk. */
  function RunInvite(s: CaregiverState, service: Result<Invitation, Thrown>): CaregiverState {
    var settled := match SendInvitation(service).0
      case Fulfilled(inv) => InviteFulfilled(inv)
      case RejectedWith(payload) => InviteRejected(payload);
    Reduce(Reduce(s, InvitePending), settled)
  }

  /** The slice's state in the store. */
  class CaregiverStore {
    var allCaregivers: seq<Caregiver>
    var pagination: Pagination
    var loading: bool
    var hasFetched: bool
    var error: Option<string>

    function State(): CaregiverState
      reads this
    {
      CaregiverState(allCaregivers, pagination, loading, hasFetched, error)
    }

    constructor ()
      ensures State() == InitialState
    {
      allCaregivers := [];
      pagination := Pagination(0, None, None);
      loading, hasFetched, error := false, false, None;
    }

    /** `dispatch(action)`: the case reducers assign fields of the draft in place. */
    method Dispatch(a: Action)
      modifies this
      ensures State() == Reduce(old(State()), a)
    {
      match a
      case FetchPending =>
        loading := true;
      case FetchFulfilled(p) =>
        allCaregivers := p.results;
        pagination := Pagination(p.count, p.next, p.previous);
        loading := false;
        hasFetched := true;
      case FetchRejected(payload) =>
        loading := false;
        error := Some(OrElse(payload, FetchFailedMessage));
      case InvitePending =>
        loading := true;
      case InviteFulfilled(_) =>
        loading := false;
      case InviteRejected(payload) =>
        error := Some(OrElse(payload, InviteFailedMessage));
        loading := false;
    }

    /** `dispatch(fetchAllCaregiversInOrganization())`, given the service's
        outcome; returns the toasts shown. */
    method FetchAll(service: Result<ServicePage, Thrown>) returns (toasts: seq<string>)
      modifies this
      ensures State() == RunFetch(old(State()), service)
      ensures toasts == FetchAllCaregivers(service).1
    {
      Dispatch(FetchPending);
      var (result, shown) := FetchAllCaregivers(service);
      toasts := shown;
      match result
      case Fulfilled(p) => Dispatch(FetchFulfilled(p));
      case RejectedWith(payload) => Dispatch(FetchRejected(payload));
    }

    /** `dispatch(sendInvitationToCaregiver(data))`, given the service's
        outcome; returns the toasts shown. */
    method Invite(service: Result<Invitation, Thrown>) returns (toasts: seq<string>)
      modifies this
      ensures State() == RunInvite(old(State()), service)
      ensures toasts == SendInvitation(service).1
    {
      Dispatch(InvitePending);
      var (result, shown) := SendInvitation(service);
      toasts := shown;
      match result
      case Fulfilled(inv) => Dispatch(InviteFulfilled(inv));
      case RejectedWith(payload) => Dispatch(InviteRejected(payload));
    }
  }

  /** Fetch pending only raises `loading`. */
  lemma FetchPendingOnlyLoads(s: CaregiverState)
    ensures Reduce(s, FetchPending) == s.(loading := true)
  {
  }

  /** A successful fetch replaces the list and the pagination with the
      service's, ends loading and marks the list fetched, but does not reset
      `error`: an earlier failure's message survives a later success. */
  lemma SuccessfulFetch(s: CaregiverState, data: ServicePage)
    ensures RunFetch(s, Ok(data)).allCaregivers == data.results
    ensures RunFetch(s, Ok(data)).pagination == Pagination(data.count, data.next, data.previous)
    ensures !RunFetch(s, Ok(data)).loading && RunFetch(s, Ok(data)).hasFetched
    ensures RunFetch(s, Ok(data)).error == s.error
  {
  }

  /** A failed fetch keeps the list, the pagination and `hasFetched`, ends
      loading and records "Error fetching caregivers". */
  lemma FailedFetch(s: CaregiverState, e: Thrown)
    ensures RunFetch(s, Err(e)) == s.(loading := false, error := Some(FetchFailedMessage))
  {
  }

  /** The rejected case falls back to its own message when the action has no
      truthy payload. */
  lemma RejectedFallbacks(s: CaregiverState, payload: Option<string>)
    ensures Reduce(s, FetchRejected(payload)).error == Some(if Truthy(payload) then payload.value else FetchFailedMessage)
    ensures Reduce(s, InviteRejected(payload)).error == Some(if Truthy(payload) then payload.value else InviteFailedMessage)
  {
  }

  /** An invitation run only toggles `loading`, and on failure records
      "Failed to invite caregiver"; the list is never touched. */
  lemma InviteRun(s: CaregiverState, service: Result<Invitation, Thrown>)
    ensures service.Ok? ==> RunInvite(s, service) == s.(loading := false)
    ensures service.Err? ==> RunInvite(s, service) == s.(loading := false, error := Some(InviteFailedMessage))
  {
  }
}
