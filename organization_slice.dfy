/** The organisation dashboard slice (src/features/organization/organizationSlice.tsx):
    the dashboard statistics, a loading flag and an error message, the two
    plain reducers and the cases of the statistics thunk. */
module OrganizationSlice {
  import opened Common
  import opened ErrorHandler

  datatype CaregiverCounts = CaregiverCounts(total: int, active: int, verified: int)

  datatype PatientCounts = PatientCounts(
    total: int, active: int, verified: int,
    activeMale: int, activeFemale: int, verifiedMale: int, verifiedFemale: int)

  /** `DashboardStatistics`. */
  datatype DashboardStatistics = DashboardStatistics(caregivers: CaregiverCounts, patients: PatientCounts)

  /** `DashboardState`. */
  datatype DashboardState = DashboardState(statistics: Option<DashboardStatistics>, loading: bool, error: Option<string>)

  /** The rejected case's fallback when the action carries no usable payload. */
  const RejectedFallback := "Failed to fetch dashboard data"
  /** The thunk's rejection value when what was thrown is not an `Error`. */
  const ThunkFallback := "Error fetching dashboard data"

  /** `initialState`. */
  const InitialState := DashboardState(None, false, None)

  /** The actions the slice's reducer handles. */
  datatype Action =
    | ClearError
    | ResetOrganizationState
    | StatisticsPending
    | StatisticsFulfilled(statistics: DashboardStatistics)
    | StatisticsRejected(payload: Option<string>)

  /** The slice's reducer. Only `clearError` keeps the loading flag, which is
      raised only by the pending case; the statistics change only on reset
      or on a successful fetch; every case but the rejected one leaves no
      error behind. */
  function Reduce(s: DashboardState, a: Action): (r: DashboardState)
    ensures !a.ClearError? ==> (r.loading <==> a.StatisticsPending?)
    ensures a.ClearError? ==> r.loading == s.loading
    ensures r.statistics != s.statistics ==> a.ResetOrganizationState? || a.StatisticsFulfilled?
    ensures r.error.None? <==> !a.StatisticsRejected?
  {
    match a
    case ClearError => s.(error := None)
    case ResetOrganizationState => InitialState
    case StatisticsPending => s.(loading := true, error := None)
    case StatisticsFulfilled(stats) => s.(statistics := Some(stats), loading := false, error := None)
    case StatisticsRejected(payload) => s.(error := Some(OrElse(payload, RejectedFallback)), loading := false)
  }

  /** The body of `fetchOrganizationDashboardStatisticsData`, given what the
      statistics service returned or threw: how the thunk settles and the
      toasts `handleApiError` shows on the way. A thrown `Error` is rejected
      with its message, anything else with the thunk's fallback. */
  function FetchStatistics(service: Result<DashboardStatistics, Thrown>): (r: (ThunkResult<DashboardStatistics>, seq<string>))
    ensures service.Ok? ==> r == (Fulfilled(service.value), [])
    ensures service.Err? ==> r.0.RejectedWith? && r.0.payload.Some? && r.1 == Messages(service.error)
    ensures service.Err? && service.error.Thrown? && service.error.isErrorInstance ==>
      r.0.payload.value == service.error.message
    ensures service.Err? && !(service.error.Thrown? && service.error.isErrorInstance) ==>
      r.0.payload.value == ThunkFallback
  {
    match service
    case Ok(stats) => (Fulfilled(stats), [])
    case Err(e) =>
      var errorMessage := if e.Thrown? && e.isErrorInstance then e.message else ThunkFallback;
      (RejectedWith(Some(errorMessage)), Messages(e))
  }

  /** The action that settles a thunk run. */
  function Settle(r: ThunkResult<DashboardStatistics>): Action {
    match r
    case Fulfilled(stats) => StatisticsFulfilled(stats)
    case RejectedWith(payload) => StatisticsRejected(payload)
  }

  /** A whole dispatch of the thunk: pending, then fulfilled or rejected. */
  function RunFetch(s: DashboardState, service: Result<DashboardStatistics, Thrown>): DashboardState {
    Reduce(Reduce(s, StatisticsPending), Settle(FetchStatistics(service).0))
  }

  /** The slice's state in the store. */
  class OrganizationStore {
    var statistics: Option<DashboardStatistics>
    var loading: bool
    var error: Option<string>

    function State(): DashboardState
      reads this
    {
      DashboardState(statistics, loading, error)
    }

    constructor ()
      ensures State() == InitialState
    {
      statistics, loading, error := None, false, None;
    }

    /** `dispatch(action)`: the case reducers assign fields of the draft in
        place; `resetOrganizationState` returns `initialState`. */
    method Dispatch(a: Action)
      modifies this
      ensures State() == Reduce(old(State()), a)
    {
      match a
      case ClearError =>
        error := None;
      case ResetOrganizationState =>
        statistics, loading, error := InitialState.statistics, InitialState.loading, InitialState.error;
      case StatisticsPending =>
        loading := true;
        error := None;
      case StatisticsFulfilled(stats) =>
        statistics := Some(stats);
        loading := false;
        error := None;
      case StatisticsRejected(payload) =>
        error := Some(OrElse(payload, RejectedFallback));
        loading := false;
    }

    /** `dispatch(fetchOrganizationDashboardStatisticsData())`, given the
        service's outcome; returns the toasts shown. */
    method FetchDashboardStatistics(service: Result<DashboardStatistics, Thrown>) returns (toasts: seq<string>)
      modifies this
      ensures State() == RunFetch(old(State()), service)
      ensures toasts == FetchStatistics(service).1
    {
      Dispatch(StatisticsPending);
      var (result, shown) := FetchStatistics(service);
      toasts := shown;
      Dispatch(Settle(result));
    }
  }

  /** `resetOrganizationState` gives the initial state from any state, and
      `clearError` only clears the error. */
  lemma ResetAndClear(s: DashboardState)
    ensures Reduce(s, ResetOrganizationState) == InitialState
    ensures Reduce(s, ClearError).error == None
    ensures Reduce(s, ClearError).(error := s.error) == s
  {
  }

  /** A successful fetch stores the statistics, and leaves neither a
      loading flag nor an error behind. */
  lemma SuccessfulFetch(s: DashboardState, stats: DashboardStatistics)
    ensures RunFetch(s, Ok(stats)) == DashboardState(Some(stats), false, None)
  {
  }

  /** A failed fetch keeps the earlier statistics and always leaves a
      non-empty error: the `Error`'s message when it has one; the reducer's
      fallback when the `Error`'s message is empty (the thunk's payload `""`
      is falsy); the thunk's fallback for anything that is not an `Error`. */
  lemma FailedFetch(s: DashboardState, e: Thrown)
    ensures RunFetch(s, Err(e)).statistics == s.statistics
    ensures !RunFetch(s, Err(e)).loading
    ensures RunFetch(s, Err(e)).error.Some? && RunFetch(s, Err(e)).error.value != ""
    ensures e.Thrown? && e.isErrorInstance && e.message != "" ==> RunFetch(s, Err(e)).error == Some(e.message)
    ensures e.Thrown? && e.isErrorInstance && e.message == "" ==> RunFetch(s, Err(e)).error == Some(RejectedFallback)
    ensures !(e.Thrown? && e.isErrorInstance) ==> RunFetch(s, Err(e)).error == Some(ThunkFallback)
  {
  }
}
