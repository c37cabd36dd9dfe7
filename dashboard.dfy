/** The dashboard data hook (useDashboard.ts): the summary figures and chart data, the
    loading flag and the error message, and `fetchDashboardData`, which asks for both
    together and keeps the previous values when either request fails. */
module DashboardData {
  import opened Common

  /** The `/dashboard/stats` reply. */
  datatype DashboardStats = DashboardStats(totalUsers: int, activeUsers: int, inactiveUsers: int, alertCases: int)

  /** The `/dashboard/charts` reply, which the hook passes on without looking inside. */
  datatype ChartData = ChartData(payload: string)

  /** What the joint request rejects with: an `Error` (with its message) or any other
      thrown value. */
  datatype Failure = ErrorObject(message: string) | OtherValue

  const FallbackMessage := "Failed to fetch dashboard data"

  /** The banner for a failure: an `Error`'s own message, whatever it is, or the
      fallback. */
  function FailureMessage(f: Failure): (m: string)
    ensures f.ErrorObject? ==> m == f.message
    ensures f.OtherValue? ==> m == FallbackMessage
  {
    match f
    case ErrorObject(message) => message
    case OtherValue => FallbackMessage
  }

  class Dashboard {
    var stats: Option<DashboardStats>
    var chartData: Option<ChartData>
    var isLoading: bool
    var error: Option<string>
    /** How many joint fetches were started. */
    var fetches: nat

    /** The hook's first render, before its effect runs. */
    constructor ()
      ensures stats.None? && chartData.None? && isLoading && error.None? && fetches == 0
    {
      stats := None;
      chartData := None;
      isLoading := true;
      error := None;
      fetches := 0;
    }

    /** `stats` and `chartData` are set together by a successful fetch, so either both
        are present or neither is. */
    predicate Valid()
      reads this
    {
      stats.Some? <==> chartData.Some?
    }

    /** What the hook shows while the two requests are pending. */
    method BeginFetch()
      modifies this
      ensures isLoading && error.None? && fetches == old(fetches) + 1
      ensures stats == old(stats) && chartData == old(chartData)
    {
      isLoading := true;
      error := None;
      fetches := fetches + 1;
    }

    /** How the fetch ends: both replies, or the one failure of the pair. */
    method FinishFetch(outcome: Result<(DashboardStats, ChartData), Failure>)
      requires Valid()
      modifies this
      ensures Valid() && !isLoading && fetches == old(fetches)
      ensures outcome.Ok? ==>
                stats == Some(outcome.value.0) && chartData == Some(outcome.value.1)
                && error == old(error)
      ensures outcome.Err? ==>
                stats == old(stats) && chartData == old(chartData)
                && error == Some(FailureMessage(outcome.error))
    {
      if outcome.Ok? {
        stats := Some(outcome.value.0);
        chartData := Some(outcome.value.1);
      } else {
        error := Some(FailureMessage(outcome.error));
      }
      isLoading := false;
    }

    /** `fetchDashboardData` (and `refreshData`, which only calls it). */
    method FetchDashboardData(outcome: Result<(DashboardStats, ChartData), Failure>)
      requires Valid()
      modifies this
      ensures Valid() && !isLoading && fetches == old(fetches) + 1
      ensures outcome.Ok? ==>
                stats == Some(outcome.value.0) && chartData == Some(outcome.value.1) && error.None?
      ensures outcome.Err? ==>
                stats == old(stats) && chartData == old(chartData)
                && error == Some(FailureMessage(outcome.error))
    {
      BeginFetch();
      FinishFetch(outcome);
    }
  }

  /** A failed refresh after a successful one keeps the figures of the successful one
      on screen, beside the error. */
  method RefreshKeepsLastFigures(d: Dashboard, first: (DashboardStats, ChartData), second: Failure)
    requires d.Valid()
    modifies d
    ensures d.stats == Some(first.0) && d.chartData == Some(first.1)
    ensures d.error == Some(FailureMessage(second)) && !d.isLoading
  {
    d.FetchDashboardData(Ok(first));
    d.FetchDashboardData(Err(second));
  }
}
