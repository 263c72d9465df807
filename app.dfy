/** The page: one form state moved between idle, loading, succeeded and
    failed by the submit handler (split at its `await` into the submission
    and its outcome), reset and dismiss; and the choice of what the page
    shows for a state. */
module App {
  import opened Wrappers
  import opened Types
  import GeminiService

  const UnexpectedErrorMessage := "An unexpected error occurred."

  /** The state the page starts in and `handleReset` restores. */
  const InitialState := FormState(None, false, None, None)

  /** The invariant every handler keeps: while loading there is neither a
      result nor an error (and the route being analysed is known); a result
      never stands beside an error and always comes with its route; an error
      is never the empty string. */
  predicate Consistent(s: FormState) {
    && (s.isLoading ==> s.result.None? && s.error.None? && s.data.Some?)
    && (s.result.Some? ==> s.error.None? && s.data.Some?)
    && s.error != Some("")
  }

  /** `err.message || "An unexpected error occurred."`: the message the page
      shows for a failure, never empty, and the error's own whenever that is
      not empty. */
  function FailureText(message: string): (m: string)
    ensures m != ""
    ensures message != "" ==> m == message
    ensures message == "" ==> m == UnexpectedErrorMessage
  {
    if message != "" then message else UnexpectedErrorMessage
  }

  /** What fills the main area: the form (with its loading flag, which
      disables the submit button) or the dashboard for a result and route. */
  datatype MainPanel =
    | FormPanel(isLoading: bool)
    | DashboardPanel(result: AnalysisResult, routeData: Option<RouteData>)

  datatype PageView = PageView(errorBanner: Option<string>, main: MainPanel)

  /** The page for a state. The banner shows when `error` is truthy; the form
      shows when there is no result, the dashboard when there is one. In a
      consistent state the banner shows exactly when there is an error, with
      its text, and never above a dashboard, and a dashboard always has its
      route. */
  function Render(s: FormState): (v: PageView)
    ensures v.main.FormPanel? <==> s.result.None?
    ensures v.main.FormPanel? ==> v.main.isLoading == s.isLoading
    ensures v.main.DashboardPanel? ==> Some(v.main.result) == s.result && v.main.routeData == s.data
    ensures v.errorBanner.Some? ==> Some(v.errorBanner.value) == s.error
    ensures Consistent(s) ==> (v.errorBanner.Some? <==> s.error.Some?)
    ensures Consistent(s) ==> !(v.errorBanner.Some? && v.main.DashboardPanel?)
    ensures Consistent(s) && v.main.DashboardPanel? ==> v.main.routeData.Some?
  {
    var banner := if s.error.Some? && s.error.value != "" then s.error else None;
    var main := if s.result.None? then FormPanel(s.isLoading)
                else DashboardPanel(s.result.value, s.data);
    PageView(banner, main)
  }

  /** The page state held by the component. */
  class Page {
    var data: Option<RouteData>
    var isLoading: bool
    var result: Option<AnalysisResult>
    var error: Option<string>

    function State(): FormState
      reads this
    {
      FormState(data, isLoading, result, error)
    }

    ghost predicate Valid()
      reads this
    {
      Consistent(State())
    }

    constructor ()
      ensures Valid() && State() == InitialState
    {
      data, isLoading, result, error := None, false, None, None;
    }

    /** The first step of `handleRouteSubmit`: record the route, start
        loading and clear the previous result and error. */
    method HandleRouteSubmit(d: RouteData)
      requires Valid()
      modifies this
      ensures Valid()
      ensures data == Some(d) && isLoading && result.None? && error.None?
    {
      data, isLoading, error, result := Some(d), true, None, None;
    }

    /** The step after a successful analysis: stop loading and show the
        result; the route and the (cleared) error stay as they are. */
    method ResolveSuccess(r: AnalysisResult)
      requires Valid() && isLoading
      modifies this
      ensures Valid()
      ensures !isLoading && result == Some(r)
      ensures data == old(data) && error == old(error) && error.None?
    {
      isLoading, result := false, Some(r);
    }

    /** The step after a failed analysis: stop loading and show the error's
        message, or the fallback text when it is empty; there is no result. */
    method ResolveFailure(message: string)
      requires Valid() && isLoading
      modifies this
      ensures Valid()
      ensures !isLoading && error == Some(FailureText(message))
      ensures data == old(data) && result == old(result) && result.None?
    {
      isLoading, error := false, Some(FailureText(message));
    }

    /** `handleReset`: back to exactly the initial state. */
    method HandleReset()
      requires Valid()
      modifies this
      ensures Valid() && State() == InitialState
    {
      data, isLoading, result, error := None, false, None, None;
    }

    /** The banner's Dismiss button: clears the error and nothing else. */
    method DismissError()
      requires Valid()
      modifies this
      ensures Valid()
      ensures error.None?
      ensures data == old(data) && isLoading == old(isLoading) && result == old(result)
    {
      error := None;
    }

    /** A whole submission: the submit step, the analysis, and the outcome
        step. Afterwards the page is not loading and shows either the
        analysis the remote model gave for this route or exactly one of the
        service's two messages. */
    method SubmitRoute(d: RouteData, apiKey: Option<string>,
                       generate: GeminiService.Request -> GeminiService.Generated,
                       parse: string -> Option<AnalysisResult>)
      requires Valid()
      modifies this
      ensures Valid()
      ensures data == Some(d) && !isLoading
      ensures result.Some? <==> error.None?
      ensures result.Some? ==>
                && GeminiService.KeyPresent(apiKey)
                && GeminiService.Accepts(generate, parse, GeminiService.BuildRequest(d, apiKey.value), result.value)
      ensures error == Some(GeminiService.FailureMessage) ==>
                && GeminiService.KeyPresent(apiKey)
                && forall a :: !GeminiService.Accepts(generate, parse, GeminiService.BuildRequest(d, apiKey.value), a)
      ensures error == Some(GeminiService.MissingKeyMessage) <==> !GeminiService.KeyPresent(apiKey)
      ensures error.Some? ==> error.value == GeminiService.MissingKeyMessage || error.value == GeminiService.FailureMessage
    {
      HandleRouteSubmit(d);
      var r, sent := GeminiService.AnalyzeRouteRisk(d, apiKey, generate, parse);
      match r
      case Ok(analysis) => ResolveSuccess(analysis);
      case Err(message) => ResolveFailure(message);
    }
  }
}
