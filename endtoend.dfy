/**
 * The form and the handler together: what the browser makes of each response
 * the handler can send, and what the form shows after an attempt.
 */
module EndToEnd {
  import opened Wrappers
  import opened JsText
  import Assess
  import App

  /** The message of the SyntaxError `response.json()` raises on an empty body (V8's wording). */
  const EmptyJsonMessage := "Unexpected end of JSON input"

  /** What `fetch` followed by `response.json()` hands the form for a response:
      `ok` is a 2xx status, a body-less response fails to parse, and the two
      JSON bodies fill the `error` or the `assessment` field. */
  function Delivered(r: Assess.Response): (o: App.FetchOutcome)
    ensures o.Threw? <==> r.body.NoContent?
    ensures o.Responded? ==> (o.ok <==> 200 <= r.status < 300)
    ensures r.body.ErrorBody? ==> o.Responded? && o.data == App.ResponseData(Some(r.body.error), None)
    ensures r.body.AssessmentBody? ==> o.Responded? && o.data == App.ResponseData(None, Some(r.body.assessment))
  {
    match r.body
    case NoContent => App.Threw(EmptyJsonMessage)
    case ErrorBody(e, _) => App.Responded(200 <= r.status < 300, App.ResponseData(Some(e), None))
    case AssessmentBody(a, _) => App.Responded(200 <= r.status < 300, App.ResponseData(None, Some(a)))
  }

  /** The form sends exactly the texts the handler's input check accepts as
      non-blank strings. */
  lemma BlankAgreement(s: App.FormState)
    ensures App.RequestFor(s).Some? <==> !Assess.IsInvalidText(Assess.Text(s.userInput))
  {
  }

  /** Whatever the configuration and upstream outcomes, an attempt with
      non-blank input ends with loading released and exactly one of result and
      error set: the handler's assessment on a 200, its `error` otherwise. */
  lemma AttemptAgainstHandler(s: App.FormState, cfg: Assess.Config, completion: Assess.CompletionOutcome,
                              insert: Assess.InsertOutcome, now: string)
    requires !IsBlank(s.userInput)
    ensures var r := Assess.Classify(Assess.Request("POST", Assess.Fields(Assess.Text(s.userInput))), cfg, completion, insert, now);
      var t := App.Finished(App.Submitted(s), Delivered(r));
      !t.isLoading
      && ((t.assessmentResult != "") != (t.error != ""))
      && (r.status == 200 ==> r.body.AssessmentBody? && t.assessmentResult == r.body.assessment && App.ShowsResult(t))
      && (r.status != 200 ==> r.body.ErrorBody? && t.error == r.body.error && App.ShowsError(t))
  {
    var r := Assess.Classify(Assess.Request("POST", Assess.Fields(Assess.Text(s.userInput))), cfg, completion, insert, now);
    App.AttemptSettles(s, Delivered(r));
  }
}
