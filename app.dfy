/**
 * The form controller of the browser app: four state cells, the event
 * handlers that update them, the conditions that enable the controls, and
 * the conditions that decide which panels are rendered.
 *
 * `FormState` and the functions on it are the specification; the class
 * `FormController` is the component itself, whose handlers update its fields
 * one setter at a time and are proved to reach the state the functions give.
 */
module App {
  import opened Wrappers
  import opened JsText

  const BlankInputMessage := "Please enter some text to assess"
  const RequestFailedMessage := "Failed to get assessment"
  const FallbackMessage := "An error occurred. Please try again."

  /** The four state cells. */
  datatype FormState = FormState(userInput: string, isLoading: bool, assessmentResult: string, error: string)

  /** The parsed JSON of a response: its `error` and `assessment` fields. */
  datatype ResponseData = ResponseData(error: Option<string>, assessment: Option<string>)

  /** How the request ends: a response with its `ok` flag and parsed body, or
      a rejection of the request or of the JSON parse, with its message. */
  datatype FetchOutcome = Responded(ok: bool, data: ResponseData) | Threw(message: string)

  const Initial := FormState("", false, "", "")

  /** Between a submit that sent a request and its completion, neither a
      result nor an error is held, and the input that was sent is still
      there (the textarea and Clear are unavailable meanwhile). */
  predicate Invariant(s: FormState) {
    s.isLoading ==> s.error == "" && s.assessmentResult == "" && !IsBlank(s.userInput)
  }

  /** The request a submit sends: the input text, unless it is blank. */
  function RequestFor(s: FormState): (r: Option<string>)
    ensures r.Some? <==> !IsBlank(s.userInput)
    ensures r.Some? ==> r.value == s.userInput
  {
    if IsBlank(s.userInput) then None else Some(s.userInput)
  }

  /** The state once the synchronous part of a submit has run: blank input
      only sets the validation error; otherwise error and result are cleared
      and loading starts. The input is never touched. */
  function Submitted(s: FormState): (t: FormState)
    ensures t.userInput == s.userInput
    ensures IsBlank(s.userInput) ==>
      t.error == BlankInputMessage && t.isLoading == s.isLoading && t.assessmentResult == s.assessmentResult
    ensures !IsBlank(s.userInput) ==> t.isLoading && t.error == "" && t.assessmentResult == ""
  {
    if IsBlank(s.userInput) then s.(error := BlankInputMessage)
    else s.(error := "", assessmentResult := "", isLoading := true)
  }

  /** Whether the request ended in a response with `ok` set. */
  predicate Succeeded(o: FetchOutcome) {
    o.Responded? && o.ok
  }

  /** The message of the error the handler throws for a response without
      `ok`: the response's `error` field, or a fixed message when it is absent
      or empty. */
  function RejectionMessage(data: ResponseData): (m: string)
    ensures m != ""
    ensures Truthy(data.error) ==> m == data.error.value
    ensures !Truthy(data.error) ==> m == RequestFailedMessage
  {
    if Truthy(data.error) then data.error.value else RequestFailedMessage
  }

  /** The message the catch block displays: the caught error's message, or a
      fixed one when that is empty. */
  function CaughtMessage(o: FetchOutcome): (m: string)
    requires !Succeeded(o)
    ensures m != ""
    ensures o.Responded? ==> m == RejectionMessage(o.data)
    ensures o.Threw? && o.message != "" ==> m == o.message
    ensures o.Threw? && o.message == "" ==> m == FallbackMessage
  {
    var thrown := if o.Responded? then RejectionMessage(o.data) else o.message;
    if thrown != "" then thrown else FallbackMessage
  }

  /** The state once the request has ended. Loading is released on every
      path; a success stores the assessment (an absent one reads as empty) and
      leaves the error alone; a failure stores a non-empty error message and
      leaves the result alone. */
  function Finished(s: FormState, o: FetchOutcome): (t: FormState)
    ensures !t.isLoading
    ensures t.userInput == s.userInput
    ensures Succeeded(o) ==> t.assessmentResult == o.data.assessment.GetOr("") && t.error == s.error
    ensures !Succeeded(o) ==> t.error == CaughtMessage(o) && t.error != "" && t.assessmentResult == s.assessmentResult
  {
    if Succeeded(o) then s.(assessmentResult := o.data.assessment.GetOr(""), isLoading := false)
    else s.(error := CaughtMessage(o), isLoading := false)
  }

  /** The state after the Clear button: input, result and error emptied,
      loading untouched. */
  function Cleared(s: FormState): (t: FormState)
    ensures t.userInput == "" && t.assessmentResult == "" && t.error == ""
    ensures t.isLoading == s.isLoading
  {
    s.(userInput := "", assessmentResult := "", error := "")
  }

  /** The submit button is enabled. */
  predicate SubmitEnabled(s: FormState) {
    !s.isLoading && !IsBlank(s.userInput)
  }

  /** The textarea accepts edits. */
  predicate InputEnabled(s: FormState) {
    !s.isLoading
  }

  /** The Clear button is rendered. */
  predicate ClearOffered(s: FormState) {
    s.userInput != "" && !s.isLoading
  }

  predicate ShowsError(s: FormState) {
    s.error != ""
  }

  predicate ShowsResult(s: FormState) {
    s.assessmentResult != "" && s.error == ""
  }

  predicate ShowsLoading(s: FormState) {
    s.isLoading
  }

  /** The paragraphs rendered in the result panel: the result split at each
      newline, when the panel is shown. */
  function Paragraphs(s: FormState): (ps: seq<string>)
    ensures ShowsResult(s) ==> |ps| >= 1 && Join(ps, '\n') == s.assessmentResult
    ensures ShowsResult(s) ==> |ps| == Count(s.assessmentResult, '\n') + 1
    ensures ShowsResult(s) ==> forall k :: 0 <= k < |ps| ==> '\n' !in ps[k]
    ensures !ShowsResult(s) ==> ps == []
  {
    if ShowsResult(s) then
      JoinSplit(s.assessmentResult, '\n');
      SplitCount(s.assessmentResult, '\n');
      Split(s.assessmentResult, '\n')
    else []
  }

  /** The controls follow the loading flag: while loading nothing can be
      submitted, edited or cleared; pressing an enabled submit button always
      sends the input and starts loading. */
  lemma ControlsGuarded(s: FormState)
    ensures s.isLoading ==> !SubmitEnabled(s) && !InputEnabled(s) && !ClearOffered(s)
    ensures SubmitEnabled(s) ==> RequestFor(s) == Some(s.userInput) && Submitted(s).isLoading
  {
  }

  /** The initial state satisfies the invariant and shows no panel. */
  lemma InitialIdle()
    ensures Invariant(Initial)
    ensures !ShowsError(Initial) && !ShowsResult(Initial) && !ShowsLoading(Initial)
  {
  }

  /** Every event keeps the invariant when it can happen: a submit in any
      state, an edit while the textarea is enabled, a completion at any time,
      Clear while its button is rendered. */
  lemma EventsKeepInvariant(s: FormState, v: string, o: FetchOutcome)
    requires Invariant(s)
    ensures Invariant(Submitted(s))
    ensures InputEnabled(s) ==> Invariant(s.(userInput := v))
    ensures Invariant(Finished(s, o))
    ensures ClearOffered(s) ==> Invariant(Cleared(s))
  {
  }

  /** The user's and the network's events. */
  datatype Event = Edit(value: string) | Submit | Settle(outcome: FetchOutcome) | Clear

  /** The state after one event. An edit or Clear whose control is disabled
      or not rendered does nothing, and so does a completion with no request
      pending; a submit runs the handler in any state. */
  function Step(s: FormState, e: Event): FormState {
    match e
    case Edit(v) => if InputEnabled(s) then s.(userInput := v) else s
    case Submit => Submitted(s)
    case Settle(o) => if s.isLoading then Finished(s, o) else s
    case Clear => if ClearOffered(s) then Cleared(s) else s
  }

  /** The state after a sequence of events. */
  function Run(s: FormState, evs: seq<Event>): FormState
    decreases |evs|
  {
    if evs == [] then s else Run(Step(s, evs[0]), evs[1..])
  }

  /** Any sequence of events keeps the invariant. */
  lemma {:induction false} RunKeepsInvariant(s: FormState, evs: seq<Event>)
    requires Invariant(s)
    ensures Invariant(Run(s, evs))
    decreases |evs|
  {
    if evs != [] {
      var e := evs[0];
      match e {
        case Edit(v) => EventsKeepInvariant(s, v, Threw(""));
        case Submit => EventsKeepInvariant(s, "", Threw(""));
        case Settle(o) => EventsKeepInvariant(s, "", o);
        case Clear => EventsKeepInvariant(s, "", Threw(""));
      }
      RunKeepsInvariant(Step(s, e), evs[1..]);
    }
  }

  /** In every state reachable from the initial one, at most one panel is
      rendered and the error panel wins over the result panel. */
  lemma ReachablePanelsExclusive(evs: seq<Event>)
    ensures var t := Run(Initial, evs);
      Invariant(t)
      && (ShowsError(t) ==> !ShowsResult(t) && !ShowsLoading(t))
      && (ShowsResult(t) ==> !ShowsLoading(t))
  {
    InitialIdle();
    RunKeepsInvariant(Initial, evs);
    AtMostOnePanel(Run(Initial, evs));
  }

  /** Under the invariant at most one panel is rendered, and the error panel
      wins over the result panel. */
  lemma AtMostOnePanel(s: FormState)
    requires Invariant(s)
    ensures ShowsError(s) ==> !ShowsResult(s) && !ShowsLoading(s)
    ensures ShowsResult(s) ==> !ShowsLoading(s)
  {
  }

  /** A blank submit issues no request, sets only the validation error and
      so hides a result obtained earlier behind the error panel. */
  lemma BlankSubmitHidesStaleResult(s: FormState)
    requires IsBlank(s.userInput)
    ensures RequestFor(s) == None
    ensures Submitted(s) == s.(error := BlankInputMessage)
    ensures ShowsError(Submitted(s)) && !ShowsResult(Submitted(s))
  {
  }

  /** One whole attempt (a non-blank submit and its completion): loading is
      released, and exactly one of result and error is non-empty unless the
      server answered `ok` with an empty or absent assessment. */
  lemma AttemptSettles(s: FormState, o: FetchOutcome)
    requires !IsBlank(s.userInput)
    ensures var t := Finished(Submitted(s), o);
      !t.isLoading && t.userInput == s.userInput
      && (((t.assessmentResult != "") != (t.error != "")) <==> !(Succeeded(o) && !Truthy(o.data.assessment)))
  {
  }

  /** A failed attempt shows the server's `error` when it sent one, and never
      a result. */
  lemma FailedAttemptShowsServerError(s: FormState, e: string, a: Option<string>)
    requires !IsBlank(s.userInput) && e != ""
    ensures var t := Finished(Submitted(s), Responded(false, ResponseData(Some(e), a)));
      t.error == e && t.assessmentResult == "" && ShowsError(t) && !ShowsResult(t)
  {
  }

  /** The component. */
  class FormController {
    var userInput: string
    var isLoading: bool
    var assessmentResult: string
    var error: string

    function State(): FormState
      reads this
    {
      FormState(userInput, isLoading, assessmentResult, error)
    }

    /** All four cells start empty or false. */
    constructor ()
      ensures State() == Initial
    {
      userInput := "";
      isLoading := false;
      assessmentResult := "";
      error := "";
    }

    /** Typing in the textarea, which is disabled while loading. */
    method HandleInputChange(value: string)
      requires InputEnabled(State())
      modifies this
      ensures State() == old(State()).(userInput := value)
      ensures Invariant(old(State())) ==> Invariant(State())
    {
      userInput := value;
    }

    /** The synchronous part of a submit, up to the request it sends (if
      any). The handler itself has no guard; the disabled submit button is
      what keeps it from running while loading. */
    method HandleSubmit() returns (request: Option<string>)
      modifies this
      ensures State() == Submitted(old(State()))
      ensures request == RequestFor(old(State()))
      ensures Invariant(old(State())) ==> Invariant(State())
    {
      if IsBlank(userInput) {
        error := BlankInputMessage;
        return None;
      }
      error := "";
      assessmentResult := "";
      isLoading := true;
      request := Some(userInput);
    }

    /** The rest of the submit, once the awaited request has settled. */
    method CompleteSubmit(outcome: FetchOutcome)
      requires isLoading
      modifies this
      ensures State() == Finished(old(State()), outcome)
      ensures Invariant(old(State())) ==> Invariant(State())
    {
      match outcome {
        case Responded(ok, data) =>
          if ok {
            assessmentResult := data.assessment.GetOr("");
          } else {
            var message := RejectionMessage(data);
            error := if message != "" then message else FallbackMessage;
          }
        case Threw(message) =>
          error := if message != "" then message else FallbackMessage;
      }
      isLoading := false;
    }

    /** The Clear button, rendered only for non-empty input while not loading. */
    method HandleClear()
      requires ClearOffered(State())
      modifies this
      ensures State() == Cleared(old(State()))
      ensures Invariant(old(State())) ==> Invariant(State())
    {
      userInput := "";
      assessmentResult := "";
      error := "";
    }
  }
}
