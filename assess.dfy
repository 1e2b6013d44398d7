/**
 * The `/api/assess` serverless handler as one total function from what it
 * sees (HTTP method, parsed body, environment, the outcomes of the
 * completion call and of the database insert, the clock) to the one response
 * it sends. The handler sets the same CORS headers before every branch; they
 * are not part of the response value.
 */
module Assess {
  import opened Wrappers
  import opened JsText

  const MaxTextLength := 10000

  const MethodNotAllowedMessage := "Method not allowed. Use POST."
  const InvalidInputMessage := "Invalid input. Please provide text to assess."
  const TooLongMessage := "Text is too long. Please limit to 10,000 characters."
  const ServerConfigMessage := "Server configuration error. Please contact administrator."
  const DatabaseConfigMessage := "Database configuration error. Please contact administrator."
  const AuthFailedMessage := "OpenAI API authentication failed. Please check API key configuration."
  const RateLimitedMessage := "Rate limit exceeded. Please try again in a moment."
  const UnavailableMessage := "Service temporarily unavailable. Please try again later."
  const UnexpectedMessage := "An unexpected error occurred while processing your request."
  /** The message of the error the handler throws itself on an empty completion. */
  const NoCompletionMessage := "No response received from OpenAI"
  /** The message of the TypeError raised when a body of `null` is destructured (V8's wording). */
  const NoBodyMessage := "Cannot destructure property 'text' of 'req.body' as it is null."

  /** The `text` property of the parsed body: absent (or another falsy value),
      present but not a string, or a string. */
  datatype TextField = Missing | NotAString | Text(value: string)

  /** The parsed request body: `null` (nothing to destructure) or an object. */
  datatype Body = NoBody | Fields(text: TextField)

  datatype Request = Request(httpMethod: string, body: Body)

  /** The environment variables the handler reads; `None` when unset. */
  datatype Config = Config(
    openAiApiKey: Option<string>,
    supabaseUrl: Option<string>,
    supabaseAnonKey: Option<string>,
    nodeEnv: Option<string>)

  /** An error reaching the catch block: its HTTP `status`, its Node.js
      error `code` and its `message`. */
  datatype Thrown = Thrown(status: Option<int>, code: Option<string>, message: string)

  /** What the chat-completion call gives back: the content of the first
      choice (absent when there is no choice, no message or null content), or
      a rejection. */
  datatype CompletionOutcome = Completed(content: Option<string>) | CompletionFailed(error: Thrown)

  /** What the database insert gives back: success, an error value, or a
      thrown error. */
  datatype InsertOutcome = Inserted | InsertError | InsertThrew(error: Thrown)

  /** The JSON body sent: none (`end()`), `{ error, message? }`, or
      `{ success: true, assessment, timestamp }`. */
  datatype ResponseBody =
    | NoContent
    | ErrorBody(error: string, message: Option<string>)
    | AssessmentBody(assessment: string, timestamp: string)

  datatype Response = Response(status: int, body: ResponseBody)

  /** How the try block ends: a response it returns, or an error it raises. */
  datatype Outcome = Returned(response: Response) | Raised(error: Thrown)

  /** The input check's rejection: missing or falsy, not a string, or blank. */
  predicate IsInvalidText(t: TextField)
    ensures IsInvalidText(t) <==> !t.Text? || AllTrimmable(t.value)
  {
    !t.Text? || IsBlank(t.value)
  }

  predicate IsDevelopment(cfg: Config) {
    cfg.nodeEnv == Some("development")
  }

  function Reject(status: int, error: string): Response {
    Response(status, ErrorBody(error, None))
  }

  /** The try block: input validation, configuration checks, the completion
      result, then the insert, whose error value does not change the outcome. */
  function TryBlock(body: Body, cfg: Config, completion: CompletionOutcome, insert: InsertOutcome, now: string): (o: Outcome)
    ensures o.Returned? ==> o.response.status in {200, 400, 500}
    ensures o.Returned? && o.response.status == 200 ==>
      completion.Completed? && Truthy(completion.content) && o.response.body == AssessmentBody(completion.content.value, now)
    ensures o.Returned? && o.response.status != 200 ==> o.response.body.ErrorBody? && o.response.body.message == None
    ensures o.Returned? && o.response.body.ErrorBody? ==> o.response.body.error != ""
  {
    match body
    case NoBody => Raised(Thrown(None, None, NoBodyMessage))
    case Fields(t) =>
      if IsInvalidText(t) then Returned(Reject(400, InvalidInputMessage))
      else if |t.value| > MaxTextLength then Returned(Reject(400, TooLongMessage))
      else if !Truthy(cfg.openAiApiKey) then Returned(Reject(500, ServerConfigMessage))
      else if !Truthy(cfg.supabaseUrl) || !Truthy(cfg.supabaseAnonKey) then Returned(Reject(500, DatabaseConfigMessage))
      else
        match completion
        case CompletionFailed(e) => Raised(e)
        case Completed(content) =>
          if content.None? || content.value == "" then Raised(Thrown(None, None, NoCompletionMessage))
          else
            match insert
            case InsertThrew(e) => Raised(e)
            case Inserted => Returned(Response(200, AssessmentBody(content.value, now)))
            case InsertError => Returned(Response(200, AssessmentBody(content.value, now)))
  }

  /** The catch block: an authentication failure (401) becomes a server error,
      then 429 passes through, then an unreachable host becomes 503, and
      anything else is the generic 500, whose `message` echoes the error only
      in development mode. */
  function Catch(e: Thrown, cfg: Config): (r: Response)
    ensures r.status in {429, 500, 503}
    ensures r.body.ErrorBody? && r.body.error != ""
    ensures e.status == Some(401) <==> r.body.error == AuthFailedMessage
    ensures r.status == 429 <==> e.status == Some(429)
    ensures r.status == 503 <==>
      e.status != Some(401) && e.status != Some(429) && e.code in {Some("ENOTFOUND"), Some("ECONNREFUSED")}
    ensures r.body.message.Some? <==> r.body.error == UnexpectedMessage && IsDevelopment(cfg)
    ensures r.body.message.Some? ==> r.body.message.value == e.message
    ensures r.status == 429 ==> r.body.error == RateLimitedMessage
    ensures r.status == 503 ==> r.body.error == UnavailableMessage
    ensures r.status == 500 && e.status != Some(401) ==>
      r.body == ErrorBody(UnexpectedMessage, if IsDevelopment(cfg) then Some(e.message) else None)
  {
    if e.status == Some(401) then Reject(500, AuthFailedMessage)
    else if e.status == Some(429) then Reject(429, RateLimitedMessage)
    else if e.code == Some("ENOTFOUND") || e.code == Some("ECONNREFUSED") then Reject(503, UnavailableMessage)
    else Response(500, ErrorBody(UnexpectedMessage, if IsDevelopment(cfg) then Some(e.message) else None))
  }

  /** The whole handler. OPTIONS is the only request answered without a body,
      any other method but POST is refused, every error response carries a
      non-empty `error`, and a 200 with a body always carries a non-empty
      assessment stamped with `now`. */
  function Classify(req: Request, cfg: Config, completion: CompletionOutcome, insert: InsertOutcome, now: string): (r: Response)
    ensures r.status in {200, 400, 405, 429, 500, 503}
    ensures req.httpMethod == "OPTIONS" <==> r.body == NoContent
    ensures req.httpMethod == "OPTIONS" ==> r.status == 200
    ensures req.httpMethod != "OPTIONS" && req.httpMethod != "POST" ==> r == Reject(405, MethodNotAllowedMessage)
    ensures r.status == 200 && req.httpMethod != "OPTIONS" ==>
      completion.Completed? && Truthy(completion.content) && r.body == AssessmentBody(completion.content.value, now)
    ensures r.body.ErrorBody? ==> r.status >= 400 && r.body.error != ""
    ensures r.body.ErrorBody? && r.body.message.Some? ==> r.status == 500 && IsDevelopment(cfg)
  {
    if req.httpMethod == "OPTIONS" then Response(200, NoContent)
    else if req.httpMethod != "POST" then Reject(405, MethodNotAllowedMessage)
    else
      match TryBlock(req.body, cfg, completion, insert, now)
      case Returned(response) => response
      case Raised(e) => Catch(e, cfg)
  }

  /** A request whose text passes both input checks. */
  predicate ValidText(req: Request) {
    req.body.Fields? && !IsInvalidText(req.body.text) && |req.body.text.value| <= MaxTextLength
  }

  /** Both configuration groups are present. */
  predicate Configured(cfg: Config) {
    Truthy(cfg.openAiApiKey) && Truthy(cfg.supabaseUrl) && Truthy(cfg.supabaseAnonKey)
  }

  /** Bad or blank text is refused with 400 before anything else is looked at:
      the answer is the same whatever the configuration, the upstream outcomes
      or the clock, and it is the same for text of any length. */
  lemma InvalidTextRejected(req: Request, cfg: Config, completion: CompletionOutcome, insert: InsertOutcome, now: string)
    requires req.httpMethod == "POST" && req.body.Fields? && IsInvalidText(req.body.text)
    ensures Classify(req, cfg, completion, insert, now) == Reject(400, InvalidInputMessage)
  {
  }

  /** The length bound is inclusive: non-blank text is refused as too long
      exactly when it has more than 10000 characters. */
  lemma LengthBoundary(s: string, cfg: Config, completion: CompletionOutcome, insert: InsertOutcome, now: string)
    requires !IsBlank(s)
    ensures Classify(Request("POST", Fields(Text(s))), cfg, completion, insert, now) == Reject(400, TooLongMessage)
        <==> |s| > MaxTextLength
  {
  }

  /** The configuration checks come after input validation and before any
      upstream outcome is used: a missing completion key wins over missing
      database settings, and either answer ignores the upstream outcomes. */
  lemma ConfigurationOrder(req: Request, cfg: Config, completion: CompletionOutcome, insert: InsertOutcome, now: string)
    requires req.httpMethod == "POST" && ValidText(req)
    ensures !Truthy(cfg.openAiApiKey) ==>
      Classify(req, cfg, completion, insert, now) == Reject(500, ServerConfigMessage)
    ensures Truthy(cfg.openAiApiKey) && !(Truthy(cfg.supabaseUrl) && Truthy(cfg.supabaseAnonKey)) ==>
      Classify(req, cfg, completion, insert, now) == Reject(500, DatabaseConfigMessage)
  {
  }

  /** Non-empty completion content is returned with 200 whether the insert
      succeeded or returned an error. */
  lemma InsertErrorIgnored(req: Request, cfg: Config, c: string, insert: InsertOutcome, now: string)
    requires req.httpMethod == "POST" && ValidText(req) && Configured(cfg)
    requires c != "" && !insert.InsertThrew?
    ensures Classify(req, cfg, Completed(Some(c)), insert, now) == Response(200, AssessmentBody(c, now))
    ensures Classify(req, cfg, Completed(Some(c)), InsertError, now) == Classify(req, cfg, Completed(Some(c)), Inserted, now)
  {
  }

  /** A missing or empty completion is thrown by the handler itself; the error
      has neither status nor code, so it falls through every specific branch
      to the generic 500. */
  lemma EmptyCompletionIsGenericError(req: Request, cfg: Config, content: Option<string>, insert: InsertOutcome, now: string)
    requires req.httpMethod == "POST" && ValidText(req) && Configured(cfg)
    requires content.None? || content.value == ""
    ensures Classify(req, cfg, Completed(content), insert, now) ==
      Response(500, ErrorBody(UnexpectedMessage, if IsDevelopment(cfg) then Some(NoCompletionMessage) else None))
  {
  }

  /** A rejected completion call is answered by the catch block's mapping, and
      the insert outcome plays no part. */
  lemma UpstreamErrorMapped(req: Request, cfg: Config, e: Thrown, insert: InsertOutcome, now: string)
    requires req.httpMethod == "POST" && ValidText(req) && Configured(cfg)
    ensures Classify(req, cfg, CompletionFailed(e), insert, now) == Catch(e, cfg)
  {
  }

  /** A POST succeeds exactly when the text is valid, the configuration is
      complete, the completion has content and the insert did not throw. */
  lemma PostSucceedsIff(req: Request, cfg: Config, completion: CompletionOutcome, insert: InsertOutcome, now: string)
    requires req.httpMethod == "POST"
    ensures Classify(req, cfg, completion, insert, now).status == 200 <==>
      ValidText(req) && Configured(cfg) && completion.Completed? && Truthy(completion.content)
      && !insert.InsertThrew?
  {
  }
}
