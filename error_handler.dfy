/**
  Error normalisation (src/utils/error-handler.ts): any thrown value becomes an
  isError envelope whose text is `[context] Error: message`, the message
  preferring an HTTP client's response body; a heuristic classifier assigns an
  ErrorType (used for the server-side log line only).
 */
module ErrorHandler {
  import opened Wrappers
  import opened Text
  import opened Json
  import opened ResponseFormatter

  /** A value caught by `catch (error)`. */
  datatype Thrown =
    /** An `Error` instance; `props` are its other own properties (an HTTP client error's `response`, `code`, ...). */
    | Error(name: string, message: string, props: seq<Member>)
    /** Any other thrown value (a string, a plain object, ...). */
    | Value(value: Json)
    | Undefined

  datatype ErrorType = ApiError | ValidationError | NotFound | NetworkError | UnknownError

  /** `new Error(message)`. */
  function NewError(message: string): Thrown {
    Error("Error", message, [])
  }

  /** `error instanceof Error ? error.message : String(error)`. */
  function BaseMessage(e: Thrown): string {
    match e
    case Error(_, m, _) => m
    case Value(v) => JsString(v)
    case Undefined => "undefined"
  }

  /** `error.response?.data` when the thrown value is an object that has a `response` property. */
  function ResponseData(e: Thrown): Option<Json> {
    match e
    case Error(_, _, props) =>
      if HasKey(props, "response") then Prop(Get(props, "response").value, "data") else None
    case Value(v) =>
      if v.Obj? && HasKey(v.members, "response") then Prop(Get(v.members, "response").value, "data") else None
    case Undefined => None
  }

  /**
    The message an error envelope reports: a truthy string body verbatim, a
    truthy object or array body as its JSON serialisation, otherwise the
    error's own message.
   */
  function ErrorMessage(e: Thrown): (r: string)
    ensures ResponseData(e).Some? && ResponseData(e).value.Str? && ResponseData(e).value.s != "" ==> r == ResponseData(e).value.s
    ensures ResponseData(e).Some? && (ResponseData(e).value.Obj? || ResponseData(e).value.Arr?) ==> r == Stringify(ResponseData(e).value)
    ensures ResponseData(e).None? || !Truthy(ResponseData(e).value) || ResponseData(e).value.Num? || ResponseData(e).value.Bool? ==> r == BaseMessage(e)
  {
    match ResponseData(e)
    case Some(d) =>
      if !Truthy(d) then BaseMessage(e)
      else if d.Str? then d.s
      else if d.Obj? || d.Arr? then Stringify(d)
      else BaseMessage(e)
    case None => BaseMessage(e)
  }

  /** The lower-cased name the classifier looks at: an Error's name, "" for anything else. */
  function LowerName(e: Thrown): string {
    if e.Error? then Lower(e.name) else ""
  }

  /**
    The classifier of error-handler.ts: network, then validation, then
    not-found, then API, else unknown. Every type but unknown is backed by a
    sign of its own tier; ClassifierPriority gives the full priority order.
   */
  function DetermineErrorType(e: Thrown, message: string): (r: ErrorType)
    ensures r == NetworkError <==> NetworkSigns(LowerName(e), Lower(message))
    ensures r == ValidationError ==> ValidationSigns(LowerName(e), Lower(message))
    ensures r == NotFound ==> NotFoundSigns(Lower(message))
    ensures r == ApiError ==> ApiSigns(LowerName(e), Lower(message))
  {
    var m := Lower(message);
    var n := LowerName(e);
    if Contains(n, "network") || Contains(m, "network") || Contains(n, "fetch") || Contains(m, "fetch")
       || Contains(n, "timeout") || Contains(m, "timeout") then NetworkError
    else if Contains(n, "validation") || Contains(m, "validation") || Contains(m, "invalid") || Contains(m, "required") then ValidationError
    else if Contains(m, "not found") || Contains(m, "404") || Contains(m, "does not exist") then NotFound
    else if Contains(n, "api") || Contains(m, "api") || Contains(m, "server error") || Contains(m, "500") then ApiError
    else UnknownError
  }

  predicate NetworkSigns(n: string, m: string) {
    Contains(n, "network") || Contains(m, "network") || Contains(n, "fetch") || Contains(m, "fetch")
    || Contains(n, "timeout") || Contains(m, "timeout")
  }

  predicate ValidationSigns(n: string, m: string) {
    Contains(n, "validation") || Contains(m, "validation") || Contains(m, "invalid") || Contains(m, "required")
  }

  predicate NotFoundSigns(m: string) {
    Contains(m, "not found") || Contains(m, "404") || Contains(m, "does not exist")
  }

  predicate ApiSigns(n: string, m: string) {
    Contains(n, "api") || Contains(m, "api") || Contains(m, "server error") || Contains(m, "500")
  }

  /**
    Each type is assigned exactly when its own signs show and those of every
    higher-priority tier do not (network, validation, not found, API).
   */
  lemma ClassifierPriority(e: Thrown, message: string)
    ensures var n, m := LowerName(e), Lower(message);
      && (DetermineErrorType(e, message) == NetworkError <==> NetworkSigns(n, m))
      && (DetermineErrorType(e, message) == ValidationError <==> !NetworkSigns(n, m) && ValidationSigns(n, m))
      && (DetermineErrorType(e, message) == NotFound <==> !NetworkSigns(n, m) && !ValidationSigns(n, m) && NotFoundSigns(m))
      && (DetermineErrorType(e, message) == ApiError <==>
            !NetworkSigns(n, m) && !ValidationSigns(n, m) && !NotFoundSigns(m) && ApiSigns(n, m))
      && (DetermineErrorType(e, message) == UnknownError <==>
            !NetworkSigns(n, m) && !ValidationSigns(n, m) && !NotFoundSigns(m) && !ApiSigns(n, m))
  {
  }

  /** The network tier wins every tie: a timeout message is a network error whatever else it says ("invalid", "404", ...). */
  lemma NetworkTermsWin(e: Thrown, message: string)
    requires Contains(Lower(message), "timeout") || Contains(Lower(message), "network") || Contains(Lower(message), "fetch")
    ensures DetermineErrorType(e, message) == NetworkError
  {
  }

  /** The not-found tier is decided by the message alone: it is reached only through one of its three phrases. */
  lemma NotFoundNeedsMessagePhrase(e: Thrown, message: string)
    requires DetermineErrorType(e, message) == NotFound
    ensures Contains(Lower(message), "not found") || Contains(Lower(message), "404") || Contains(Lower(message), "does not exist")
    ensures !Contains(LowerName(e), "network") && !Contains(LowerName(e), "validation")
  {
  }

  /** The words the classifier looks for in an error's name. */
  predicate NameSigns(n: string) {
    Contains(n, "network") || Contains(n, "fetch") || Contains(n, "timeout") || Contains(n, "validation") || Contains(n, "api")
  }

  /**
    The name is consulted only by the network, validation and API tiers: two
    errors with the same message whose names hold none of those tiers' words
    are classified alike, so a name saying "not found" changes nothing.
   */
  lemma NameIgnoredOutsideNameTiers(e1: Thrown, e2: Thrown, message: string)
    requires !NameSigns(LowerName(e1)) && !NameSigns(LowerName(e2))
    ensures DetermineErrorType(e1, message) == DetermineErrorType(e2, message)
  {
  }

  /** Classification ignores letter case in the message. */
  lemma ClassificationIgnoresCase(e: Thrown, message: string)
    ensures DetermineErrorType(e, Upper(message)) == DetermineErrorType(e, message)
    ensures DetermineErrorType(e, Lower(message)) == DetermineErrorType(e, message)
  {
    LowerOfUpper(message);
    LowerIdempotent(message);
  }

  /** A non-empty context gives the `[context] ` prefix; an absent or empty one gives none. */
  function ContextPrefix(context: Option<string>): string {
    if context.Some? && context.value != "" then "[" + context.value + "] " else ""
  }

  /** `createErrorResponse(error, context)`. */
  function CreateErrorResponse(e: Thrown, context: Option<string>): (r: Envelope)
    ensures SingleText(r) && r.isError == Some(true)
    ensures context.Some? && context.value != "" ==> r.content[0].text == "[" + context.value + "] Error: " + ErrorMessage(e)
    ensures context.None? || context.value == "" ==> r.content[0].text == "Error: " + ErrorMessage(e)
  {
    Envelope([ContentItem("text", ContextPrefix(context) + "Error: " + ErrorMessage(e))], Some(true))
  }

  /** What the wrapped handler did: completed with an envelope, or threw (or rejected with) a value. */
  datatype Outcome = Returned(response: Envelope) | Threw(error: Thrown)

  /** `withErrorHandling(fn, context)` applied to one call of `fn`. */
  function WithErrorHandling(outcome: Outcome, context: string): (r: Envelope)
    ensures outcome.Returned? ==> r == outcome.response
    ensures outcome.Threw? ==> r == CreateErrorResponse(outcome.error, Some(context))
  {
    match outcome
    case Returned(resp) => resp
    case Threw(err) => CreateErrorResponse(err, Some(context))
  }

  /**
    Behind the wrapper nothing escapes as an exception: a handler that only ever
    returns success envelopes yields a single-text envelope, flagged as an
    error exactly when the handler threw.
   */
  lemma WrappedOutcomeShape(outcome: Outcome, context: string)
    requires outcome.Returned? ==> SingleText(outcome.response) && outcome.response.isError.None?
    ensures SingleText(WithErrorHandling(outcome, context))
    ensures WithErrorHandling(outcome, context).isError == Some(true) <==> outcome.Threw?
  {
  }

  /** The sentinel the workout and template handlers throw when they have no client. */
  const ClientNotInitialized := "API client not initialized. Please provide HEVY_API_KEY."

  /** The envelope a handler wrapped under `context` produces when it throws the sentinel. */
  lemma ClientGuardText(context: string)
    requires context != ""
    ensures WithErrorHandling(Threw(NewError(ClientNotInitialized)), context)
         == Envelope([ContentItem("text", "[" + context + "] Error: " + ClientNotInitialized)], Some(true))
  {
  }
}
