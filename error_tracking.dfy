/** The error tracker of the troubleshooting chat app: it sorts provider errors into
    categories by phrases found in their messages, records them with a shortened copy of
    the user's input, and turns a record into the text shown to the user.

    The clock, the id generator and the logger are outside the model: the timestamp and a
    fresh id are parameters, and logging is left out. */
module ErrorTracking {
  import opened Wrappers
  import opened Text

  datatype ErrorType = ContentFilter | TokenLimit | RateLimit | StreamError | ModelError | ApiError | Unknown

  function TypeName(t: ErrorType): string {
    match t
    case ContentFilter => "CONTENT_FILTER"
    case TokenLimit => "TOKEN_LIMIT"
    case RateLimit => "RATE_LIMIT"
    case StreamError => "STREAM_ERROR"
    case ModelError => "MODEL_ERROR"
    case ApiError => "API_ERROR"
    case Unknown => "UNKNOWN"
  }

  /** The categories that have phrases, in the order they are tried. */
  const Categories: seq<(ErrorType, seq<string>)> := [
    (ContentFilter, ["content management policy", "content was filtered", "content policy violation"]),
    (TokenLimit, ["maximum context length", "max tokens exceeded", "token limit"]),
    (RateLimit, ["rate limit exceeded", "too many requests", "quota exceeded"]),
    (StreamError, ["stream interrupted", "connection closed", "stream error"])]

  /** Some phrase occurs in the text (`patterns.some(p => text.includes(p))`). */
  predicate AnyOccurs(text: string, patterns: seq<string>) {
    exists p :: p in patterns && Contains(text, p)
  }

  /** A provider error as the tracker reads it. */
  datatype ProviderError = ProviderError(message: string, requestId: Option<string>,
                                         status: Option<int>, statusCode: Option<int>)

  /** `t` is the category of `message`: the first category, in table order, one of whose
      phrases occurs in the lower-cased message; `Unknown` when none does. */
  ghost predicate IsTypeOf(message: string, t: ErrorType) {
    if t == Unknown then forall k :: 0 <= k < |Categories| ==> !AnyOccurs(Lower(message), Categories[k].1)
    else exists k :: 0 <= k < |Categories| && Categories[k].0 == t && AnyOccurs(Lower(message), Categories[k].1)
                     && forall j :: 0 <= j < k ==> !AnyOccurs(Lower(message), Categories[j].1)
  }

  /** Every message has exactly one category. */
  lemma TypeOfUnique(message: string, t1: ErrorType, t2: ErrorType)
    requires IsTypeOf(message, t1) && IsTypeOf(message, t2)
    ensures t1 == t2
  {
    var lower := Lower(message);
    if t1 != Unknown && t2 != Unknown {
      var k1 :| 0 <= k1 < |Categories| && Categories[k1].0 == t1 && AnyOccurs(lower, Categories[k1].1)
                && forall j :: 0 <= j < k1 ==> !AnyOccurs(lower, Categories[j].1);
      var k2 :| 0 <= k2 < |Categories| && Categories[k2].0 == t2 && AnyOccurs(lower, Categories[k2].1)
                && forall j :: 0 <= j < k2 ==> !AnyOccurs(lower, Categories[j].1);
      assert k1 == k2;
    }
  }

  /** The category of a message, trying the categories in table order. */
  method DetermineErrorType(message: string) returns (t: ErrorType)
    ensures IsTypeOf(message, t)
    ensures t == Unknown <==> forall k :: 0 <= k < |Categories| ==> !AnyOccurs(Lower(message), Categories[k].1)
  {
    var lower := Lower(message);
    var k := 0;
    while k < |Categories|
      invariant 0 <= k <= |Categories|
      invariant forall j :: 0 <= j < k ==> !AnyOccurs(lower, Categories[j].1)
    {
      if AnyOccursCheck(lower, Categories[k].1) {
        return Categories[k].0;
      }
      k := k + 1;
    }
    t := Unknown;
  }

  /** Tries the phrases one by one. */
  function AnyOccursCheck(text: string, patterns: seq<string>): (b: bool)
    ensures b <==> AnyOccurs(text, patterns)
  {
    if patterns == [] then false
    else Contains(text, patterns[0]) || AnyOccursCheck(text, patterns[1..])
  }

  /** The two categories without phrases are never the outcome of classification, and every
      category with phrases is. */
  lemma CategoriesWithPhrases()
    ensures forall k :: 0 <= k < |Categories| ==> Categories[k].0 != ModelError && Categories[k].0 != ApiError
    ensures forall k :: 0 <= k < |Categories| ==> Categories[k].0 != Unknown
  {
  }

  /** The stored copy of the input: empty for no input, otherwise its first 100 characters
      followed by `...`, even when nothing was cut. */
  function SanitizeInput(input: Option<string>): (r: string)
    ensures input.None? || input.value == "" ==> r == ""
    ensures input.Some? && input.value != "" ==>
      && EndsWith(r, "...") && |r| == (if |input.value| < 100 then |input.value| else 100) + 3
      && StartsWith(input.value, r[..|r| - 3])
  {
    if input.None? || input.value == "" then ""
    else
      var s := input.value;
      var kept := if |s| < 100 then s else s[..100];
      kept + "..."
  }

  /** What `trackError` records (and logs). */
  datatype ErrorData = ErrorData(
    errorType: ErrorType, provider: string, model: string, message: string, timestamp: string,
    requestId: string, statusCode: Option<int>, input: string)

  /** Records an error: its category, its own request id when it has one (otherwise a fresh
      id), its status, and the sanitised input. */
  method TrackError(error: ProviderError, provider: string, model: string, input: Option<string>,
                    timestamp: string, freshId: string) returns (data: ErrorData)
    ensures data.requestId == if error.requestId.Some? && error.requestId.value != "" then error.requestId.value else freshId
    ensures data.input == SanitizeInput(input)
    ensures data.message == error.message && data.provider == provider && data.model == model
    ensures data.timestamp == timestamp
    ensures data.statusCode == if error.status.Some? && error.status.value != 0 then error.status else error.statusCode
    ensures IsTypeOf(error.message, data.errorType)
    ensures data.errorType != ModelError && data.errorType != ApiError
    ensures data.errorType == Unknown <==>
      forall k :: 0 <= k < |Categories| ==> !AnyOccurs(Lower(error.message), Categories[k].1)
  {
    var t := DetermineErrorType(error.message);
    var requestId := if error.requestId.Some? && error.requestId.value != "" then error.requestId.value else freshId;
    var status := if error.status.Some? && error.status.value != 0 then error.status else error.statusCode;
    data := ErrorData(t, provider, model, error.message, timestamp, requestId, status, SanitizeInput(input));
  }

  const UnknownMessage := "An unexpected error occurred. Please try again."

  /** The text shown for a category; the categories without a text of their own get the
      text for unknown errors. */
  function UserMessage(t: ErrorType): (text: string)
    ensures text != ""
    ensures t == ModelError || t == ApiError || t == Unknown ==> text == UnknownMessage
  {
    match t
    case ContentFilter => "Your request contained content that cannot be processed. Please modify and try again."
    case TokenLimit => "The request was too long. Please try with a shorter message."
    case RateLimit => "Too many requests. Please try again in a moment."
    case StreamError => "Connection interrupted. Please try again."
    case _ => UnknownMessage
  }

  datatype UserFacingError = UserFacingError(message: string, requestId: string)

  /** The user sees the category's text and the request id, passed through unchanged. */
  function CreateUserFacingError(data: ErrorData): (e: UserFacingError)
    ensures e.requestId == data.requestId
    ensures e.message == UserMessage(data.errorType)
  {
    UserFacingError(UserMessage(data.errorType), data.requestId)
  }
}
