/**
 * The dashboard's error utilities (`blog-dashboard/src/lib/error-handling.ts`): the
 * classification of thrown values, the bounded queue of error reports kept by the
 * `ErrorHandler` singleton, and the two sequential retry loops `withRetry` and
 * `safeAsync`.
 *
 * A thrown value is one of the shapes the code tells apart. The outcome of each call of
 * the wrapped function is a parameter, `call(k)` being the outcome of attempt `k`; the
 * waits between attempts are returned as a list of milliseconds.
 */
module ErrorHandling {
  import opened Strings

  // ---------------------------------------------------------------------
  // Thrown values
  // ---------------------------------------------------------------------

  /** An `Error` instance: a plain one (with its `name`), or an `AppError` carrying an
      HTTP status (`None` when it is absent). */
  datatype Error =
    | PlainError(name: string, message: string)
    | AppError(message: string, code: string, statusCode: Option<int>, retryable: bool)

  /** Whatever a `catch` receives: an `Error`, a string, an object with a `message`
      property, or any other value; `shown` is what `String(value)` gives. */
  datatype Thrown =
    | Raised(error: Error)
    | StringValue(text: string)
    | MessageObject(message: string, shown: string)
    | OtherValue(shown: string)

  const UnknownErrorText := "Unknown error occurred"

  /** `new Error(text)`. */
  function NewError(text: string): Error {
    PlainError("Error", text)
  }

  /** `normalizeError(error)`: an `Error` as it is, a string or a `message` property as
      the text of a new `Error`, anything else as the unknown-error text. */
  function NormalizeError(t: Thrown): (r: Error)
    ensures t.Raised? ==> r == t.error
    ensures t.StringValue? ==> r == NewError(t.text)
    ensures t.MessageObject? ==> r == NewError(t.message)
    ensures t.OtherValue? ==> r == NewError(UnknownErrorText)
  {
    match t
    case Raised(e) => e
    case StringValue(s) => NewError(s)
    case MessageObject(m, _) => NewError(m)
    case OtherValue(_) => NewError(UnknownErrorText)
  }

  /** `error instanceof Error ? error : new Error(String(error))`, as both retry loops
      write it. */
  function AsError(t: Thrown): (r: Error)
    ensures t.Raised? ==> r == t.error
    ensures !t.Raised? ==> r.PlainError? && r.message == ShownText(t)
  {
    if t.Raised? then t.error else NewError(ShownText(t))
  }

  function ShownText(t: Thrown): string
    requires !t.Raised?
  {
    match t
    case StringValue(s) => s
    case MessageObject(_, shown) => shown
    case OtherValue(shown) => shown
  }

  /** A string is normalized and converted alike: both give an `Error` with the string. */
  lemma StringsNormalizeAsTheyConvert(s: string)
    ensures NormalizeError(StringValue(s)) == AsError(StringValue(s))
    ensures NormalizeError(StringValue(s)).message == s
  {
  }

  // ---------------------------------------------------------------------
  // Messages and severity
  // ---------------------------------------------------------------------

  /** The keys of `getUserFriendlyMessage`'s map with their messages, in the order
      `Object.entries` visits them. */
  const FriendlyMessages: seq<(string, string)> := [
    ("Network Error", "ネットワーク接続を確認してください"),
    ("Timeout", "リクエストがタイムアウトしました。再試行してください"),
    ("Unauthorized", "認証が必要です。ログインしてください"),
    ("Forbidden", "このリソースへのアクセス権限がありません"),
    ("Not Found", "リクエストされたリソースが見つかりません"),
    ("Internal Server Error", "サーバーエラーが発生しました。しばらく待ってから再試行してください"),
    ("Rate Limit", "リクエスト制限に達しました。しばらく待ってから再試行してください")
  ]

  const GenericFailureMessage := "処理中にエラーが発生しました"
  const UnexpectedErrorMessage := "予期しないエラーが発生しました"

  /** The index of the first entry whose key occurs in `text`, or -1. */
  function FirstKeyIn(entries: seq<(string, string)>, text: string): (r: int)
    ensures -1 <= r < |entries|
    ensures r == -1 <==> forall k :: 0 <= k < |entries| ==> !Contains(text, entries[k].0)
    ensures r != -1 ==> Contains(text, entries[r].0) && forall k :: 0 <= k < r ==> !Contains(text, entries[k].0)
  {
    if entries == [] then -1
    else if Contains(text, entries[0].0) then 0
    else
      var i := FirstKeyIn(entries[1..], text);
      if i == -1 then -1 else i + 1
  }

  /** `getUserFriendlyMessage(error)`: the message of the first key, in map order, that
      occurs in the error's text, otherwise the generic failure message. */
  function FriendlyMessage(e: Error): (r: string)
    ensures FirstKeyIn(FriendlyMessages, e.message) == -1 ==> r == GenericFailureMessage
    ensures FirstKeyIn(FriendlyMessages, e.message) != -1 ==>
      r == FriendlyMessages[FirstKeyIn(FriendlyMessages, e.message)].1
  {
    var i := FirstKeyIn(FriendlyMessages, e.message);
    if i == -1 then GenericFailureMessage else FriendlyMessages[i].1
  }

  /** The generic message is given exactly when no key occurs in the text. */
  lemma GenericOnlyWithoutKey(e: Error)
    ensures FriendlyMessage(e) == GenericFailureMessage <==>
      forall k :: 0 <= k < |FriendlyMessages| ==> !Contains(e.message, FriendlyMessages[k].0)
  {
    var i := FirstKeyIn(FriendlyMessages, e.message);
    if i != -1 {
      assert FriendlyMessages[i].1 != GenericFailureMessage;
    }
  }

  /** The map is visited in order: a text naming a network error gets the network
      message, whatever other keys (a timeout, say) it also names. */
  lemma NetworkBeforeTimeout(text: string)
    requires Contains(text, "Network Error")
    ensures FriendlyMessage(NewError(text)) == FriendlyMessages[0].1
  {
  }

  datatype Severity = Low | Medium | High | Critical

  /** `getErrorSeverity(error)`. */
  function SeverityOf(e: Error): (r: Severity)
    ensures e.AppError? ==> r != High
    ensures e.PlainError? ==> r == Medium || r == High
    ensures r == Critical <==> e.AppError? && e.statusCode.Some? && e.statusCode.value >= 500
    ensures e.PlainError? ==> (r == Medium <==> Contains(e.message, "Network") || Contains(e.message, "Timeout"))
  {
    if e.AppError? then
      if e.statusCode.Some? && e.statusCode.value != 0 && e.statusCode.value >= 500 then Critical
      else if e.statusCode.Some? && e.statusCode.value != 0 && e.statusCode.value >= 400 then Medium
      else Low
    else if Contains(e.message, "Network") || Contains(e.message, "Timeout") then Medium
    else High
  }

  /** An `AppError` is of medium severity exactly for a client-error status, and low
      without a status of 400 or more. */
  lemma AppSeverityBands(e: Error)
    requires e.AppError?
    ensures SeverityOf(e) == Medium <==> e.statusCode.Some? && 400 <= e.statusCode.value < 500
    ensures SeverityOf(e) == Low <==> e.statusCode.None? || e.statusCode.value < 400
  {
  }

  /** The message `handleError` returns for a thrown value. */
  function UserMessage(t: Thrown): (r: string)
    ensures t.Raised? && t.error.AppError? ==> r == t.error.message
    ensures t.Raised? && t.error.PlainError? ==> r == FriendlyMessage(t.error)
    ensures !t.Raised? ==> r == UnexpectedErrorMessage
  {
    if t.Raised? then
      if t.error.AppError? then t.error.message else FriendlyMessage(t.error)
    else UnexpectedErrorMessage
  }

  // ---------------------------------------------------------------------
  // The report queue
  // ---------------------------------------------------------------------

  /** Where an error happened, as the caller said; `None` for a key it left out. */
  datatype Context = Context(component: Option<string>, action: Option<string>)

  /** An error report; the user id is always absent. */
  datatype ErrorReport = ErrorReport(error: Error, context: Context, timestamp: string, handled: bool, severity: Severity)

  /** `createErrorReport(error, context)` at time `now`. */
  function ReportOf(t: Thrown, context: Context, now: string): (r: ErrorReport)
    ensures r.error == NormalizeError(t) && r.severity == SeverityOf(NormalizeError(t))
    ensures r.handled && r.context == context && r.timestamp == now
  {
    var e := NormalizeError(t);
    ErrorReport(e, context, now, true, SeverityOf(e))
  }

  const MaxQueueSize := 100

  /** The last `n` elements of `xs` (all of them when there are fewer). */
  function Newest<T>(xs: seq<T>, n: nat): (r: seq<T>)
    ensures |r| == if |xs| < n then |xs| else n
    ensures r == xs[|xs| - |r|..]
  {
    if |xs| <= n then xs else xs[|xs| - n..]
  }

  /** `errorQueue.slice(-limit)` for a non-zero `limit`: the last `limit` reports for a
      positive one, and everything after the first `-limit` for a negative one. */
  function SliceFromEnd<T>(xs: seq<T>, limit: int): (r: seq<T>)
    requires limit != 0
    ensures limit > 0 ==> r == Newest(xs, limit)
    ensures limit < 0 ==> r == xs[if -limit < |xs| then -limit else |xs|..]
  {
    var start := if limit > 0 then (if limit < |xs| then |xs| - limit else 0)
                 else (if -limit < |xs| then -limit else |xs|);
    xs[start..]
  }

  /** The singleton `ErrorHandler`, holding the queue of reports. */
  class ErrorHandler {
    var queue: seq<ErrorReport>

    /** The queue never holds more than 100 reports. */
    predicate Valid()
      reads this
    {
      |queue| <= MaxQueueSize
    }

    constructor ()
      ensures queue == [] && Valid()
    {
      queue := [];
    }

    /** `logError(report)`: the report joins the end and, past 100, the oldest leaves. */
    method LogError(report: ErrorReport)
      requires Valid()
      modifies this
      ensures Valid()
      ensures queue == Newest(old(queue) + [report], MaxQueueSize)
    {
      queue := queue + [report];
      if |queue| > MaxQueueSize {
        queue := queue[1..];
      }
    }

    /** `handleError(error, context)` at time `now`: the report is queued and the user's
        message returned. */
    method HandleError(t: Thrown, context: Context, now: string) returns (message: string)
      requires Valid()
      modifies this
      ensures Valid()
      ensures queue == Newest(old(queue) + [ReportOf(t, context, now)], MaxQueueSize)
      ensures message == UserMessage(t)
    {
      var report := ReportOf(t, context, now);
      LogError(report);
      message := UserMessage(t);
    }

    /** `getErrorHistory(limit)`: everything without a limit or with 0, otherwise
        `slice(-limit)`. */
    function GetErrorHistory(limit: Option<int>): (r: seq<ErrorReport>)
      reads this
      ensures limit.None? || limit.value == 0 ==> r == queue
      ensures limit.Some? && limit.value > 0 ==>
        |r| == (if limit.value < |queue| then limit.value else |queue|) && r == queue[|queue| - |r|..]
      ensures limit.Some? && limit.value < 0 ==> r == queue[if -limit.value < |queue| then -limit.value else |queue|..]
    {
      if limit.None? || limit.value == 0 then queue else SliceFromEnd(queue, limit.value)
    }

    /** `clearErrorHistory()`. */
    method ClearErrorHistory()
      modifies this
      ensures queue == [] && Valid()
    {
      queue := [];
    }
  }

  /** The queue after one more report keeps every earlier report that still fits, in
      order, and ends with the new one. */
  lemma {:induction false} QueueKeepsOrder(queue: seq<ErrorReport>, report: ErrorReport)
    requires |queue| <= MaxQueueSize
    ensures var q := Newest(queue + [report], MaxQueueSize);
      q[|q| - 1] == report && q[..|q| - 1] == Newest(queue, MaxQueueSize - 1)
  {
    var all := queue + [report];
    var q := Newest(all, MaxQueueSize);
    assert q == all[|all| - |q|..];
    assert q[..|q| - 1] == all[|all| - |q|..|all| - 1];
    assert all[..|all| - 1] == queue;
  }

  // ---------------------------------------------------------------------
  // Retry loops
  // ---------------------------------------------------------------------

  /** What one call of the wrapped function does. */
  datatype Attempt<T> = Succeeded(value: T) | Threw(thrown: Thrown)

  /** How a wrapper ends: with a value, or by throwing (`None` is `throw undefined`, when
      the loop never ran). */
  datatype Outcome<T> = Returned(value: T) | Rethrown(error: Option<Error>)

  function Pow2(k: nat): (r: nat)
    ensures r >= 1
  {
    if k == 0 then 1 else 2 * Pow2(k - 1)
  }

  /** The wait after failed attempt `attempt` (counted from 1) in `withRetry`. */
  function RetryDelay(backoff: bool, initialDelay: int, attempt: nat): int
    requires attempt >= 1
  {
    if backoff then initialDelay * Pow2(attempt - 1) else initialDelay
  }

  /** `withRetry(func, {maxAttempts, delay, backoff, shouldRetry})`: attempts 1, 2, …
      until one succeeds, the last allowed one fails, or `shouldRetry` declines. `calls`
      is the number of attempts and `delays` the waits between them. */
  method WithRetry<T>(call: nat -> Attempt<T>, maxAttempts: int, initialDelay: int, backoff: bool,
                      shouldRetry: (Error, nat) -> bool)
    returns (r: Outcome<T>, calls: nat, delays: seq<int>)
    ensures maxAttempts < 1 ==> calls == 0 && r == Rethrown(None)
    ensures maxAttempts >= 1 ==> 1 <= calls <= maxAttempts
    ensures forall k :: 1 <= k < calls ==> call(k).Threw? && shouldRetry(AsError(call(k).thrown), k)
    ensures r.Returned? ==> call(calls) == Succeeded(r.value)
    ensures maxAttempts >= 1 && r.Rethrown? ==>
      call(calls).Threw? && r.error == Some(AsError(call(calls).thrown)) &&
      (calls == maxAttempts || !shouldRetry(AsError(call(calls).thrown), calls))
    ensures maxAttempts >= 1 ==> (r.Returned? <==> call(calls).Succeeded?)
    ensures |delays| == (if calls == 0 then 0 else calls - 1)
    ensures forall j :: 0 <= j < |delays| ==> delays[j] == RetryDelay(backoff, initialDelay, j + 1)
  {
    calls := 0;
    delays := [];
    var attempt := 1;
    while attempt <= maxAttempts
      invariant 1 <= attempt && calls == attempt - 1
      invariant maxAttempts >= 1 ==> attempt <= maxAttempts
      invariant maxAttempts < 1 ==> attempt == 1
      invariant forall k :: 1 <= k < attempt ==> call(k).Threw? && shouldRetry(AsError(call(k).thrown), k)
      invariant |delays| == attempt - 1
      invariant forall j :: 0 <= j < |delays| ==> delays[j] == RetryDelay(backoff, initialDelay, j + 1)
      decreases maxAttempts - attempt
    {
      calls := attempt;
      match call(attempt)
      case Succeeded(v) =>
        return Returned(v), calls, delays;
      case Threw(t) =>
        var lastError := AsError(t);
        if attempt == maxAttempts || !shouldRetry(lastError, attempt) {
          return Rethrown(Some(lastError)), calls, delays;
        }
        delays := delays + [RetryDelay(backoff, initialDelay, attempt)];
        attempt := attempt + 1;
    }
    r := Rethrown(None);
  }

  /** `withRetry` with its defaults (3 attempts, 1000 ms, doubling, always retry) makes
      three attempts when every one fails, waiting 1000 and then 2000 ms. */
  method DefaultRetrySchedule<T>(call: nat -> Attempt<T>) returns (r: Outcome<T>, calls: nat, delays: seq<int>)
    requires forall k :: call(k).Threw?
    ensures calls == 3 && delays == [1000, 2000] && r == Rethrown(Some(AsError(call(3).thrown)))
  {
    r, calls, delays := WithRetry(call, 3, 1000, true, (e, k) => true);
    assert RetryDelay(true, 1000, 2) == 2000;
  }

  /** `safeAsync(asyncFunc, {fallback, onError, retries, retryDelay, context})` at time
      `now`: attempts 0 to `retries`, doubling the wait after each failure but the last.
      After the last failure the error is reported to `handler`, passed to `onError`
      (`reported`), and `fallback` returned when defined, otherwise thrown. */
  method SafeAsync<T>(call: nat -> Attempt<T>, fallback: Option<T>, retries: int, retryDelay: int,
                      context: Context, now: string, handler: ErrorHandler)
    returns (r: Outcome<T>, calls: nat, delays: seq<int>, reported: Option<Error>)
    requires handler.Valid()
    modifies handler
    ensures handler.Valid()
    ensures retries < 0 ==> calls == 0 && r == Rethrown(None) && reported.None? && handler.queue == old(handler.queue)
    ensures retries >= 0 ==> 1 <= calls <= retries + 1
    ensures forall k :: 0 <= k < calls - 1 ==> call(k).Threw?
    ensures |delays| == (if calls == 0 then 0 else calls - 1)
    ensures forall j :: 0 <= j < |delays| ==> delays[j] == retryDelay * Pow2(j)
    ensures retries >= 0 && call(calls - 1).Succeeded? ==>
      r == Returned(call(calls - 1).value) && reported.None? && handler.queue == old(handler.queue)
    ensures retries >= 0 && call(calls - 1).Threw? ==>
      calls == retries + 1 &&
      reported == Some(AsError(call(calls - 1).thrown)) &&
      handler.queue == Newest(old(handler.queue) + [ReportOf(Raised(reported.value), context, now)], MaxQueueSize) &&
      r == (if fallback.Some? then Returned(fallback.value) else Rethrown(reported))
  {
    calls := 0;
    delays := [];
    reported := None;
    var attempt := 0;
    while attempt <= retries
      invariant 0 <= attempt && calls == attempt
      invariant retries >= 0 ==> attempt <= retries
      invariant retries < 0 ==> attempt == 0
      invariant forall k :: 0 <= k < attempt ==> call(k).Threw?
      invariant |delays| == attempt
      invariant forall j :: 0 <= j < |delays| ==> delays[j] == retryDelay * Pow2(j)
      invariant handler.queue == old(handler.queue) && reported.None?
      decreases retries - attempt
    {
      calls := attempt + 1;
      match call(attempt)
      case Succeeded(v) =>
        return Returned(v), calls, delays, reported;
      case Threw(t) =>
        var lastError := AsError(t);
        if attempt < retries {
          delays := delays + [retryDelay * Pow2(attempt)];
          attempt := attempt + 1;
        } else {
          var _ := handler.HandleError(Raised(lastError), context, now);
          reported := Some(lastError);
          if fallback.Some? {
            return Returned(fallback.value), calls, delays, reported;
          }
          return Rethrown(reported), calls, delays, reported;
        }
    }
    r := Rethrown(None);
  }
}
