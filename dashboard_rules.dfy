/**
 * The rules of the dashboard page (`blog-dashboard/src/app/page.tsx`) that are not
 * rendering: the page's own error classifier, the name of the generation endpoint for
 * a category, the accepted range of the post count, and the single retry of a
 * generation that timed out.
 */
module DashboardRules {
  import opened Strings
  import EH = ErrorHandling
  import DmmApi

  // ---------------------------------------------------------------------
  // The page's error classifier
  // ---------------------------------------------------------------------

  const NetworkMessage := "ネットワークエラーが発生しました。接続を確認してください。"
  const NotFoundMessage := "リソースが見つかりません"
  const ServerErrorMessage := "サーバーエラーが発生しました"
  const UnavailableMessage := "サービスが一時的に利用できません"
  const TimeoutWord := "タイムアウト"

  /** The index of the first ASCII digit of `s` at or after `i`, or -1. */
  function FirstDigitFrom(s: string, i: nat): (r: int)
    requires i <= |s|
    ensures r == -1 || i <= r < |s|
    ensures r == -1 ==> forall k :: i <= k < |s| ==> !IsAsciiDigit(s[k])
    ensures r != -1 ==> IsAsciiDigit(s[r]) && forall k :: i <= k < r ==> !IsAsciiDigit(s[k])
    decreases |s| - i
  {
    if i == |s| then -1
    else if IsAsciiDigit(s[i]) then i
    else FirstDigitFrom(s, i + 1)
  }

  /** `s.match(/\d+/)?.[0]`: the first run of digits, `None` without a digit. */
  function FirstNumber(s: string): (r: Option<string>)
    ensures r.None? <==> forall k :: 0 <= k < |s| ==> !IsAsciiDigit(s[k])
    ensures r.Some? ==> r.value != [] && forall k :: 0 <= k < |r.value| ==> IsAsciiDigit(r.value[k])
  {
    var p := FirstDigitFrom(s, 0);
    if p == -1 then None else Some(LeadingDigits(s[p..]))
  }

  /** A text without digits followed by a run of digits: that run is the first number. */
  lemma FirstNumberAfter(prefix: string, digits: string)
    requires forall k :: 0 <= k < |prefix| ==> !IsAsciiDigit(prefix[k])
    requires digits != [] && forall k :: 0 <= k < |digits| ==> IsAsciiDigit(digits[k])
    ensures FirstNumber(prefix + digits) == Some(digits)
  {
    var s := prefix + digits;
    var p := FirstDigitFrom(s, 0);
    assert IsAsciiDigit(s[|prefix|]);
    assert p == |prefix|;
    assert s[p..] == digits;
    DmmApi.LeadingDigitsAll(digits);
  }

  /** The page's `ErrorHandler.handleError(error)` (the logging left out). */
  function PageErrorMessage(t: EH.Thrown): (r: string)
    ensures !t.Raised? ==> r == EH.UnexpectedErrorMessage
    ensures t.Raised? && Contains(t.error.message, "fetch") ==> r == NetworkMessage
    ensures t.Raised? && !Contains(t.error.message, "fetch") && Contains(t.error.message, TimeoutWord) ==>
      r == t.error.message
    ensures t.Raised? && r != t.error.message ==>
      r in {NetworkMessage, NotFoundMessage, ServerErrorMessage, UnavailableMessage}
    ensures t.Raised? && r in {NotFoundMessage, ServerErrorMessage, UnavailableMessage} && r != t.error.message ==>
      Contains(t.error.message, "HTTP Error") && FirstNumber(t.error.message).Some?
  {
    if !t.Raised? then EH.UnexpectedErrorMessage
    else
      var m := t.error.message;
      assert Contains(m, "Failed to fetch") ==> Contains(m, "fetch") by {
        if Contains(m, "Failed to fetch") {
          FailedToFetchIsFetch(m);
        }
      }
      if Contains(m, "fetch") || Contains(m, "Failed to fetch") then NetworkMessage
      else if Contains(m, TimeoutWord) then m
      else if Contains(m, "HTTP Error") then
        var status := FirstNumber(m);
        if status == Some("404") then NotFoundMessage
        else if status == Some("500") then ServerErrorMessage
        else if status == Some("503") then UnavailableMessage
        else m
      else m
  }

  /** "Failed to fetch" adds nothing to the network test: it contains "fetch". */
  lemma FailedToFetchIsFetch(m: string)
    requires Contains(m, "Failed to fetch")
    ensures Contains(m, "fetch")
  {
    assert Contains("Failed to fetch", "fetch") by {
      assert OccursAt("Failed to fetch", "fetch", 10);
    }
    ContainsTrans(m, "Failed to fetch", "fetch");
  }

  const HttpErrorPrefix := "HTTP Error: "

  /** The message of an HTTP failure of status `status`, as the page throws it. */
  function HttpFailure(status: nat): EH.Thrown {
    EH.Raised(EH.NewError(HttpErrorPrefix + NatToString(status)))
  }

  /** The page's message for `HTTP Error: ` followed by a run of digits. */
  lemma HttpDigitsMessage(d: string)
    requires d != [] && forall k :: 0 <= k < |d| ==> IsAsciiDigit(d[k])
    ensures PageErrorMessage(EH.Raised(EH.NewError(HttpErrorPrefix + d))) ==
      if d == "404" then NotFoundMessage
      else if d == "500" then ServerErrorMessage
      else if d == "503" then UnavailableMessage
      else HttpErrorPrefix + d
  {
    var m := HttpErrorPrefix + d;
    FirstCharAbsent(m, "fetch");
    FirstCharAbsent(m, "Failed to fetch");
    FirstCharAbsent(m, TimeoutWord);
    assert OccursAt(m, "HTTP Error", 0);
    FirstNumberAfter(HttpErrorPrefix, d);
    var t := EH.Raised(EH.NewError(m));
    assert t.error.message == m;
    assert PageErrorMessage(t) == if FirstNumber(m) == Some("404") then NotFoundMessage
      else if FirstNumber(m) == Some("500") then ServerErrorMessage
      else if FirstNumber(m) == Some("503") then UnavailableMessage
      else m;
  }

  /** The decimal text of a status names only that status. */
  lemma StatusText(status: nat, code: nat)
    requires code == 404 || code == 500 || code == 503
    ensures NatToString(status) == NatToString(code) <==> status == code
  {
    NatToStringRoundTrip(status);
    NatToStringRoundTrip(code);
  }

  /** A failed response of status 404, 500 or 503 gets its fixed message; any other
      status is shown as the thrown text. */
  lemma HttpStatusMessage(status: nat)
    ensures PageErrorMessage(HttpFailure(status)) ==
      if status == 404 then NotFoundMessage
      else if status == 500 then ServerErrorMessage
      else if status == 503 then UnavailableMessage
      else HttpErrorPrefix + NatToString(status)
  {
    var d := NatToString(status);
    HttpDigitsMessage(d);
    KnownCodes();
    StatusText(status, 404);
    StatusText(status, 500);
    StatusText(status, 503);
    assert (d == "404") == (status == 404) && (d == "500") == (status == 500) && (d == "503") == (status == 503);
  }

  /** The decimal texts of the three statuses the page names. */
  lemma KnownCodes()
    ensures NatToString(404) == "404" && NatToString(500) == "500" && NatToString(503) == "503"
  {
    assert NatToString(40) == "40";
    assert NatToString(50) == "50";
  }

  // ---------------------------------------------------------------------
  // Endpoint names
  // ---------------------------------------------------------------------

  /** `s.charAt(0).toUpperCase() + s.slice(1)`, for ASCII letters. */
  function Capitalize(s: string): (r: string)
    ensures |r| == |s|
    ensures s != [] ==> r[0] == UpperChar(s[0]) && r[1..] == s[1..]
  {
    if s == [] then [] else [UpperChar(s[0])] + s[1..]
  }

  const RandomCategory := "random"
  const RandomFunction := "generateRandomArticle"

  /** The generation endpoint for `category`. */
  function FunctionName(category: string): (r: string)
    ensures category == RandomCategory ==> r == RandomFunction
    ensures category != RandomCategory ==>
      |r| == |category| + 15 && r[..8] == "generate" && r[|r| - 7..] == "Article" &&
      r[8..|r| - 7] == Capitalize(category)
  {
    if category == RandomCategory then RandomFunction
    else "generate" + Capitalize(category) + "Article"
  }

  predicate StartsUpper(s: string) {
    s != [] && 'A' <= s[0] <= 'Z'
  }

  /** Categories that do not start with a capital letter get different endpoints. */
  lemma FunctionNameInjective(a: string, b: string)
    requires a != RandomCategory && b != RandomCategory
    requires !StartsUpper(a) && !StartsUpper(b)
    requires FunctionName(a) == FunctionName(b)
    ensures a == b
  {
    var ra := FunctionName(a);
    var rb := FunctionName(b);
    assert Capitalize(a) == ra[8..|ra| - 7] == rb[8..|rb| - 7] == Capitalize(b);
    if a != [] {
      assert UpperChar(a[0]) == UpperChar(b[0]);
      assert a == [a[0]] + a[1..] && b == [b[0]] + b[1..];
    }
  }

  /** A capital letter is what the rule adds, so "Random" shares the random endpoint. */
  lemma CapitalRandomCollides()
    ensures FunctionName("Random") == FunctionName(RandomCategory)
  {
    assert Capitalize("Random") == "Random";
  }

  // ---------------------------------------------------------------------
  // Post count
  // ---------------------------------------------------------------------

  const MinPostCount := 1
  const MaxPostCount := 20

  /** `parseInt(text, 10)` accepted as a post count: an integer from 1 to 20. */
  function AcceptedCount(text: string): (r: Option<int>)
    ensures r.Some? ==> MinPostCount <= r.value <= MaxPostCount && ParseInt(text) == Some(r.value)
    ensures r.None? ==> ParseInt(text).None? || ParseInt(text).value < MinPostCount || ParseInt(text).value > MaxPostCount
  {
    var n := ParseInt(text);
    if n.Some? && MinPostCount <= n.value <= MaxPostCount then n else None
  }

  /** Every count the input offers is read back as itself. */
  lemma CountRoundTrip(n: nat)
    requires MinPostCount <= n <= MaxPostCount
    ensures AcceptedCount(NatToString(n)) == Some(n)
  {
    DmmApi.ParseDigits(NatToString(n));
    NatToStringRoundTrip(n);
  }

  /** The count after the page loads: the stored value when it is non-empty and
      accepted, otherwise `current`. */
  function LoadedCount(saved: Option<string>, current: int): (r: int)
    ensures saved.Some? && saved.value != [] && AcceptedCount(saved.value).Some? ==> r == AcceptedCount(saved.value).value
    ensures saved.None? || AcceptedCount(saved.value).None? ==> r == current
    ensures MinPostCount <= current <= MaxPostCount ==> MinPostCount <= r <= MaxPostCount
  {
    if saved.Some? && saved.value != [] && AcceptedCount(saved.value).Some? then AcceptedCount(saved.value).value
    else current
  }

  /** The count after the number input changes to `text`. */
  function EditedCount(text: string, current: int): (r: int)
    ensures AcceptedCount(text).Some? ==> r == AcceptedCount(text).value
    ensures AcceptedCount(text).None? ==> r == current
    ensures MinPostCount <= current <= MaxPostCount ==> MinPostCount <= r <= MaxPostCount
  {
    if AcceptedCount(text).Some? then AcceptedCount(text).value else current
  }

  /** `batchGenerate` refuses a count outside 1..20 before any request. */
  function BatchAllowed(postCount: int): (r: bool)
    ensures r <==> MinPostCount <= postCount <= MaxPostCount
  {
    !(postCount < MinPostCount || postCount > MaxPostCount)
  }

  /** A count the page's inputs accept is always one a batch allows. */
  lemma InputsAllowBatch(saved: Option<string>, text: string, current: int)
    requires MinPostCount <= current <= MaxPostCount
    ensures BatchAllowed(LoadedCount(saved, current)) && BatchAllowed(EditedCount(text, current))
  {
  }

  // ---------------------------------------------------------------------
  // Generating one article
  // ---------------------------------------------------------------------

  const FirstTimeout := 60000
  const RetryTimeout := 90000
  const DefaultFailureText := "投稿に失敗しました"

  /** The timeout of a generation request. */
  function TimeoutFor(retryCount: int): (r: int)
    ensures r == RetryTimeout <==> retryCount > 0
    ensures r == FirstTimeout <==> retryCount <= 0
  {
    if retryCount > 0 then RetryTimeout else FirstTimeout
  }

  /** What a generation request gives back: a thrown value, or a response with its
      `ok` flag and status and the body's `success`, `error` ("" when absent) and
      `postId`. */
  datatype Reply =
    | FetchThrew(thrown: EH.Thrown)
    | Response(ok: bool, status: nat, success: bool, errorText: string, postId: string)

  /** The value the page throws for a reply, when it throws. */
  function Failure(reply: Reply): (r: Option<EH.Thrown>)
    ensures r.None? <==> reply.Response? && reply.ok && reply.success
  {
    match reply
    case FetchThrew(t) => Some(t)
    case Response(ok, status, success, errorText, _) =>
      if !ok then Some(HttpFailure(status))
      else if !success then Some(EH.Raised(EH.NewError(DmmApi.Or(errorText, DefaultFailureText))))
      else None
  }

  /** Whether a failure with user message `message` is tried again. */
  function Retries(retryCount: int, message: string, confirmed: bool): (r: bool)
    ensures r ==> retryCount < 1 && Contains(message, TimeoutWord)
  {
    retryCount < 1 && Contains(message, TimeoutWord) && confirmed
  }

  /** How a generation ends: posted, marked failed with a message, or dropped because the
      page went away before the confirmed retry. */
  datatype Ending = PostedArticle(postId: string) | MarkedFailed(message: string) | Dropped

  /** `generateArticle(category, retryCount)`: `fetch(retryCount, endpoint, timeout)` is
      the reply of the request, `confirm(retryCount)` the user's answer to the retry
      question and `mounted(retryCount)` whether the page is still there a second later.
      `timeouts` lists the timeouts of the requests made, in order. */
  method GenerateArticle(category: string, retryCount: nat, fetch: (nat, string, int) -> Reply,
                         confirm: nat -> bool, mounted: nat -> bool)
    returns (timeouts: seq<int>, ending: Ending)
    ensures 1 <= |timeouts| <= 2 && timeouts[0] == TimeoutFor(retryCount)
    ensures |timeouts| == 2 ==> retryCount < 1 && timeouts[1] == RetryTimeout
    ensures var first := Failure(fetch(retryCount, FunctionName(category), TimeoutFor(retryCount)));
      if first.None? then
        |timeouts| == 1 && ending == PostedArticle(fetch(retryCount, FunctionName(category), TimeoutFor(retryCount)).postId)
      else if !Retries(retryCount, PageErrorMessage(first.value), confirm(retryCount)) then
        |timeouts| == 1 && ending == MarkedFailed(PageErrorMessage(first.value))
      else if !mounted(retryCount) then |timeouts| == 1 && ending == Dropped
      else
        var second := fetch(retryCount + 1, FunctionName(category), RetryTimeout);
        |timeouts| == 2 &&
        ending == (if Failure(second).None? then PostedArticle(second.postId)
                   else MarkedFailed(PageErrorMessage(Failure(second).value)))
    decreases if retryCount < 1 then 1 - retryCount else 0
  {
    var name := FunctionName(category);
    var timeoutMs := TimeoutFor(retryCount);
    var reply := fetch(retryCount, name, timeoutMs);
    timeouts := [timeoutMs];
    var failure := Failure(reply);
    if failure.None? {
      return timeouts, PostedArticle(reply.postId);
    }
    var message := PageErrorMessage(failure.value);
    if Retries(retryCount, message, confirm(retryCount)) {
      if mounted(retryCount) {
        var more, last := GenerateArticle(category, retryCount + 1, fetch, confirm, mounted);
        return timeouts + more, last;
      }
      return timeouts, Dropped;
    }
    return timeouts, MarkedFailed(message);
  }
}
