/**
 * The call wrapper of gemini.ts: the attempt loop around the model call, and what each
 * `GeminiService` method does with the reply (truncating the content it sends, cutting
 * the JSON span out of the reply, wrapping errors). The model is an oracle giving the
 * outcome of its k-th call; `JSON.parse` is an oracle too. Errors are represented by
 * their `message`.
 */
module Gemini {

  import opened Wrappers
  import opened Text
  import opened Values

  const CallQuotaMessage: string := "API quota exceeded. " + "Please try again later or upgrade your Gemini API plan. "
    + "Free tier has very limited requests per day. Consider using a paid plan for development."
  const NoResponseMessage: string := "Failed to call Gemini API after retries"
  const NoJsonMessage: string := "No valid JSON found in response"
  const DefaultMaxRetries: int := 2

  /** The outcome of one model call: the response text, or an error with an optional message. */
  datatype GenAttempt = Generated(text: string) | GenError(message: Option<string>)

  /** What `callGeminiWithRetry` resolves to, or the message of what it throws. */
  datatype CallResult = Reply(text: string) | CallFailed(message: Option<string>)

  /** A run of the loop: its result, how many model calls it made, and the waits between them. */
  datatype CallRun = CallRun(result: CallResult, attempts: nat, waits: seq<nat>)

  predicate IsQuotaError(message: Option<string>) {
    message.Some? && (Contains(message.value, "429") || Contains(message.value, "quota"))
  }

  predicate IsRateLimitError(message: Option<string>) {
    message.Some? && Contains(message.value, "rate limit")
  }

  /** The loop from the 0-based `attempt` onwards, with `last` the message of the error caught most recently. */
  function CallFrom(gen: nat -> GenAttempt, attempt: nat, maxRetries: int, last: Option<Option<string>>): CallRun
    decreases maxRetries + 1 - attempt
  {
    if attempt > maxRetries then
      CallRun(if last.Some? then CallFailed(last.value) else CallFailed(Some(NoResponseMessage)), attempt, [])
    else match gen(attempt)
      case Generated(t) => CallRun(Reply(t), attempt + 1, [])
      case GenError(m) =>
        if IsQuotaError(m) then CallRun(CallFailed(Some(CallQuotaMessage)), attempt + 1, [])
        else if IsRateLimitError(m) && attempt < maxRetries then
          var rest := CallFrom(gen, attempt + 1, maxRetries, Some(m));
          CallRun(rest.result, rest.attempts, [Pow2(attempt) * 1000] + rest.waits)
        else CallRun(CallFailed(m), attempt + 1, [])
  }

  /** `callGeminiWithRetry(prompt, maxRetries)`; `gen(k)` is what the model call numbered k (from 0) does. */
  method CallGeminiWithRetry(gen: nat -> GenAttempt, maxRetries: int) returns (result: CallResult, attempts: nat, waits: seq<nat>)
    ensures CallRun(result, attempts, waits) == CallFrom(gen, 0, maxRetries, None)
  {
    var lastError: Option<Option<string>> := None;
    waits := [];
    var attempt: nat := 0;
    while attempt <= maxRetries
      invariant var rest := CallFrom(gen, attempt, maxRetries, lastError);
        CallFrom(gen, 0, maxRetries, None) == CallRun(rest.result, rest.attempts, waits + rest.waits)
      decreases maxRetries + 1 - attempt
    {
      var outcome := gen(attempt);
      if outcome.Generated? {
        assert waits + [] == waits;
        return Reply(outcome.text), attempt + 1, waits;
      }
      var message := outcome.message;
      lastError := Some(message);
      if IsQuotaError(message) {
        assert waits + [] == waits;
        return CallFailed(Some(CallQuotaMessage)), attempt + 1, waits;
      }
      if IsRateLimitError(message) && attempt < maxRetries {
        ghost var rest := CallFrom(gen, attempt + 1, maxRetries, lastError);
        assert waits + ([Pow2(attempt) * 1000] + rest.waits) == (waits + [Pow2(attempt) * 1000]) + rest.waits;
        waits := waits + [Pow2(attempt) * 1000];
        attempt := attempt + 1;
        continue;
      }
      assert waits + [] == waits;
      return CallFailed(message), attempt + 1, waits;
    }
    assert waits + [] == waits;
    attempts := attempt;
    result := if lastError.Some? then CallFailed(lastError.value) else CallFailed(Some(NoResponseMessage));
  }

  /**
   * A `429` or `quota` error ends the loop on that call, even when it also mentions a
   * rate limit, and what is thrown is the quota message.
   */
  lemma QuotaFailsFast(gen: nat -> GenAttempt, maxRetries: int)
    requires maxRetries >= 0 && gen(0).GenError? && IsQuotaError(gen(0).message)
    ensures CallFrom(gen, 0, maxRetries, None) == CallRun(CallFailed(Some(CallQuotaMessage)), 1, [])
  {
  }

  /** Any error that is neither a quota error nor a retryable rate limit stops the loop and is rethrown as it is. */
  lemma OtherErrorStops(gen: nat -> GenAttempt, attempt: nat, maxRetries: int, last: Option<Option<string>>)
    requires attempt <= maxRetries && gen(attempt).GenError?
    requires !IsQuotaError(gen(attempt).message) && (!IsRateLimitError(gen(attempt).message) || attempt == maxRetries)
    ensures CallFrom(gen, attempt, maxRetries, last) == CallRun(CallFailed(gen(attempt).message), attempt + 1, [])
  {
  }

  /**
   * When every call reports a rate limit, the model is called `maxRetries + 1` times, the
   * wait after call i is `2^i * 1000` ms, and the last error is what is thrown.
   */
  lemma {:induction false} RateLimitExhausts(gen: nat -> GenAttempt, attempt: nat, maxRetries: int, last: Option<Option<string>>)
    requires attempt <= maxRetries
    requires forall k :: attempt <= k <= maxRetries ==>
      gen(k).GenError? && !IsQuotaError(gen(k).message) && IsRateLimitError(gen(k).message)
    ensures var run := CallFrom(gen, attempt, maxRetries, last);
      && run.attempts == maxRetries + 1
      && run.result == CallFailed(gen(maxRetries as nat).message)
      && |run.waits| == maxRetries - attempt
      && forall i :: 0 <= i < |run.waits| ==> run.waits[i] == Pow2(attempt + i) * 1000
    decreases maxRetries - attempt
  {
    if attempt < maxRetries {
      RateLimitExhausts(gen, attempt + 1, maxRetries, Some(gen(attempt).message));
      var rest := CallFrom(gen, attempt + 1, maxRetries, Some(gen(attempt).message));
      var run := CallFrom(gen, attempt, maxRetries, last);
      forall i | 0 < i < |run.waits| ensures run.waits[i] == Pow2(attempt + i) * 1000 {
        assert run.waits[i] == rest.waits[i - 1];
      }
    }
  }

  /** The loop never calls the model more than `maxRetries + 1` times, and waits once fewer than it calls. */
  lemma {:induction false} CallBounds(gen: nat -> GenAttempt, attempt: nat, maxRetries: int, last: Option<Option<string>>)
    requires attempt <= maxRetries
    ensures var run := CallFrom(gen, attempt, maxRetries, last);
      attempt < run.attempts <= maxRetries + 1 && |run.waits| == run.attempts - attempt - 1
    decreases maxRetries - attempt
  {
    if gen(attempt).GenError? && !IsQuotaError(gen(attempt).message) && IsRateLimitError(gen(attempt).message) && attempt < maxRetries {
      CallBounds(gen, attempt + 1, maxRetries, Some(gen(attempt).message));
    }
  }

  /** With a negative retry count the model is never called and the generic failure is thrown. */
  lemma NoAttemptsFails(gen: nat -> GenAttempt, maxRetries: int)
    requires maxRetries < 0
    ensures CallFrom(gen, 0, maxRetries, None) == CallRun(CallFailed(Some(NoResponseMessage)), 0, [])
  {
  }

  // ---- What the service methods do with the reply ----

  /** `content.substring(0, n)`. */
  function Truncate(s: string, n: nat): (r: string)
    ensures |r| == if |s| < n then |s| else n
    ensures r == s[..|r|]
  {
    if |s| <= n then s else s[..n]
  }

  /** The cognitive level the summary prompt states for an age. */
  function CognitiveLevel(age: int): string {
    if age <= 13 then "Middle school" else if age <= 16 then "High school" else if age <= 20 then "College" else "Graduate"
  }

  function LevelRank(level: string): nat {
    if level == "Middle school" then 0 else if level == "High school" then 1 else if level == "College" then 2 else 3
  }

  /** The four levels in age order, with their boundaries at 13, 16 and 20 inclusive. */
  lemma CognitiveLevelBands(a: int, b: int)
    requires a <= b
    ensures LevelRank(CognitiveLevel(a)) <= LevelRank(CognitiveLevel(b))
    ensures CognitiveLevel(a) == "Middle school" <==> a <= 13
    ensures CognitiveLevel(a) == "High school" <==> 13 < a <= 16
    ensures CognitiveLevel(a) == "College" <==> 16 < a <= 20
    ensures CognitiveLevel(a) == "Graduate" <==> a > 20
  {
  }

  /**
   * The bounds of the greedy match of `/\{[\s\S]*\}/`: from the first `{` to the last `}`,
   * when that `}` comes after the `{`.
   */
  function JsonSpanBounds(text: string): (r: Option<(nat, nat)>)
    ensures r.Some? ==>
      && r.value.0 < r.value.1 < |text| && text[r.value.0] == '{' && text[r.value.1] == '}'
      && (forall k :: 0 <= k < r.value.0 ==> text[k] != '{')
      && (forall k :: r.value.1 < k < |text| ==> text[k] != '}')
    ensures r.None? ==> forall p, q :: 0 <= p < q < |text| && text[p] == '{' ==> text[q] != '}'
  {
    match (FirstIndexOf(text, '{'), LastIndexOf(text, '}'))
    case (Some(i), Some(j)) => if i < j then Some((i, j)) else None
    case _ => None
  }

  /** The matched text `jsonMatch[0]`. */
  function JsonSpan(text: string): (r: Option<string>)
    ensures r.Some? ==> |r.value| >= 2 && r.value[0] == '{' && r.value[|r.value| - 1] == '}'
    ensures r.Some? <==> JsonSpanBounds(text).Some?
    ensures r.Some? ==> r.value == text[JsonSpanBounds(text).value.0..JsonSpanBounds(text).value.1 + 1]
  {
    match JsonSpanBounds(text)
    case None => None
    case Some((i, j)) => Some(text[i..j + 1])
  }

  /** Surrounding text is dropped: wrapping a JSON object in prose without braces gives that object back. */
  lemma {:induction false} JsonSpanOfWrapped(before: string, obj: string, after: string)
    requires |obj| >= 2 && obj[0] == '{' && obj[|obj| - 1] == '}'
    requires forall k :: 0 <= k < |before| ==> before[k] != '{'
    requires forall k :: 0 <= k < |after| ==> after[k] != '}'
    ensures JsonSpan(before + obj + after) == Some(obj)
  {
    var text := before + obj + after;
    var i, j := |before|, |before| + |obj| - 1;
    assert text[i] == '{' && text[j] == '}';
    assert forall k :: 0 <= k < i ==> text[k] == before[k];
    assert forall k :: j < k < |text| ==> text[k] == after[k - j - 1];
    assert text[i..j + 1] == obj;
  }

  /** The five `GeminiService` methods. */
  datatype Task = AnalyzePaper | AgeSummary | SimilarPapers | CodeGeneration | Visualization

  /** How much of the content each prompt carries. */
  function ContentLimit(t: Task): nat {
    if t == AnalyzePaper then 2000 else 1500
  }

  function TaskQuotaMessage(t: Task): string {
    if t == AnalyzePaper then
      "API quota exceeded. The free tier of Gemini API has very limited daily requests. Please wait 24 hours for quota reset or upgrade to a paid plan for higher limits."
    else "API quota exceeded. Please wait for quota reset or upgrade your plan."
  }

  function TaskPrefix(t: Task): string {
    match t
    case AnalyzePaper => "Failed to analyze research paper: "
    case AgeSummary => "Failed to generate age-appropriate summary: "
    case SimilarPapers => "Failed to find similar papers: "
    case CodeGeneration => "Failed to generate code implementation: "
    case Visualization => "Failed to generate visualization: "
  }

  /** The `catch` of every service method: a message mentioning quota is replaced, any other is prefixed. */
  function WrapError(t: Task, message: Option<string>): (r: string)
    ensures message.Some? && Contains(message.value, "quota") ==> r == TaskQuotaMessage(t)
    ensures !(message.Some? && Contains(message.value, "quota")) ==> r == TaskPrefix(t) + MessageText(message)
  {
    if message.Some? && Contains(message.value, "quota") then TaskQuotaMessage(t) else TaskPrefix(t) + MessageText(message)
  }

  /** `parsed.papers || []` for the similar-papers search; every other method returns what was parsed. */
  function Finish(t: Task, parsed: Json): (r: Json)
    ensures t != SimilarPapers ==> r == parsed
    ensures t == SimilarPapers && parsed.JObj? && Truthy(Field(parsed.fields, "papers")) ==> r == parsed.fields["papers"]
    ensures t == SimilarPapers && !(parsed.JObj? && Truthy(Field(parsed.fields, "papers"))) ==> r == JArr([])
  {
    if t != SimilarPapers then parsed
    else if parsed.JObj? && Truthy(Field(parsed.fields, "papers")) then parsed.fields["papers"]
    else JArr([])
  }

  /** From the loop's outcome to the method's: extract the span, parse it, finish it, or wrap what went wrong. */
  function Complete(t: Task, call: CallResult, parse: string -> Result<Json, string>): Result<Json, string> {
    match call
    case CallFailed(m) => Failure(WrapError(t, m))
    case Reply(text) =>
      match JsonSpan(text)
      case None => Failure(WrapError(t, Some(NoJsonMessage)))
      case Some(span) =>
        match parse(span)
        case Failure(m) => Failure(WrapError(t, Some(m)))
        case Success(v) => Success(Finish(t, v))
  }

  /** The model calls of one method, made with a prompt built from the truncated content. */
  function Calls(model: (string, nat) -> GenAttempt, truncated: string): nat -> GenAttempt {
    (k: nat) => model(truncated, k)
  }

  /**
   * One `GeminiService` method. The prompt text is left out; `model(c, k)` is what the k-th
   * call does when the prompt carries content `c`.
   */
  method RunTask(t: Task, content: string, model: (string, nat) -> GenAttempt, parse: string -> Result<Json, string>)
    returns (r: Result<Json, string>)
    ensures r == Complete(t, CallFrom(Calls(model, Truncate(content, ContentLimit(t))), 0, DefaultMaxRetries, None).result, parse)
  {
    var truncated := Truncate(content, ContentLimit(t));
    var text, _, _ := CallGeminiWithRetry(Calls(model, truncated), DefaultMaxRetries);
    r := Complete(t, text, parse);
  }

  /** Only the first `ContentLimit(t)` characters of the content can influence the outcome. */
  lemma TruncationBound(t: Task, c1: string, c2: string, model: (string, nat) -> GenAttempt, parse: string -> Result<Json, string>)
    requires |c1| >= ContentLimit(t) && |c2| >= ContentLimit(t) && c1[..ContentLimit(t)] == c2[..ContentLimit(t)]
    ensures Complete(t, CallFrom(Calls(model, Truncate(c1, ContentLimit(t))), 0, DefaultMaxRetries, None).result, parse)
         == Complete(t, CallFrom(Calls(model, Truncate(c2, ContentLimit(t))), 0, DefaultMaxRetries, None).result, parse)
  {
  }

  /** The loop's quota error never reaches the caller as it is: each method replaces it with its own quota message. */
  lemma QuotaSurfacesAsTaskMessage(t: Task, parse: string -> Result<Json, string>)
    ensures Complete(t, CallFailed(Some(CallQuotaMessage)), parse) == Failure(TaskQuotaMessage(t))
  {
    CallQuotaMentionsQuota();
    QuotaMessageReplaced(t, CallQuotaMessage, parse);
  }

  lemma QuotaMessageReplaced(t: Task, m: string, parse: string -> Result<Json, string>)
    requires Contains(m, "quota")
    ensures Complete(t, CallFailed(Some(m)), parse) == Failure(TaskQuotaMessage(t))
  {
    assert WrapError(t, Some(m)) == TaskQuotaMessage(t);
  }

  lemma CallQuotaMentionsQuota()
    ensures Contains(CallQuotaMessage, "quota")
  {
    var a, b := "API quota exceeded. ", "Please try again later or upgrade your Gemini API plan. ";
    assert OccursAt(a, "quota", 4);
    ContainsInPrefix(a, b, "quota");
    ContainsInPrefix(a + b, "Free tier has very limited requests per day. Consider using a paid plan for development.", "quota");
  }

  /** A reply without a `{ ... }` span fails with the method's prefix and "No valid JSON found in response". */
  lemma NoJsonFailure(t: Task, text: string, parse: string -> Result<Json, string>)
    requires forall p, q :: 0 <= p < q < |text| && text[p] == '{' ==> text[q] != '}'
    ensures Complete(t, Reply(text), parse) == Failure(TaskPrefix(t) + NoJsonMessage)
  {
    NotContainsByPair(NoJsonMessage, "quota");
  }

  /** A reply with a span hands exactly that span to the parser, and a parsed value is returned finished. */
  lemma SpanReachesParser(t: Task, text: string, parse: string -> Result<Json, string>)
    requires JsonSpan(text).Some? && parse(JsonSpan(text).value).Success?
    ensures Complete(t, Reply(text), parse) == Success(Finish(t, parse(JsonSpan(text).value).value))
  {
  }
}
