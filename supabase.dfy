/**
 * The control logic of the remote adapter in supabase.ts: the in-memory TTL cache, the
 * cache key, the retry loop with its retryable-error classifier, and the branches of
 * `getPapers`, `getSummary`, `savePaper` and `saveSummary` that do not depend on the client. Every client
 * call is an oracle value; the clock is a parameter.
 */
module Supabase {

  import opened Wrappers
  import opened Text
  import opened Values

  // ---- The TTL cache ----

  /** Five minutes in milliseconds. */
  const DefaultCacheTtl: int := 5 * 60 * 1000

  datatype CacheEntry = CacheEntry(data: seq<Record>, timestamp: int, ttl: int)

  /** The module-level `Map` that `getCachedData` and `setCachedData` share. */
  class Cache {
    var entries: map<string, CacheEntry>

    constructor()
      ensures entries == map[]
    {
      entries := map[];
    }
  }

  /** An entry is stale once strictly more than `ttl` milliseconds have passed. */
  predicate Expired(e: CacheEntry, now: int) {
    now - e.timestamp > e.ttl
  }

  /** What `getCachedData(key)` returns at time `now`. */
  function CacheRead(entries: map<string, CacheEntry>, key: string, now: int): Option<seq<Record>> {
    if key !in entries || Expired(entries[key], now) then None else Some(entries[key].data)
  }

  /** The cache after `getCachedData(key)` at time `now`: a stale entry is deleted. */
  function CacheAfterRead(entries: map<string, CacheEntry>, key: string, now: int): map<string, CacheEntry> {
    if key in entries && Expired(entries[key], now) then entries - {key} else entries
  }

  method GetCachedData(c: Cache, key: string, now: int) returns (r: Option<seq<Record>>)
    modifies c
    ensures r == CacheRead(old(c.entries), key, now)
    ensures c.entries == CacheAfterRead(old(c.entries), key, now)
  {
    if key !in c.entries {
      return None;
    }
    var cached := c.entries[key];
    if now - cached.timestamp > cached.ttl {
      c.entries := c.entries - {key};
      return None;
    }
    r := Some(cached.data);
  }

  method SetCachedData(c: Cache, key: string, data: seq<Record>, ttl: int, now: int)
    modifies c
    ensures c.entries == old(c.entries)[key := CacheEntry(data, now, ttl)]
  {
    c.entries := c.entries[key := CacheEntry(data, now, ttl)];
  }

  /** A key that was never set reads as `null` and nothing changes. */
  lemma CacheMiss(entries: map<string, CacheEntry>, key: string, now: int)
    requires key !in entries
    ensures CacheRead(entries, key, now) == None && CacheAfterRead(entries, key, now) == entries
  {
  }

  /**
   * A stored entry is served while at most `ttl` milliseconds have passed (the boundary
   * included); after that it reads as `null` and is removed, and every other entry stays.
   */
  lemma CacheFreshness(entries: map<string, CacheEntry>, key: string, now: int)
    requires key in entries
    ensures now - entries[key].timestamp <= entries[key].ttl ==>
      CacheRead(entries, key, now) == Some(entries[key].data) && CacheAfterRead(entries, key, now) == entries
    ensures now - entries[key].timestamp > entries[key].ttl ==>
      && CacheRead(entries, key, now) == None
      && key !in CacheAfterRead(entries, key, now)
      && forall k :: k in entries && k != key ==> k in CacheAfterRead(entries, key, now) && CacheAfterRead(entries, key, now)[k] == entries[k]
  {
  }

  /**
   * What `setCachedData(key, data, ttl)` stored at time `t` is what a read of that key gives
   * at any time up to `t + ttl`; a read of any other key gives what it gave before the write.
   */
  lemma CacheWriteThenRead(entries: map<string, CacheEntry>, key: string, data: seq<Record>, ttl: int, t: int, now: int, other: string)
    requires now - t <= ttl && other != key
    ensures CacheRead(entries[key := CacheEntry(data, t, ttl)], key, now) == Some(data)
    ensures CacheRead(entries[key := CacheEntry(data, t, ttl)], other, now) == CacheRead(entries, other, now)
  {
  }

  // ---- Cache keys: `${operation}_${JSON.stringify(params)}` ----

  function HexDigit(d: nat): (c: char)
    requires d < 16
  {
    if d < 10 then DigitChar(d) else ('a' as int + d - 10) as char
  }

  /** How `JSON.stringify` writes one character inside a string literal. */
  function EscapeChar(c: char): (r: string)
    ensures |r| > 0
  {
    if c == '"' then "\\\""
    else if c == '\\' then "\\\\"
    else if c == '\U{8}' then "\\b"
    else if c == '\U{C}' then "\\f"
    else if c == '\n' then "\\n"
    else if c == '\r' then "\\r"
    else if c == '\t' then "\\t"
    else if c as int < 0x20 then "\\u00" + [HexDigit(c as int / 16), HexDigit(c as int % 16)]
    else [c]
  }

  function Escape(s: string): string {
    if s == [] then [] else EscapeChar(s[0]) + Escape(s[1..])
  }

  /** `JSON.stringify` of a string. */
  function Quote(s: string): string {
    "\"" + Escape(s) + "\""
  }

  function HexValue(c: char): nat {
    if '0' <= c <= '9' then c as int - '0' as int
    else if 'a' <= c <= 'f' then c as int - 'a' as int + 10
    else 0
  }

  /** Reads escaped string text back; the inverse of `Escape`. */
  function Unescape(s: string): string
    decreases |s|
  {
    if s == [] then []
    else if s[0] != '\\' || |s| < 2 then [s[0]] + Unescape(s[1..])
    else if s[1] == 'b' then ['\U{8}'] + Unescape(s[2..])
    else if s[1] == 'f' then ['\U{C}'] + Unescape(s[2..])
    else if s[1] == 'n' then ['\n'] + Unescape(s[2..])
    else if s[1] == 'r' then ['\r'] + Unescape(s[2..])
    else if s[1] == 't' then ['\t'] + Unescape(s[2..])
    else if s[1] == 'u' && |s| >= 6 then [(HexValue(s[4]) % 16 * 16 + HexValue(s[5]) % 16) as char] + Unescape(s[6..])
    else [s[1]] + Unescape(s[2..])
  }

  lemma UnescapeChar(c: char, rest: string)
    ensures Unescape(EscapeChar(c) + rest) == [c] + Unescape(rest)
  {
    var e := EscapeChar(c) + rest;
    if c != '"' && c != '\\' && c != '\U{8}' && c != '\U{C}' && c != '\n' && c != '\r' && c != '\t' && c as int < 0x20 {
      assert e[1] == 'u' && e[6..] == rest;
      assert c as int == HexValue(e[4]) % 16 * 16 + HexValue(e[5]) % 16;
    } else if c as int >= 0x20 && c != '"' && c != '\\' {
      assert e[1..] == rest;
    } else {
      assert e[2..] == rest;
    }
  }

  lemma {:induction false} UnescapeEscape(s: string)
    ensures Unescape(Escape(s)) == s
  {
    if s != [] {
      UnescapeChar(s[0], Escape(s[1..]));
      UnescapeEscape(s[1..]);
    }
  }

  /** `getCacheKey(operation, params)` with `params` already serialised. */
  function CacheKey(operation: string, params: string): string {
    operation + "_" + params
  }

  /** `JSON.stringify({ userId })` for a user id that is a string or `null`. */
  function UserIdParams(uid: Option<string>): string {
    "{\"userId\":" + StringOrNull(uid) + "}"
  }

  function StringOrNull(v: Option<string>): string {
    if v.Some? then Quote(v.value) else "null"
  }

  function PapersCacheKey(uid: Option<string>): string {
    CacheKey("getPapers", UserIdParams(uid))
  }

  lemma StripAffixes(pre: string, x: string, y: string, suf: string)
    requires pre + x + suf == pre + y + suf
    ensures x == y
  {
    var k := pre + x + suf;
    assert x == k[|pre|..|k| - |suf|];
    assert y == (pre + y + suf)[|pre|..|k| - |suf|];
  }

  /** Distinct strings serialise differently. */
  lemma QuoteInjective(a: string, b: string)
    requires Quote(a) == Quote(b)
    ensures a == b
  {
    StripAffixes("\"", Escape(a), Escape(b), "\"");
    UnescapeEscape(a);
    UnescapeEscape(b);
  }

  /** A serialised string starts with a quote, so it never reads `null`. */
  lemma StringOrNullHead(v: Option<string>)
    ensures StringOrNull(v)[0] == if v.Some? then '"' else 'n'
  {
  }

  lemma {:induction false} KeyShape(uid: Option<string>)
    ensures PapersCacheKey(uid) == "getPapers_{\"userId\":" + StringOrNull(uid) + "}"
  {
  }

  /** Distinct users, and a signed-in user and `null`, never share a `getPapers` cache entry. */
  lemma PapersCacheKeyInjective(a: Option<string>, b: Option<string>)
    requires PapersCacheKey(a) == PapersCacheKey(b)
    ensures a == b
  {
    KeyShape(a);
    KeyShape(b);
    StripAffixes("getPapers_{\"userId\":", StringOrNull(a), StringOrNull(b), "}");
    StringOrNullHead(a);
    StringOrNullHead(b);
    if a.Some? && b.Some? {
      QuoteInjective(a.value, b.value);
    }
  }

  // ---- Errors and the retry loop ----

  /** What a caught error carries that the classifier looks at; `code` is `JNull` when absent. */
  datatype ErrorInfo = ErrorInfo(message: Option<string>, code: Json, original: Option<ErrorInfo>)

  /** What leaves `withRetry`: a wrapped `SupabaseError`, or the untouched `lastError` after the loop. */
  datatype Thrown =
    | PlainError(info: ErrorInfo)
    | SupabaseError(message: string, cause: ErrorInfo, retryable: bool)
    | Rethrown(last: Option<ErrorInfo>)

  datatype Outcome<T> = Returned(value: T) | Threw(error: ErrorInfo)

  datatype RetryResult<T> = Done(value: T) | Raised(thrown: Thrown)

  /** A run of the loop: its result, how many times the operation ran, and the backoff waits. */
  datatype Run<T> = Run(result: RetryResult<T>, attempts: nat, waits: seq<nat>)

  const RetryableCodes: seq<string> := ["network", "timeout", "ECONNRESET", "ENOTFOUND"]

  predicate MessageHasCode(message: Option<string>) {
    message.Some? && exists i :: 0 <= i < |RetryableCodes| && Contains(message.value, RetryableCodes[i])
  }

  predicate CodeIsRetryable(code: Json) {
    exists i :: 0 <= i < |RetryableCodes| && code == JStr(RetryableCodes[i])
  }

  /**
   * The classifier: some retryable code occurs in the message, equals the `code` field,
   * or occurs in the message of the `originalError`.
   */
  predicate IsRetryable(e: ErrorInfo) {
    MessageHasCode(e.message) || CodeIsRetryable(e.code) || (e.original.Some? && MessageHasCode(e.original.value.message))
  }

  function FailureMessage(attempt: nat, e: ErrorInfo): string {
    "Operation failed after " + NatToString(attempt) + " attempts: " + MessageText(e.message)
  }

  /** The loop from `attempt` onwards, with `last` the error caught most recently. */
  function RetryFrom<T>(op: nat -> Outcome<T>, attempt: nat, maxRetries: int, delayMs: nat, last: Option<ErrorInfo>): Run<T>
    requires attempt >= 1
    decreases maxRetries - attempt + 1
  {
    if attempt > maxRetries then Run(Raised(Rethrown(last)), attempt - 1, [])
    else match op(attempt)
      case Returned(v) => Run(Done(v), attempt, [])
      case Threw(e) =>
        if !IsRetryable(e) || attempt == maxRetries then
          Run(Raised(SupabaseError(FailureMessage(attempt, e), e, IsRetryable(e))), attempt, [])
        else
          var rest := RetryFrom(op, attempt + 1, maxRetries, delayMs, Some(e));
          Run(rest.result, rest.attempts, [delayMs * Pow2(attempt - 1)] + rest.waits)
  }

  /** `withRetry(operation, maxRetries, delayMs)`; `op(k)` is what the k-th call of the operation does. */
  method WithRetry<T>(op: nat -> Outcome<T>, maxRetries: int, delayMs: nat) returns (result: RetryResult<T>, attempts: nat, waits: seq<nat>)
    ensures Run(result, attempts, waits) == RetryFrom(op, 1, maxRetries, delayMs, None)
  {
    var lastError: Option<ErrorInfo> := None;
    waits := [];
    attempts := 0;
    var attempt: nat := 1;
    while attempt <= maxRetries
      invariant attempt >= 1 && attempts == attempt - 1
      invariant var rest := RetryFrom(op, attempt, maxRetries, delayMs, lastError);
        RetryFrom(op, 1, maxRetries, delayMs, None) == Run(rest.result, rest.attempts, waits + rest.waits)
      decreases maxRetries - attempt
    {
      var outcome := op(attempt);
      attempts := attempt;
      if outcome.Returned? {
        assert waits + [] == waits;
        return Done(outcome.value), attempts, waits;
      }
      var error := outcome.error;
      lastError := Some(error);
      var retryable := IsRetryable(error);
      if !retryable || attempt == maxRetries {
        assert waits + [] == waits;
        return Raised(SupabaseError(FailureMessage(attempt, error), error, retryable)), attempts, waits;
      }
      ghost var rest := RetryFrom(op, attempt + 1, maxRetries, delayMs, lastError);
      assert waits + ([delayMs * Pow2(attempt - 1)] + rest.waits) == (waits + [delayMs * Pow2(attempt - 1)]) + rest.waits;
      waits := waits + [delayMs * Pow2(attempt - 1)];
      attempt := attempt + 1;
    }
    assert waits + [] == waits;
    result := Raised(Rethrown(lastError));
  }

  /** A non-retryable error ends the loop at once, wrapped with `retryable = false`. */
  lemma NonRetryableFailsFast<T>(op: nat -> Outcome<T>, maxRetries: int, delayMs: nat)
    requires maxRetries >= 1 && op(1).Threw? && !IsRetryable(op(1).error)
    ensures RetryFrom(op, 1, maxRetries, delayMs, None)
      == Run(Raised(SupabaseError(FailureMessage(1, op(1).error), op(1).error, false)), 1, [])
  {
  }

  /**
   * When every call fails retryably the operation runs exactly `maxRetries` times and the
   * final error reports that count with `retryable = true`.
   */
  lemma {:induction false} AlwaysRetryableExhausts<T>(op: nat -> Outcome<T>, attempt: nat, maxRetries: int, delayMs: nat, last: Option<ErrorInfo>)
    requires 1 <= attempt <= maxRetries
    requires forall k :: attempt <= k <= maxRetries ==> op(k).Threw? && IsRetryable(op(k).error)
    ensures var run := RetryFrom(op, attempt, maxRetries, delayMs, last);
      && run.attempts == maxRetries
      && run.result == Raised(SupabaseError(FailureMessage(maxRetries as nat, op(maxRetries).error), op(maxRetries).error, true))
      && |run.waits| == maxRetries - attempt
    decreases maxRetries - attempt
  {
    if attempt < maxRetries {
      AlwaysRetryableExhausts(op, attempt + 1, maxRetries, delayMs, Some(op(attempt).error));
    }
  }

  /** A call that succeeds after retryable failures returns its value, after exactly that many calls. */
  lemma {:induction false} SucceedsAfterRetries<T>(op: nat -> Outcome<T>, attempt: nat, k: nat, maxRetries: int, delayMs: nat, last: Option<ErrorInfo>)
    requires 1 <= attempt <= k <= maxRetries && op(k).Returned?
    requires forall j :: attempt <= j < k ==> op(j).Threw? && IsRetryable(op(j).error)
    ensures var run := RetryFrom(op, attempt, maxRetries, delayMs, last);
      run.result == Done(op(k).value) && run.attempts == k
    decreases k - attempt
  {
    if attempt < k {
      SucceedsAfterRetries(op, attempt + 1, k, maxRetries, delayMs, Some(op(attempt).error));
    }
  }

  /**
   * The backoff schedule: one wait between consecutive calls, the i-th of them
   * `delayMs * 2^(i-1)` for calls numbered from 1; the operation never runs more than
   * `maxRetries` times, and the bare `lastError` escapes exactly when `maxRetries < 1`.
   */
  lemma {:induction false} BackoffSchedule<T>(op: nat -> Outcome<T>, attempt: nat, maxRetries: int, delayMs: nat, last: Option<ErrorInfo>)
    requires attempt >= 1
    ensures var run := RetryFrom(op, attempt, maxRetries, delayMs, last);
      && (attempt <= maxRetries ==> attempt <= run.attempts <= maxRetries && |run.waits| == run.attempts - attempt)
      && (forall i :: 0 <= i < |run.waits| ==> run.waits[i] == delayMs * Pow2(attempt - 1 + i))
      && (run.result.Raised? && run.result.thrown.Rethrown? <==> attempt > maxRetries)
    decreases maxRetries - attempt + 1
  {
    if attempt <= maxRetries && op(attempt).Threw? && IsRetryable(op(attempt).error) && attempt != maxRetries {
      BackoffSchedule(op, attempt + 1, maxRetries, delayMs, Some(op(attempt).error));
      var rest := RetryFrom(op, attempt + 1, maxRetries, delayMs, Some(op(attempt).error));
      var run := RetryFrom(op, attempt, maxRetries, delayMs, last);
      assert run.waits == [delayMs * Pow2(attempt - 1)] + rest.waits;
      forall i | 0 < i < |run.waits| ensures run.waits[i] == delayMs * Pow2(attempt - 1 + i) {
        assert run.waits[i] == rest.waits[i - 1];
      }
    }
  }

  // ---- SupabaseService branches ----

  const NotConfiguredMessage: string := "Supabase is not configured. Please set up your environment variables."
  const SavePaperFailedMessage: string := "Failed to save research paper"
  const SaveSummaryFailedMessage: string := "Failed to save summary"
  const DefaultMaxRetries: int := 3
  const DefaultDelayMs: nat := 1000

  /** What one `insert([...]).select().single()` call does: a row, an `error` field, or a thrown error. */
  datatype InsertReply = Row(data: Record) | DbError | ClientThrew(error: ErrorInfo)

  /** The operation handed to `withRetry`: an `error` field becomes `new Error(failMessage)`. */
  function InsertOperation(replies: nat -> InsertReply, failMessage: string): nat -> Outcome<Record> {
    (k: nat) => match replies(k)
      case Row(d) => Returned(d)
      case DbError => Threw(ErrorInfo(Some(failMessage), JNull, None))
      case ClientThrew(e) => Threw(e)
  }

  method SavePaper(configured: bool, replies: nat -> InsertReply) returns (result: RetryResult<Record>, attempts: nat, waits: seq<nat>)
    ensures !configured ==> result == Raised(PlainError(ErrorInfo(Some(NotConfiguredMessage), JNull, None))) && attempts == 0 && waits == []
    ensures configured ==> Run(result, attempts, waits) == RetryFrom(InsertOperation(replies, SavePaperFailedMessage), 1, DefaultMaxRetries, DefaultDelayMs, None)
  {
    if !configured {
      return Raised(PlainError(ErrorInfo(Some(NotConfiguredMessage), JNull, None))), 0, [];
    }
    result, attempts, waits := WithRetry(InsertOperation(replies, SavePaperFailedMessage), DefaultMaxRetries, DefaultDelayMs);
  }

  /** The message of a failed insert has none of the retryable codes in it. */
  lemma SavePaperFailureNotRetryable()
    ensures !IsRetryable(ErrorInfo(Some(SavePaperFailedMessage), JNull, None))
  {
    var m := SavePaperFailedMessage;
    NotContainsByPair(m, "network");
    NotContainsByPair(m, "timeout");
    NotContainsByPair(m, "ECONNRESET");
    NotContainsByPair(m, "ENOTFOUND");
  }

  /** The message of a first-attempt failure. */
  lemma FirstFailureMessage(m: string, code: Json, original: Option<ErrorInfo>)
    ensures FailureMessage(1, ErrorInfo(Some(m), code, original)) == "Operation failed after 1 attempts: " + m
  {
    assert NatToString(1) == "1";
  }

  /** A database error on the first insert gives up after that one call, without waiting. */
  lemma SavePaperDbErrorFailsFast(replies: nat -> InsertReply)
    requires replies(1) == DbError
    ensures RetryFrom(InsertOperation(replies, SavePaperFailedMessage), 1, DefaultMaxRetries, DefaultDelayMs, None)
      == Run(Raised(SupabaseError("Operation failed after 1 attempts: " + SavePaperFailedMessage,
                                  ErrorInfo(Some(SavePaperFailedMessage), JNull, None), false)), 1, [])
  {
    var e := ErrorInfo(Some(SavePaperFailedMessage), JNull, None);
    var op := InsertOperation(replies, SavePaperFailedMessage);
    assert op(1) == Threw(e);
    SavePaperFailureNotRetryable();
    NonRetryableFailsFast(op, DefaultMaxRetries, DefaultDelayMs);
    FirstFailureMessage(SavePaperFailedMessage, JNull, None);
  }

  /** `SupabaseService.saveSummary(summary)`: the same retried insert, into `summaries`, with its own message. */
  method SaveSummary(configured: bool, replies: nat -> InsertReply) returns (result: RetryResult<Record>, attempts: nat, waits: seq<nat>)
    ensures !configured ==> result == Raised(PlainError(ErrorInfo(Some(NotConfiguredMessage), JNull, None))) && attempts == 0 && waits == []
    ensures configured ==> Run(result, attempts, waits) == RetryFrom(InsertOperation(replies, SaveSummaryFailedMessage), 1, DefaultMaxRetries, DefaultDelayMs, None)
  {
    if !configured {
      return Raised(PlainError(ErrorInfo(Some(NotConfiguredMessage), JNull, None))), 0, [];
    }
    result, attempts, waits := WithRetry(InsertOperation(replies, SaveSummaryFailedMessage), DefaultMaxRetries, DefaultDelayMs);
  }

  /** A failed summary insert is not retried either. */
  lemma SaveSummaryFailureNotRetryable()
    ensures !IsRetryable(ErrorInfo(Some(SaveSummaryFailedMessage), JNull, None))
  {
    var m := SaveSummaryFailedMessage;
    NotContainsByPair(m, "network");
    NotContainsByPair(m, "timeout");
    NotContainsByPair(m, "ECONNRESET");
    NotContainsByPair(m, "ENOTFOUND");
  }

  /** What the paper query resolves to: `data` (possibly `null`) and whether `error` was set. */
  datatype PapersQuery = PapersQuery(data: Option<seq<Record>>, error: bool)

  /** The list `getPapers` resolves to and the cache it leaves, reading at `readAt` and writing at `writeAt`. */
  function GetPapersSpec(entries: map<string, CacheEntry>, configured: bool, uid: Option<string>, query: PapersQuery, readAt: int, writeAt: int)
    : (map<string, CacheEntry>, seq<Record>)
  {
    if !configured then (entries, [])
    else
      var key := PapersCacheKey(uid);
      var after := CacheAfterRead(entries, key, readAt);
      match CacheRead(entries, key, readAt)
      case Some(cached) => (after, cached)
      case None =>
        if query.error then (after, [])
        else
          var papers := query.data.GetOr([]);
          (after[key := CacheEntry(papers, writeAt, DefaultCacheTtl)], papers)
  }

  /** `SupabaseService.getPapers()`; `uid` is what `getCurrentUserId()` resolved to. */
  method GetPapers(c: Cache, configured: bool, uid: Option<string>, query: PapersQuery, readAt: int, writeAt: int) returns (r: seq<Record>)
    modifies c
    ensures (c.entries, r) == GetPapersSpec(old(c.entries), configured, uid, query, readAt, writeAt)
  {
    if !configured {
      return [];
    }
    var cacheKey := PapersCacheKey(uid);
    var cachedData := GetCachedData(c, cacheKey, readAt);
    if cachedData.Some? {
      return cachedData.value;
    }
    if query.error {
      return [];
    }
    var papers := query.data.GetOr([]);
    SetCachedData(c, cacheKey, papers, DefaultCacheTtl, writeAt);
    r := papers;
  }

  /** Without a backend the list is empty and the cache untouched. */
  lemma PapersNotConfigured(entries: map<string, CacheEntry>, uid: Option<string>, query: PapersQuery, readAt: int, writeAt: int)
    ensures GetPapersSpec(entries, false, uid, query, readAt, writeAt) == (entries, [])
  {
  }

  /**
   * A query error on a miss gives `[]` and caches nothing, so the next call asks the
   * backend again whatever its clock.
   */
  lemma PapersErrorNotCached(entries: map<string, CacheEntry>, uid: Option<string>, query: PapersQuery, readAt: int, writeAt: int, nextAt: int)
    requires CacheRead(entries, PapersCacheKey(uid), readAt).None? && query.error
    ensures var (after, r) := GetPapersSpec(entries, true, uid, query, readAt, writeAt);
      r == [] && PapersCacheKey(uid) !in after && CacheRead(after, PapersCacheKey(uid), nextAt) == None
  {
  }

  /**
   * A successful query is cached under the user's key: a later call for the same user
   * within five minutes of the write returns the same list, whatever the backend would
   * answer, and a call for another user does not see it.
   */
  lemma PapersServedFromCache(entries: map<string, CacheEntry>, uid: Option<string>, other: Option<string>,
                              q1: PapersQuery, q2: PapersQuery, t1: int, w1: int, t2: int, w2: int)
    requires CacheRead(entries, PapersCacheKey(uid), t1).None? && !q1.error
    requires t2 - w1 <= DefaultCacheTtl && other != uid
    ensures var (after, r1) := GetPapersSpec(entries, true, uid, q1, t1, w1);
      && r1 == q1.data.GetOr([])
      && GetPapersSpec(after, true, uid, q2, t2, w2) == (after, r1)
      && CacheRead(after, PapersCacheKey(other), t2) == CacheRead(CacheAfterRead(entries, PapersCacheKey(uid), t1), PapersCacheKey(other), t2)
  {
    if PapersCacheKey(other) == PapersCacheKey(uid) {
      PapersCacheKeyInjective(other, uid);
    }
  }

  /** What the summary query resolves to. */
  datatype SummaryQuery = SummaryQuery(data: Option<Record>, error: bool)

  /** `SupabaseService.getSummary(paperId, targetAge)`: `null` without a backend or on a query error. */
  function GetSummary(configured: bool, query: SummaryQuery): (r: Option<Record>)
    ensures r.Some? ==> configured && !query.error && r == query.data
    ensures configured && !query.error ==> r == query.data
  {
    if !configured || query.error then None else query.data
  }
}
