/** The error handler of core/error_handler.py: it sorts a raised error into
    a kind by ordered substring tests, decides whether the kind is worth a
    retry, gives the retry policy of each kind, and keeps an append-only
    history of handled errors with a rollback plan and statistics over it. */
module ErrorHandling {
  import opened Text
  import opened Wrappers

  datatype ErrorType = ApiError | Timeout | RateLimit | AuthError | Unknown
  {
    function Value(): string
    {
      match this
      case ApiError => "api_error"
      case Timeout => "timeout"
      case RateLimit => "rate_limit"
      case AuthError => "auth_error"
      case Unknown => "unknown"
    }

    /** The position of the kind's test in the classifier; Unknown comes last. */
    function Rank(): nat
    {
      match this
      case Timeout => 0
      case RateLimit => 1
      case AuthError => 2
      case ApiError => 3
      case Unknown => 4
    }
  }

  /** What the handler sees of a raised exception: its text and whether it
      is a `TimeoutError`. */
  datatype Exception = Exception(message: string, isTimeoutError: bool)

  /** The evidence for each kind in an error, as the classifier tests it on
      the lower-cased text. */
  predicate Signals(t: ErrorType, e: Exception)
  {
    var text := Lower(e.message);
    match t
    case Timeout => Contains(text, "timeout") || e.isTimeoutError
    case RateLimit => Contains(text, "rate limit") || Contains(text, "429")
    case AuthError => Contains(text, "auth") || Contains(text, "401") || Contains(text, "403")
    case ApiError => Contains(text, "api")
    case Unknown => true
  }

  /** `_classify_error`: the first kind, in test order, whose evidence is
      present; Unknown when there is none. */
  function ClassifyError(e: Exception): (t: ErrorType)
    ensures Signals(t, e)
    ensures forall u: ErrorType :: u.Rank() < t.Rank() ==> !Signals(u, e)
  {
    var text := Lower(e.message);
    if Contains(text, "timeout") || e.isTimeoutError then Timeout
    else if Contains(text, "rate limit") || Contains(text, "429") then RateLimit
    else if Contains(text, "auth") || Contains(text, "401") || Contains(text, "403") then AuthError
    else if Contains(text, "api") then ApiError
    else Unknown
  }

  /** Case does not matter: an upper-case message classifies like its lower-case form. */
  lemma ClassifyIgnoresCase(e: Exception)
    ensures ClassifyError(Exception(Lower(e.message), e.isTimeoutError)) == ClassifyError(e)
  {
    LowerIdempotent(e.message);
  }

  /** A `TimeoutError` is a timeout whatever its text says. */
  lemma TimeoutErrorIsTimeout(message: string)
    ensures ClassifyError(Exception(message, true)) == Timeout
  {
  }

  /** `_should_retry`: API errors, timeouts and rate limits are retried. */
  function ShouldRetry(t: ErrorType): (r: bool)
    ensures r <==> t != AuthError && t != Unknown
  {
    t == ApiError || t == Timeout || t == RateLimit
  }

  /** A retry policy; the multiplier is kept in tenths. */
  datatype RetryStrategy = RetryStrategy(
    maxAttempts: nat,
    waitType: string,
    multiplierTenths: nat,
    minWait: nat,
    maxWait: nat)

  /** `get_retry_strategy`. Every kind has an entry, so the fallback to the
      unknown kind's entry is never taken. */
  function GetRetryStrategy(t: ErrorType): (s: RetryStrategy)
    ensures s.minWait <= s.maxWait
    ensures s.maxAttempts == 0 <==> t == AuthError
    ensures t == AuthError ==> s == RetryStrategy(0, "none", 0, 0, 0)
    ensures t != AuthError ==> s.waitType == "exponential" && 0 < s.minWait && s.multiplierTenths >= 15
  {
    match t
    case Timeout => RetryStrategy(3, "exponential", 20, 2, 10)
    case RateLimit => RetryStrategy(5, "exponential", 30, 5, 30)
    case ApiError => RetryStrategy(3, "exponential", 15, 1, 10)
    case AuthError => RetryStrategy(0, "none", 0, 0, 0)
    case Unknown => RetryStrategy(2, "exponential", 20, 1, 5)
  }

  /** The policy table and the retry decision disagree on one kind: an
      unknown error is not retried although its policy allows two attempts. */
  lemma UnknownHasAttemptsButNoRetry()
    ensures !ShouldRetry(Unknown) && GetRetryStrategy(Unknown).maxAttempts == 2
  {
  }

  /** Rate limits get the most attempts and the longest waits. */
  lemma RateLimitIsMostPatient(t: ErrorType)
    ensures GetRetryStrategy(t).maxAttempts <= GetRetryStrategy(RateLimit).maxAttempts
    ensures GetRetryStrategy(t).maxWait <= GetRetryStrategy(RateLimit).maxWait
  {
  }

  /** One entry of the error history. */
  datatype ErrorRecord = ErrorRecord(
    errorType: ErrorType,
    message: string,
    context: map<string, string>,
    shouldRetry: bool)

  /** A record keeps the retry decision of its own kind. */
  predicate Consistent(r: ErrorRecord)
  {
    r.shouldRetry == ShouldRetry(r.errorType)
  }

  /** A task of the history handed to `rollback`: its status and its id,
      either of which may be missing. `None` for the id stands for a missing
      `task_id` key; a key present with the value `None` is not modelled
      (the source would record a cleanup with that id). */
  datatype Task = Task(status: Option<string>, taskId: Option<string>)

  predicate Completed(task: Task)
  {
    task.status == Some("completed")
  }

  /** Reading the id of a completed task that has none raises KeyError. */
  datatype RollbackError = KeyError

  /** The ids cleaned up for `tasks`, visiting them from the last to the
      first: the later tasks are handled, then the first one. */
  function CleanupsOf(tasks: seq<Task>): (r: Result<seq<string>, RollbackError>)
    ensures r.Ok? ==> |r.value| <= |tasks|
  {
    if |tasks| == 0 then Ok([])
    else match CleanupsOf(tasks[1..])
      case Err(e) => Err(e)
      case Ok(later) =>
        if !Completed(tasks[0]) then Ok(later)
        else if tasks[0].taskId.None? then Err(KeyError)
        else Ok(later + [tasks[0].taskId.value])
  }

  /** The ids of the completed tasks, in history order. */
  function CompletedIds(tasks: seq<Task>): seq<string>
    requires forall k :: 0 <= k < |tasks| && Completed(tasks[k]) ==> tasks[k].taskId.Some?
  {
    if |tasks| == 0 then []
    else (if Completed(tasks[0]) then [tasks[0].taskId.value] else []) + CompletedIds(tasks[1..])
  }

  function Reverse<T>(s: seq<T>): (r: seq<T>)
    ensures |r| == |s|
  {
    if |s| == 0 then [] else Reverse(s[1..]) + [s[0]]
  }

  /** When every completed task has an id, the rollback cleans up exactly the
      completed tasks, most recent first. */
  lemma {:induction false} CleanupsAreCompletedReversed(tasks: seq<Task>)
    requires forall k :: 0 <= k < |tasks| && Completed(tasks[k]) ==> tasks[k].taskId.Some?
    ensures CleanupsOf(tasks) == Ok(Reverse(CompletedIds(tasks)))
  {
    if |tasks| > 0 {
      CleanupsAreCompletedReversed(tasks[1..]);
      var rest := CompletedIds(tasks[1..]);
      if Completed(tasks[0]) {
        var ids := [tasks[0].taskId.value] + rest;
        assert ids[1..] == rest;
      } else {
        assert CompletedIds(tasks) == rest;
      }
    }
  }

  /** A completed task without an id makes the rollback raise. */
  lemma {:induction false} MissingIdRaises(tasks: seq<Task>, k: nat)
    requires k < |tasks| && Completed(tasks[k]) && tasks[k].taskId.None?
    ensures CleanupsOf(tasks) == Err(KeyError)
  {
    if k > 0 {
      assert tasks[1..][k - 1] == tasks[k];
      MissingIdRaises(tasks[1..], k - 1);
    } else {
      match CleanupsOf(tasks[1..])
      case Err(e) => assert e == KeyError;
      case Ok(_) =>
    }
  }

  /** The result of `rollback`. */
  datatype RollbackResult = RollbackResult(success: bool, cleaned: seq<string>, errorCount: nat)

  /** The result of `get_error_statistics`. */
  datatype Statistics = Statistics(total: nat, counts: map<ErrorType, nat>, recent: seq<ErrorRecord>)

  /** How many records of `history` have kind `t`. */
  function Count(history: seq<ErrorRecord>, t: ErrorType): (n: nat)
    ensures n <= |history|
  {
    if |history| == 0 then 0
    else Count(history[..|history| - 1], t) + (if history[|history| - 1].errorType == t then 1 else 0)
  }

  /** Every record is counted under exactly one kind. */
  lemma {:induction false} CountsSumToTotal(history: seq<ErrorRecord>)
    ensures Count(history, ApiError) + Count(history, Timeout) + Count(history, RateLimit)
          + Count(history, AuthError) + Count(history, Unknown) == |history|
  {
    if |history| > 0 {
      CountsSumToTotal(history[..|history| - 1]);
    }
  }

  /** The last ten records, or all of them when there are fewer. */
  function Recent(history: seq<ErrorRecord>): (r: seq<ErrorRecord>)
    ensures |r| == if |history| < 10 then |history| else 10
    ensures r == history[|history| - |r|..]
  {
    if |history| > 0 then SliceFrom(history, -10) else []
  }

  class ErrorHandler {
    var maxRetries: int
    var history: seq<ErrorRecord>

    /** Every record agrees with the retry decision of its kind. */
    ghost predicate Valid()
      reads this
    {
      forall k :: 0 <= k < |history| ==> Consistent(history[k])
    }

    constructor (maxRetries: int)
      ensures Valid() && this.maxRetries == maxRetries && history == []
    {
      this.maxRetries := maxRetries;
      history := [];
    }

    /** `handle_error`: classify, record and return the record. */
    method HandleError(e: Exception, context: Option<map<string, string>>) returns (info: ErrorRecord)
      requires Valid()
      modifies this
      ensures Valid()
      ensures info.errorType == ClassifyError(e) && info.message == e.message
      ensures info.context == (if context.Some? then context.value else map[])
      ensures info.shouldRetry == ShouldRetry(info.errorType)
      ensures history == old(history) + [info]
      ensures maxRetries == old(maxRetries)
    {
      var t := ClassifyError(e);
      info := ErrorRecord(t, e.message, if context.Some? then context.value else map[], ShouldRetry(t));
      history := history + [info];
    }

    /** `rollback`: one cleanup per completed task, latest first; reading the
      id of a completed task that has none raises. */
    method Rollback(tasks: seq<Task>) returns (r: Result<RollbackResult, RollbackError>)
      ensures r.Ok? <==> CleanupsOf(tasks).Ok?
      ensures r.Ok? ==> r.value == RollbackResult(true, CleanupsOf(tasks).value, |history|)
    {
      var cleaned: seq<string> := [];
      var i := |tasks|;
      assert tasks[i..] == [];
      while i > 0
        invariant 0 <= i <= |tasks|
        invariant CleanupsOf(tasks[i..]) == Ok(cleaned)
      {
        i := i - 1;
        assert tasks[i..][1..] == tasks[i + 1..];
        var task := tasks[i];
        if task.status == Some("completed") {
          if task.taskId.None? {
            assert CleanupsOf(tasks[i..]) == Err(KeyError);
            ErrStays(tasks, i);
            return Err(KeyError);
          }
          cleaned := cleaned + [task.taskId.value];
        }
      }
      assert tasks[0..] == tasks;
      r := Ok(RollbackResult(true, cleaned, |history|));
    }

    /** `get_error_statistics`: the total, a count per kind seen, and the
      recent records. */
    method ErrorStatistics() returns (s: Statistics)
      ensures s.total == |history|
      ensures forall t :: t in s.counts <==> Count(history, t) > 0
      ensures forall t :: t in s.counts ==> s.counts[t] == Count(history, t)
      ensures s.recent == Recent(history)
    {
      var counts: map<ErrorType, nat> := map[];
      for i := 0 to |history|
        invariant forall t :: t in counts <==> Count(history[..i], t) > 0
        invariant forall t :: t in counts ==> counts[t] == Count(history[..i], t)
      {
        assert history[..i + 1][..i] == history[..i];
        var t := history[i].errorType;
        counts := counts[t := (if t in counts then counts[t] else 0) + 1];
      }
      assert history[..|history|] == history;
      s := Statistics(|history|, counts, Recent(history));
    }
  }

  /** A suffix that raises makes the whole rollback raise. */
  lemma {:induction false} ErrStays(tasks: seq<Task>, i: nat)
    requires i <= |tasks| && CleanupsOf(tasks[i..]) == Err(KeyError)
    ensures CleanupsOf(tasks) == Err(KeyError)
    decreases i
  {
    if i > 0 {
      assert tasks[i - 1..][1..] == tasks[i..];
      ErrStays(tasks, i - 1);
    } else {
      assert tasks[0..] == tasks;
    }
  }
}
