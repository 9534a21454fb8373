/**
 * The Ollama HTTP client (agent/models.py): model-name matching, the retry
 * rule with exponential backoff, and the retry rule of the streaming chat.
 * Every HTTP exchange is an input: the `k`-th call of an operation, or the
 * reply to the `k`-th chat request, is given by a function of `k`.
 */
module Models {
  import opened Wrappers
  import opened Text

  // ===========================================================================
  // Model names (_model_available, filter_missing_models)

  /** `required` is listed exactly, or some listed name is `required` with a ":tag" suffix. */
  predicate ModelAvailable(required: string, available: seq<string>) {
    required in available || exists i :: 0 <= i < |available| && StartsWith(available[i], required + ":")
  }

  /** A name counts only when it equals `required` or continues it with a colon. */
  lemma ModelAvailableMeans(required: string, available: seq<string>)
    ensures ModelAvailable(required, available) <==>
      exists i :: 0 <= i < |available| &&
        (available[i] == required
         || (|available[i]| > |required| && available[i][..|required|] == required && available[i][|required|] == ':'))
  {
    if ModelAvailable(required, available) {
      if required !in available {
        var i :| 0 <= i < |available| && StartsWith(available[i], required + ":");
        assert available[i][..|required|] == (required + ":")[..|required|];
        assert available[i][|required|] == (required + ":")[|required|];
      } else {
        var i :| 0 <= i < |available| && available[i] == required;
      }
    }
    if exists i :: 0 <= i < |available| &&
        (available[i] == required
         || (|available[i]| > |required| && available[i][..|required|] == required && available[i][|required|] == ':'))
    {
      var i :| 0 <= i < |available| &&
        (available[i] == required
         || (|available[i]| > |required| && available[i][..|required|] == required && available[i][|required|] == ':'));
      if available[i] != required {
        assert available[i][..|required| + 1] == required + ":";
      }
    }
  }

  /** The tag-suffix rule on the names of the Ollama documentation example. */
  lemma ModelAvailableExamples()
    ensures ModelAvailable("llama3.2", ["llama3.2:latest", "phi3:mini"])
    ensures !ModelAvailable("codellama", ["llama3.2:latest", "phi3:mini"])
    ensures !ModelAvailable("llama3", ["llama3.2:latest"])
  {
    var names := ["llama3.2:latest", "phi3:mini"];
    assert "llama3.2" + ":" == "llama3.2:";
    assert names[0][..9] == "llama3.2:";
    assert StartsWith(names[0], "llama3.2" + ":");
    assert "codellama" + ":" == "codellama:";
    assert names[0][0] != 'c' && names[0][..10][0] != "codellama:"[0];
    assert !StartsWith(names[0], "codellama:");
    assert !StartsWith(names[1], "codellama:");
    assert "llama3" + ":" == "llama3:";
    assert names[0][..7][6] != "llama3:"[6];
    assert !StartsWith(names[0], "llama3:");
  }

  /** `[m for m in available_models if m]` */
  function NonEmptyNames(names: seq<string>): (r: seq<string>)
    ensures forall i :: 0 <= i < |r| ==> r[i] != []
    ensures forall x :: x in r <==> x in names && x != []
  {
    if names == [] then []
    else NonEmptyNames(names[..|names| - 1]) + (if names[|names| - 1] != [] then [names[|names| - 1]] else [])
  }

  /** What `filter_missing_models` returns: the non-empty required names not available, in order. */
  function MissingModels(required: seq<string>, available: seq<string>): (r: seq<string>)
  {
    if required == [] then []
    else
      var last := required[|required| - 1];
      MissingModels(required[..|required| - 1], available)
      + (if last != [] && !ModelAvailable(last, NonEmptyNames(available)) then [last] else [])
  }

  method FilterMissingModels(required: seq<string>, availableModels: seq<string>) returns (missing: seq<string>)
    ensures missing == MissingModels(required, availableModels)
  {
    var available := NonEmptyNames(availableModels);
    missing := [];
    var i := 0;
    while i < |required|
      invariant 0 <= i <= |required|
      invariant missing == MissingModels(required[..i], availableModels)
    {
      assert required[..i + 1][..i] == required[..i];
      var name := required[i];
      if name != [] && !ModelAvailable(name, available) {
        missing := missing + [name];
      }
      i := i + 1;
    }
    assert required[..i] == required;
  }

  /** A name is reported missing iff it is required, non-empty and not available. */
  lemma {:induction false} MissingModelsIff(required: seq<string>, available: seq<string>, x: string)
    ensures x in MissingModels(required, available) <==>
      x in required && x != [] && !ModelAvailable(x, available)
  {
    if required != [] {
      var init := required[..|required| - 1];
      MissingModelsIff(init, available, x);
      if required[|required| - 1] != [] {
        AvailableIgnoresEmpty(required[|required| - 1], available);
      }
      assert required == init + [required[|required| - 1]];
    }
  }

  /** Empty available names never make a non-empty name available. */
  lemma AvailableIgnoresEmpty(required: string, available: seq<string>)
    requires required != []
    ensures ModelAvailable(required, NonEmptyNames(available)) <==> ModelAvailable(required, available)
  {
    var ne := NonEmptyNames(available);
    if ModelAvailable(required, available) && required !in available {
      var i :| 0 <= i < |available| && StartsWith(available[i], required + ":");
      assert available[i] in ne;
      var j :| 0 <= j < |ne| && ne[j] == available[i];
    }
    if ModelAvailable(required, ne) && required !in ne {
      var j :| 0 <= j < |ne| && StartsWith(ne[j], required + ":");
      assert ne[j] in ne;
      var i :| 0 <= i < |available| && available[i] == ne[j];
    }
  }

  /** The missing names keep the order of the required list. */
  lemma {:induction false} MissingModelsOrdered(required: seq<string>, available: seq<string>)
    ensures |MissingModels(required, available)| <= |required|
    ensures forall i :: 0 <= i < |MissingModels(required, available)| ==> MissingModels(required, available)[i] != []
  {
    if required != [] {
      MissingModelsOrdered(required[..|required| - 1], available);
    }
  }

  // ===========================================================================
  // Connection errors and retry (_with_retry)

  function Pow2(n: nat): (r: nat)
    ensures r >= 1
  {
    if n == 0 then 1 else 2 * Pow2(n - 1)
  }

  /** The delays 1, 2, 4, ... of the first `n` sleeps. */
  function Backoff(n: nat): (r: seq<nat>)
    ensures |r| == n
    ensures forall i :: 0 <= i < n ==> r[i] == Pow2(i)
  {
    if n == 0 then [] else Backoff(n - 1) + [Pow2(n - 1)]
  }

  /** `_connection_error_message`; `None` is the missing last error. */
  function ConnectionErrorMessage(baseUrl: string, operation: string, maxRetries: int, error: Option<string>): string {
    "Cannot connect to Ollama at " + baseUrl + " during " + operation
    + " (after " + IntToString(maxRetries) + " attempt(s)): "
    + (match error case Some(e) => e case None => "unknown error")
  }

  /** One call of the operation: a value, a transport error (retried), or any other exception (not retried). */
  datatype Attempt<T> = Succeeded(value: T) | TransportError(error: string) | OtherError(error: string)

  datatype RetryOutcome<T> = Returned(value: T) | Raised(error: string) | ConnectionFailed(message: string)

  /** The outcome, how many times the operation was called, and the sleeps in between. */
  datatype RetryRun<T> = RetryRun(outcome: RetryOutcome<T>, calls: nat, sleeps: seq<nat>)

  /** The retry loop from the call numbered `attempt` (1-based). */
  function RetryFrom<T>(baseUrl: string, operation: string, maxRetries: int, calls: nat -> Attempt<T>,
                        attempt: nat, delay: nat, sleeps: seq<nat>, lastError: Option<string>): RetryRun<T>
    requires attempt >= 1
    decreases if attempt <= maxRetries then maxRetries - attempt + 1 else 0
  {
    if attempt > maxRetries then
      RetryRun(ConnectionFailed(ConnectionErrorMessage(baseUrl, operation, maxRetries, lastError)), attempt - 1, sleeps)
    else
      match calls(attempt - 1)
      case Succeeded(v) => RetryRun(Returned(v), attempt, sleeps)
      case OtherError(e) => RetryRun(Raised(e), attempt, sleeps)
      case TransportError(e) =>
        if attempt >= maxRetries then
          RetryRun(ConnectionFailed(ConnectionErrorMessage(baseUrl, operation, maxRetries, Some(e))), attempt, sleeps)
        else RetryFrom(baseUrl, operation, maxRetries, calls, attempt + 1, delay * 2, sleeps + [delay], Some(e))
  }

  function Retried<T>(baseUrl: string, operation: string, maxRetries: int, calls: nat -> Attempt<T>): RetryRun<T> {
    RetryFrom(baseUrl, operation, maxRetries, calls, 1, 1, [], None)
  }

  /** The loop state reached after `k` transport failures. */
  predicate Failed<T>(calls: nat -> Attempt<T>, k: nat) {
    forall i :: 0 <= i < k ==> calls(i).TransportError?
  }

  /**
   * From call `attempt` on, the loop makes at most `max_retries` calls in all,
   * sleeps once between consecutive calls with doubling delays, and stops at
   * the first call that does not raise a transport error.
   */
  lemma {:induction false} RetryFromShape<T>(baseUrl: string, operation: string, maxRetries: int,
                                            calls: nat -> Attempt<T>, attempt: nat, lastError: Option<string>)
    requires 1 <= attempt
    requires attempt == 1 || attempt <= maxRetries
    ensures RunShape(RetryFrom(baseUrl, operation, maxRetries, calls, attempt, Pow2(attempt - 1), Backoff(attempt - 1), lastError),
                     maxRetries, calls, attempt)
    decreases if attempt <= maxRetries then maxRetries - attempt + 1 else 0
  {
    if attempt <= maxRetries {
      match calls(attempt - 1)
      case Succeeded(v) =>
      case OtherError(e) =>
      case TransportError(e) =>
        if attempt < maxRetries {
          assert Backoff(attempt - 1) + [Pow2(attempt - 1)] == Backoff(attempt);
          RetryFromShape(baseUrl, operation, maxRetries, calls, attempt + 1, Some(e));
          ShapeBefore(RetryFrom(baseUrl, operation, maxRetries, calls, attempt + 1, Pow2(attempt), Backoff(attempt), Some(e)),
                      maxRetries, calls, attempt);
        }
    }
  }

  /** The shape of a run from call `attempt` on: the calls made, the sleeps, and how the last call ended the loop. */
  ghost predicate RunShape<T>(r: RetryRun<T>, maxRetries: int, calls: nat -> Attempt<T>, attempt: nat)
    requires 1 <= attempt
  {
    attempt - 1 <= r.calls
    && (attempt <= maxRetries ==> attempt <= r.calls)
    && (maxRetries >= 1 ==> r.calls <= maxRetries)
    && (maxRetries < 1 ==> r.calls == 0)
    && r.sleeps == Backoff(if r.calls == 0 then 0 else r.calls - 1)
    && (r.calls >= 1 ==> (forall i :: attempt - 1 <= i < r.calls - 1 ==> calls(i).TransportError?))
    && (r.outcome.Returned? ==> r.calls >= 1 && calls(r.calls - 1) == Succeeded(r.outcome.value))
    && (r.outcome.Raised? ==> r.calls >= 1 && calls(r.calls - 1) == OtherError(r.outcome.error))
    && (r.outcome.ConnectionFailed? && r.calls >= 1 ==> r.calls == maxRetries && calls(r.calls - 1).TransportError?)
  }

  /** A transport error at call `attempt` extends the shape of the run after it back to that call. */
  lemma ShapeBefore<T>(r: RetryRun<T>, maxRetries: int, calls: nat -> Attempt<T>, attempt: nat)
    requires 1 <= attempt < maxRetries && calls(attempt - 1).TransportError?
    requires RunShape(r, maxRetries, calls, attempt + 1)
    ensures RunShape(r, maxRetries, calls, attempt)
  {
  }

  /** `_with_retry` calls the operation at most `max_retries` times and sleeps 1, 2, 4, ... between calls. */
  lemma RetriedShape<T>(baseUrl: string, operation: string, maxRetries: int, calls: nat -> Attempt<T>)
    ensures var r := Retried(baseUrl, operation, maxRetries, calls);
      (maxRetries >= 1 ==> 1 <= r.calls <= maxRetries)
      && (maxRetries < 1 ==>
            r.calls == 0 && r.outcome == ConnectionFailed(ConnectionErrorMessage(baseUrl, operation, maxRetries, None)))
      && r.sleeps == Backoff(if r.calls == 0 then 0 else r.calls - 1)
      && (r.calls >= 1 ==> Failed(calls, r.calls - 1))
      && (r.outcome.Returned? ==> calls(r.calls - 1) == Succeeded(r.outcome.value))
      && (r.outcome.Raised? ==> calls(r.calls - 1) == OtherError(r.outcome.error))
      && (r.outcome.ConnectionFailed? && maxRetries >= 1 ==> r.calls == maxRetries && Failed(calls, maxRetries))
  {
    RetryFromShape(baseUrl, operation, maxRetries, calls, 1, None);
  }

  /** The first success within the limit is returned after exactly that many calls. */
  lemma {:induction false} RetryFromFirstSuccess<T>(baseUrl: string, operation: string, maxRetries: int,
                                                   calls: nat -> Attempt<T>, attempt: nat, k: nat)
    requires 1 <= attempt <= k + 1 && k < maxRetries
    requires forall i :: attempt - 1 <= i < k ==> calls(i).TransportError?
    requires calls(k).Succeeded?
    ensures forall delay, sleeps, lastError ::
      RetryFrom(baseUrl, operation, maxRetries, calls, attempt, delay, sleeps, lastError).outcome == Returned(calls(k).value)
      && RetryFrom(baseUrl, operation, maxRetries, calls, attempt, delay, sleeps, lastError).calls == k + 1
    decreases k + 1 - attempt
  {
    if attempt <= k {
      RetryFromFirstSuccess(baseUrl, operation, maxRetries, calls, attempt + 1, k);
    }
  }

  lemma RetriedFirstSuccess<T>(baseUrl: string, operation: string, maxRetries: int, calls: nat -> Attempt<T>, k: nat)
    requires k < maxRetries && Failed(calls, k) && calls(k).Succeeded?
    ensures Retried(baseUrl, operation, maxRetries, calls) == RetryRun(Returned(calls(k).value), k + 1, Backoff(k))
  {
    RetryFromFirstSuccess(baseUrl, operation, maxRetries, calls, 1, k);
    RetriedShape(baseUrl, operation, maxRetries, calls);
  }

  /** After `max_retries` transport errors the last one is reported as a connection error. */
  lemma RetriedExhausted<T>(baseUrl: string, operation: string, maxRetries: int, calls: nat -> Attempt<T>)
    requires maxRetries >= 1 && Failed(calls, maxRetries)
    ensures Retried(baseUrl, operation, maxRetries, calls) ==
      RetryRun(ConnectionFailed(ConnectionErrorMessage(baseUrl, operation, maxRetries, Some(calls(maxRetries - 1).error))),
               maxRetries, Backoff(maxRetries - 1))
  {
    RetriedShape(baseUrl, operation, maxRetries, calls);
    RetryFromExhausted(baseUrl, operation, maxRetries, calls, 1);
  }

  lemma {:induction false} RetryFromExhausted<T>(baseUrl: string, operation: string, maxRetries: int,
                                                calls: nat -> Attempt<T>, attempt: nat)
    requires 1 <= attempt <= maxRetries && Failed(calls, maxRetries)
    ensures forall delay, sleeps, lastError ::
      RetryFrom(baseUrl, operation, maxRetries, calls, attempt, delay, sleeps, lastError).outcome ==
        ConnectionFailed(ConnectionErrorMessage(baseUrl, operation, maxRetries, Some(calls(maxRetries - 1).error)))
    decreases maxRetries - attempt
  {
    if attempt < maxRetries {
      RetryFromExhausted(baseUrl, operation, maxRetries, calls, attempt + 1);
    }
  }

  // ===========================================================================
  // Streaming chat (chat)

  /** A line of the response body: blank or not JSON (skipped), or a decoded record. */
  datatype StreamLine = Skipped | Record(content: Option<string>, done: bool)

  /** How a response body ends when no record says `done`: end of stream, or a transport error. */
  datatype StreamEnd = Eof | Dropped(error: string)

  /** The reply to one POST /api/chat. */
  datatype ChatReply =
    | NotFound
    | HttpFailure(status: int, body: string)
    | Unreachable(error: string)
    | Streamed(lines: seq<StreamLine>, end: StreamEnd)

  datatype ChatOutcome = Finished | ModelError(message: string) | ConnectionError(message: string)

  /** The chunks yielded, how the generator ended, the requests sent and the sleeps in between. */
  datatype ChatRun = ChatRun(chunks: seq<string>, outcome: ChatOutcome, requests: nat, sleeps: seq<nat>)

  /** The chunks of one body read from line `i`, and whether a `done` record ended it. */
  function StreamFrom(lines: seq<StreamLine>, i: nat, acc: seq<string>): (seq<string>, bool)
    requires i <= |lines|
    decreases |lines| - i
  {
    if i == |lines| then (acc, false)
    else
      match lines[i]
      case Skipped => StreamFrom(lines, i + 1, acc)
      case Record(content, done) =>
        var acc' := if content.Some? then acc + [content.value] else acc;
        if done then (acc', true) else StreamFrom(lines, i + 1, acc')
  }

  /** The contents of the records among `lines`, in order. */
  function ContentsOf(lines: seq<StreamLine>): seq<string> {
    if lines == [] then []
    else (match lines[0] case Record(Some(c), _) => [c] case _ => []) + ContentsOf(lines[1..])
  }

  predicate IsDone(line: StreamLine) {
    line.Record? && line.done
  }

  /** Without a `done` record every content is yielded, in order, and the body is read to its end. */
  lemma {:induction false} StreamFromNoDone(lines: seq<StreamLine>, i: nat, acc: seq<string>)
    requires i <= |lines|
    requires forall j :: i <= j < |lines| ==> !IsDone(lines[j])
    ensures StreamFrom(lines, i, acc) == (acc + ContentsOf(lines[i..]), false)
    decreases |lines| - i
  {
    if i < |lines| {
      assert lines[i..][1..] == lines[i + 1..];
      var acc' := if lines[i].Record? && lines[i].content.Some? then acc + [lines[i].content.value] else acc;
      StreamFromNoDone(lines, i + 1, acc');
      assert acc + ContentsOf(lines[i..]) == acc' + ContentsOf(lines[i + 1..]);
    } else {
      assert lines[i..] == [];
      assert ContentsOf([]) == [];
      assert acc + [] == acc;
    }
  }

  /** Reading stops at the first `done` record, which contributes its own content. */
  lemma {:induction false} StreamFromDone(lines: seq<StreamLine>, i: nat, acc: seq<string>, j: nat)
    requires i <= j < |lines| && IsDone(lines[j])
    requires forall m :: i <= m < j ==> !IsDone(lines[m])
    ensures StreamFrom(lines, i, acc) == (acc + ContentsOf(lines[i..j + 1]), true)
    decreases j - i
  {
    var acc' := if lines[i].Record? && lines[i].content.Some? then acc + [lines[i].content.value] else acc;
    if i < j {
      assert lines[i..j + 1][1..] == lines[i + 1..j + 1];
      StreamFromDone(lines, i + 1, acc', j);
      assert acc + ContentsOf(lines[i..j + 1]) == acc' + ContentsOf(lines[i + 1..j + 1]);
    } else {
      assert lines[i..j + 1][1..] == [];
      assert ContentsOf([]) == [];
      assert acc' + [] == acc';
      assert acc + ContentsOf(lines[i..j + 1]) == acc';
    }
  }

  method ReadStream(lines: seq<StreamLine>) returns (chunks: seq<string>, done: bool)
    ensures (chunks, done) == StreamFrom(lines, 0, [])
  {
    chunks := [];
    var i := 0;
    while i < |lines|
      invariant 0 <= i <= |lines|
      invariant StreamFrom(lines, 0, []) == StreamFrom(lines, i, chunks)
    {
      match lines[i] {
        case Skipped =>
        case Record(content, isDone) =>
          if content.Some? {
            chunks := chunks + [content.value];
          }
          if isDone {
            return chunks, true;
          }
      }
      i := i + 1;
    }
    done := false;
  }

  function NotFoundMessage(model: string): string {
    "Model '" + model + "' not found. Pull it with: ollama pull " + model
  }

  function HttpFailureMessage(status: int, body: string): string {
    "Ollama chat failed (HTTP " + IntToString(status) + "): " + body
  }

  /** The loop variables of `chat`. */
  datatype ChatLoop = ChatLoop(attempt: nat, delay: nat, chunks: seq<string>, sleeps: seq<nat>, requests: nat)

  /** What one request contributes: the run ends, or a transport error is caught. */
  datatype ChatStep = Ended(chunks: seq<string>, outcome: ChatOutcome) | Caught(chunks: seq<string>, error: string)

  /** One request, with a body that ends without `done` finishing the generator. */
  function Exchange(model: string, reply: ChatReply): ChatStep {
    match reply
    case NotFound => Ended([], ModelError(NotFoundMessage(model)))
    case HttpFailure(status, body) => Ended([], ConnectionError(HttpFailureMessage(status, body)))
    case Unreachable(e) => Caught([], e)
    case Streamed(lines, end) =>
      var (cs, done) := StreamFrom(lines, 0, []);
      if done then Ended(cs, Finished)
      else
        match end
        case Eof => Ended(cs, Finished)
        case Dropped(e) => Caught(cs, e)
  }

  /** The chat loop from state `st`: a caught error is retried only if nothing was yielded and attempts remain. */
  function ChatFrom(baseUrl: string, model: string, maxRetries: int, replies: nat -> ChatReply, st: ChatLoop): ChatRun
    decreases if st.attempt < maxRetries then maxRetries - st.attempt else 0
  {
    var requests := st.requests + 1;
    match Exchange(model, replies(st.requests))
    case Ended(cs, outcome) => ChatRun(st.chunks + cs, outcome, requests, st.sleeps)
    case Caught(cs, e) =>
      var attempt := st.attempt + 1;
      if cs != [] || attempt >= maxRetries then
        ChatRun(st.chunks + cs, ConnectionError(ConnectionErrorMessage(baseUrl, "chat", maxRetries, Some(e))), requests, st.sleeps)
      else
        ChatFrom(baseUrl, model, maxRetries, replies, ChatLoop(attempt, st.delay * 2, st.chunks + cs, st.sleeps + [st.delay], requests))
  }

  function ChatRunOf(baseUrl: string, model: string, maxRetries: int, replies: nat -> ChatReply): ChatRun {
    ChatFrom(baseUrl, model, maxRetries, replies, ChatLoop(0, 1, [], [], 0))
  }

  /** A 404, another HTTP status or a completed first body is never retried. */
  lemma ChatNotRetried(baseUrl: string, model: string, maxRetries: int, replies: nat -> ChatReply)
    ensures replies(0) == NotFound ==>
      ChatRunOf(baseUrl, model, maxRetries, replies) == ChatRun([], ModelError(NotFoundMessage(model)), 1, [])
    ensures replies(0).HttpFailure? ==>
      ChatRunOf(baseUrl, model, maxRetries, replies) ==
        ChatRun([], ConnectionError(HttpFailureMessage(replies(0).status, replies(0).body)), 1, [])
  {
  }

  /**
   * A transport error after a chunk was yielded ends the generator on any
   * attempt, also after earlier attempts failed without yielding: no further
   * request is sent and no sleep is added.
   */
  lemma ChatErrorAfterChunk(baseUrl: string, model: string, maxRetries: int, replies: nat -> ChatReply, st: ChatLoop)
    requires Exchange(model, replies(st.requests)).Caught? && Exchange(model, replies(st.requests)).chunks != []
    ensures var run := ChatFrom(baseUrl, model, maxRetries, replies, st);
      var step := Exchange(model, replies(st.requests));
      run.requests == st.requests + 1 && run.sleeps == st.sleeps
      && run.chunks == st.chunks + step.chunks
      && run.outcome == ConnectionError(ConnectionErrorMessage(baseUrl, "chat", maxRetries, Some(step.error)))
  {
  }

  /** A body that yields chunks and then drops is such a caught error with chunks. */
  lemma DroppedAfterChunks(model: string, reply: ChatReply)
    requires reply.Streamed? && reply.end.Dropped?
    requires var (cs, done) := StreamFrom(reply.lines, 0, []); cs != [] && !done
    ensures Exchange(model, reply) == Caught(StreamFrom(reply.lines, 0, []).0, reply.end.error)
  {
  }

  /** At most `max_retries` requests (and at least one) are sent, with sleeps 1, 2, 4, ... between them. */
  lemma {:induction false} ChatFromBounds(baseUrl: string, model: string, maxRetries: int, replies: nat -> ChatReply,
                                          st: ChatLoop)
    requires st.requests == st.attempt && st.sleeps == Backoff(st.attempt) && st.delay == Pow2(st.attempt)
    requires st.attempt == 0 || st.attempt < maxRetries
    ensures var run := ChatFrom(baseUrl, model, maxRetries, replies, st);
      st.requests < run.requests <= (if maxRetries > 1 then maxRetries else 1)
      && run.sleeps == Backoff(run.requests - 1)
      && |st.chunks| <= |run.chunks| && run.chunks[..|st.chunks|] == st.chunks
    decreases if st.attempt < maxRetries then maxRetries - st.attempt else 0
  {
    match Exchange(model, replies(st.requests))
    case Ended(cs, outcome) =>
    case Caught(cs, e) =>
      var attempt := st.attempt + 1;
      if !(cs != [] || attempt >= maxRetries) {
        var st' := ChatLoop(attempt, st.delay * 2, st.chunks + cs, st.sleeps + [st.delay], st.requests + 1);
        ChatFromBounds(baseUrl, model, maxRetries, replies, st');
        var run := ChatFrom(baseUrl, model, maxRetries, replies, st');
        assert run.chunks[..|st.chunks|] == run.chunks[..|st'.chunks|][..|st.chunks|];
      }
  }

  lemma ChatRunBounds(baseUrl: string, model: string, maxRetries: int, replies: nat -> ChatReply)
    ensures var run := ChatRunOf(baseUrl, model, maxRetries, replies);
      1 <= run.requests <= (if maxRetries > 1 then maxRetries else 1)
      && run.sleeps == Backoff(run.requests - 1)
  {
    ChatFromBounds(baseUrl, model, maxRetries, replies, ChatLoop(0, 1, [], [], 0));
  }

  // ---- chat as written: a body that ends without `done` re-sends the request

  /** What the loop does when a body ends without `done`, as the code is written. */
  datatype AsWrittenStep = Step(step: ChatStep) | Resend(chunks: seq<string>)

  function ExchangeAsWritten(model: string, reply: ChatReply): AsWrittenStep {
    match reply
    case Streamed(lines, Eof) =>
      var (cs, done) := StreamFrom(lines, 0, []);
      if done then Step(Ended(cs, Finished)) else Resend(cs)
    case _ => Step(Exchange(model, reply))
  }

  datatype AsWrittenRun = Stopped(run: ChatRun) | StillLooping(chunks: seq<string>, requests: nat)

  /** The loop as written, followed for at most `fuel` requests. */
  function ChatAsWritten(baseUrl: string, model: string, maxRetries: int, replies: nat -> ChatReply,
                         st: ChatLoop, fuel: nat): AsWrittenRun
    decreases fuel
  {
    if fuel == 0 then StillLooping(st.chunks, st.requests)
    else
      var requests := st.requests + 1;
      match ExchangeAsWritten(model, replies(st.requests))
      case Resend(cs) =>
        ChatAsWritten(baseUrl, model, maxRetries, replies, st.(chunks := st.chunks + cs, requests := requests), fuel - 1)
      case Step(Ended(cs, outcome)) => Stopped(ChatRun(st.chunks + cs, outcome, requests, st.sleeps))
      case Step(Caught(cs, e)) =>
        var attempt := st.attempt + 1;
        if cs != [] || attempt >= maxRetries then
          Stopped(ChatRun(st.chunks + cs, ConnectionError(ConnectionErrorMessage(baseUrl, "chat", maxRetries, Some(e))),
                          requests, st.sleeps))
        else
          ChatAsWritten(baseUrl, model, maxRetries, replies,
                        ChatLoop(attempt, st.delay * 2, st.chunks + cs, st.sleeps + [st.delay], requests), fuel - 1)
  }

  /** A server whose every body yields "Hello" and then closes. */
  function HelloThenClose(k: nat): ChatReply {
    Streamed([Record(Some("Hello"), false)], Eof)
  }

  /**
   * As written, that server makes `chat` send request after request without
   * end, yielding "Hello" once per request.
   */
  lemma {:induction false} ChatAsWrittenRepeats(baseUrl: string, model: string, maxRetries: int, st: ChatLoop, fuel: nat)
    ensures ChatAsWritten(baseUrl, model, maxRetries, HelloThenClose, st, fuel) ==
      StillLooping(st.chunks + seq(fuel, i => "Hello"), st.requests + fuel)
    decreases fuel
  {
    if fuel > 0 {
      HelloBody();
      var st' := st.(chunks := st.chunks + ["Hello"], requests := st.requests + 1);
      ChatAsWrittenRepeats(baseUrl, model, maxRetries, st', fuel - 1);
      assert st.chunks + ["Hello"] + seq(fuel - 1, i => "Hello") == st.chunks + seq(fuel, i => "Hello");
    } else {
      assert st.chunks + seq(0, i => "Hello") == st.chunks;
    }
  }

  /** With the end of the body ending the generator, the same server gives one "Hello" and one request. */
  lemma ChatCorrectedStops(baseUrl: string, model: string, maxRetries: int)
    ensures ChatRunOf(baseUrl, model, maxRetries, HelloThenClose) == ChatRun(["Hello"], Finished, 1, [])
  {
    HelloBody();
  }

  lemma HelloBody()
    ensures StreamFrom([Record(Some("Hello"), false)], 0, []) == (["Hello"], false)
  {
    var lines := [Record(Some("Hello"), false)];
    StreamFromNoDone(lines, 0, []);
    assert lines[0..] == lines && lines[1..] == [];
    assert ContentsOf(lines) == ["Hello"] + ContentsOf([]);
    assert ContentsOf(lines[0..]) == ["Hello"];
    assert StreamFrom(lines, 0, []) == ([] + ["Hello"], false);
    assert [] + ["Hello"] == ["Hello"];
  }

  // ===========================================================================
  // The client

  class OllamaClient {
    const baseUrl: string
    const maxRetries: int

    /** The base URL is kept without trailing slashes. */
    constructor(baseUrl: string, maxRetries: int)
      ensures this.baseUrl == RStripChar(baseUrl, '/')
      ensures this.baseUrl == [] || this.baseUrl[|this.baseUrl| - 1] != '/'
      ensures this.maxRetries == maxRetries
    {
      this.baseUrl := RStripChar(baseUrl, '/');
      this.maxRetries := maxRetries;
    }

    /** `_with_retry` over the given sequence of call outcomes. */
    method WithRetry<T>(operation: string, calls: nat -> Attempt<T>) returns (run: RetryRun<T>)
      ensures run == Retried(baseUrl, operation, maxRetries, calls)
    {
      var delay := 1;
      var lastError: Option<string> := None;
      var sleeps: seq<nat> := [];
      var attempt := 1;
      while attempt <= maxRetries
        invariant 1 <= attempt
        invariant Retried(baseUrl, operation, maxRetries, calls) ==
          RetryFrom(baseUrl, operation, maxRetries, calls, attempt, delay, sleeps, lastError)
        decreases maxRetries - attempt + 1
      {
        match calls(attempt - 1) {
          case Succeeded(v) =>
            return RetryRun(Returned(v), attempt, sleeps);
          case OtherError(e) =>
            return RetryRun(Raised(e), attempt, sleeps);
          case TransportError(e) =>
            lastError := Some(e);
            if attempt >= maxRetries {
              return RetryRun(ConnectionFailed(ConnectionErrorMessage(baseUrl, operation, maxRetries, lastError)),
                              attempt, sleeps);
            }
            sleeps := sleeps + [delay];
            delay := delay * 2;
        }
        attempt := attempt + 1;
      }
      run := RetryRun(ConnectionFailed(ConnectionErrorMessage(baseUrl, operation, maxRetries, lastError)),
                      attempt - 1, sleeps);
    }

    /** `chat` with `stream=True`, over the replies the server sends to successive requests. */
    method Chat(model: string, replies: nat -> ChatReply) returns (run: ChatRun)
      ensures run == ChatRunOf(baseUrl, model, maxRetries, replies)
    {
      var attempt: nat := 0;
      var delay: nat := 1;
      var chunks: seq<string> := [];
      var sleeps: seq<nat> := [];
      var requests: nat := 0;
      while true
        invariant ChatRunOf(baseUrl, model, maxRetries, replies) ==
          ChatFrom(baseUrl, model, maxRetries, replies, ChatLoop(attempt, delay, chunks, sleeps, requests))
        decreases if attempt < maxRetries then maxRetries - attempt else 0
      {
        var reply := replies(requests);
        requests := requests + 1;
        var received: seq<string> := [];
        var error: string;
        match reply {
          case NotFound =>
            return ChatRun(chunks, ModelError(NotFoundMessage(model)), requests, sleeps);
          case HttpFailure(status, body) =>
            return ChatRun(chunks, ConnectionError(HttpFailureMessage(status, body)), requests, sleeps);
          case Unreachable(e) =>
            error := e;
          case Streamed(lines, end) =>
            var done;
            received, done := ReadStream(lines);
            if done || end.Eof? {
              return ChatRun(chunks + received, Finished, requests, sleeps);
            }
            error := end.error;
        }
        chunks := chunks + received;
        attempt := attempt + 1;
        if received != [] || attempt >= maxRetries {
          return ChatRun(chunks, ConnectionError(ConnectionErrorMessage(baseUrl, "chat", maxRetries, Some(error))),
                         requests, sleeps);
        }
        sleeps := sleeps + [delay];
        delay := delay * 2;
      }
    }
  }
}
