/** The retry loop the legacy synchronous clients (ClaudeClient, OllamaClient,
    IFlowClient) share: at most MAX_RETRIES sends of one request, sleeping
    INITIAL_RETRY_DELAY_MS * 2^attempt between them. The transport is an
    oracle: the outcome of each send in turn, and whether each sleep is
    interrupted. The sleeps are recorded as ghost delays. */
module SyncRetry {
  import opened Lang
  import opened LlmApi

  const MAX_RETRIES: nat := 3
  const INITIAL_RETRY_DELAY_MS: nat := 1000

  /** What the loop body makes of one send: return this (nullable) text, give
      up with null at once, or retry when attempts remain. Which outcomes lead
      where is each client's own rule. */
  datatype Step =
    | Return(text: Option<string>)
    | Reject
    | Retry

  /** How a call to sendRequest ends: its result, the number of sends and the
      delays it slept (or began to sleep, when interrupted), in order. */
  datatype Trace = Trace(result: Option<string>, sends: nat, delays: seq<nat>)

  function Pow2(n: nat): (p: nat)
    ensures p >= 1
  {
    if n == 0 then 1 else 2 * Pow2(n - 1)
  }

  /** The delay before retrying after attempt `attempt` (0-based). */
  function Backoff(attempt: nat): nat {
    INITIAL_RETRY_DELAY_MS * Pow2(attempt)
  }

  /** The delays slept after attempts 0 .. n-1. */
  function Backoffs(n: nat): (ds: seq<nat>)
    ensures |ds| == n && forall i :: 0 <= i < n ==> ds[i] == Backoff(i)
  {
    seq(n, i requires 0 <= i < n => Backoff(i))
  }

  /** Each outcome classified by the client's rule. */
  function Steps(classify: HttpOutcome -> Step, outcomes: seq<HttpOutcome>): (steps: seq<Step>)
    ensures |steps| == |outcomes| && forall i :: 0 <= i < |outcomes| ==> steps[i] == classify(outcomes[i])
  {
    seq(|outcomes|, i requires 0 <= i < |outcomes| => classify(outcomes[i]))
  }

  /** Enough oracle entries for every send and every sleep. */
  predicate OracleLongEnough(steps: seq<Step>, interrupts: seq<bool>) {
    |steps| >= MAX_RETRIES && |interrupts| >= MAX_RETRIES - 1
  }

  /** The loop from attempt `attempt` on, every earlier attempt having
      retried after an uninterrupted sleep. */
  function Run(steps: seq<Step>, interrupts: seq<bool>, attempt: nat): (t: Trace)
    requires OracleLongEnough(steps, interrupts) && attempt < MAX_RETRIES
    ensures attempt < t.sends <= MAX_RETRIES
    ensures |t.delays| == t.sends - 1 || |t.delays| == t.sends
    ensures |t.delays| < MAX_RETRIES
    ensures t.delays == Backoffs(|t.delays|)
    decreases MAX_RETRIES - attempt
  {
    match steps[attempt]
    case Return(text) => Trace(text, attempt + 1, Backoffs(attempt))
    case Reject => Trace(None, attempt + 1, Backoffs(attempt))
    case Retry =>
      if attempt < MAX_RETRIES - 1 then
        if interrupts[attempt] then
          assert Backoffs(attempt) + [Backoff(attempt)] == Backoffs(attempt + 1);
          Trace(None, attempt + 1, Backoffs(attempt) + [Backoff(attempt)])
        else Run(steps, interrupts, attempt + 1)
      else Trace(None, attempt + 1, Backoffs(attempt))
  }

  /** sendRequest's for loop over the attempts. Every path through the last
      attempt returns, so the loop's own exit is never reached. */
  method Send(classify: HttpOutcome -> Step, outcomes: seq<HttpOutcome>, interrupts: seq<bool>)
    returns (result: Option<string>, sends: nat, ghost delays: seq<nat>)
    requires |outcomes| >= MAX_RETRIES && |interrupts| >= MAX_RETRIES - 1
    ensures Trace(result, sends, delays) == Run(Steps(classify, outcomes), interrupts, 0)
  {
    ghost var steps := Steps(classify, outcomes);
    var attempt: nat := 0;
    sends := 0;
    delays := [];
    while true
      invariant attempt < MAX_RETRIES
      invariant sends == attempt && delays == Backoffs(attempt)
      invariant Run(steps, interrupts, 0) == Run(steps, interrupts, attempt)
      decreases MAX_RETRIES - attempt
    {
      var step := classify(outcomes[attempt]);
      sends := sends + 1;
      match step {
        case Return(text) =>
          return text, sends, delays;
        case Reject =>
          return None, sends, delays;
        case Retry =>
          if attempt < MAX_RETRIES - 1 {
            var delayMs := Backoff(attempt);
            delays := delays + [delayMs];
            if interrupts[attempt] {
              return None, sends, delays;
            }
            attempt := attempt + 1;
          } else {
            return None, sends, delays;
          }
      }
    }
  }

  /** Every send but the last one retried, and a text is returned only by
      the last send, when that send classified as Return. */
  lemma {:induction false} ResultIsLastSend(steps: seq<Step>, interrupts: seq<bool>, attempt: nat)
    requires OracleLongEnough(steps, interrupts) && attempt < MAX_RETRIES
    ensures var t := Run(steps, interrupts, attempt);
            && (forall k :: attempt <= k < t.sends - 1 ==> steps[k] == Retry && !interrupts[k])
            && (t.result.Some? ==> steps[t.sends - 1] == Return(t.result))
    decreases MAX_RETRIES - attempt
  {
    if steps[attempt].Retry? && attempt < MAX_RETRIES - 1 && !interrupts[attempt] {
      ResultIsLastSend(steps, interrupts, attempt + 1);
    }
  }

  /** The first send that does not retry decides: when sends 0 .. k-1 all
      retried without an interrupted sleep and send k returns a text, the
      call returns that text after exactly k + 1 sends. */
  lemma {:induction false} FirstReturnWins(steps: seq<Step>, interrupts: seq<bool>, k: nat, attempt: nat)
    requires OracleLongEnough(steps, interrupts) && attempt <= k < MAX_RETRIES
    requires forall i :: attempt <= i < k ==> steps[i] == Retry && !interrupts[i]
    requires steps[k].Return?
    ensures Run(steps, interrupts, attempt) == Trace(steps[k].text, k + 1, Backoffs(k))
    decreases k - attempt
  {
    if attempt < k {
      FirstReturnWins(steps, interrupts, k, attempt + 1);
    }
  }

  /** The first send that is rejected ends the call with null likewise. */
  lemma {:induction false} FirstRejectStops(steps: seq<Step>, interrupts: seq<bool>, k: nat, attempt: nat)
    requires OracleLongEnough(steps, interrupts) && attempt <= k < MAX_RETRIES
    requires forall i :: attempt <= i < k ==> steps[i] == Retry && !interrupts[i]
    requires steps[k] == Reject
    ensures Run(steps, interrupts, attempt) == Trace(None, k + 1, Backoffs(k))
    decreases k - attempt
  {
    if attempt < k {
      FirstRejectStops(steps, interrupts, k, attempt + 1);
    }
  }

  /** Three retries in a row: three sends, sleeps of 1000 and 2000 ms, null. */
  lemma AllRetriesExhausted(steps: seq<Step>, interrupts: seq<bool>)
    requires OracleLongEnough(steps, interrupts)
    requires steps[0] == Retry && steps[1] == Retry && steps[2] == Retry
    requires !interrupts[0] && !interrupts[1]
    ensures Run(steps, interrupts, 0) == Trace(None, 3, [1000, 2000])
  {
    assert Backoffs(2) == [Backoff(0), Backoff(1)];
  }

  /** An interrupted sleep ends the call with null, with no further send. */
  lemma {:induction false} InterruptStops(steps: seq<Step>, interrupts: seq<bool>, k: nat)
    requires OracleLongEnough(steps, interrupts) && k < MAX_RETRIES - 1
    requires forall i :: 0 <= i <= k ==> steps[i] == Retry
    requires forall i :: 0 <= i < k ==> !interrupts[i]
    requires interrupts[k]
    ensures Run(steps, interrupts, 0) == Trace(None, k + 1, Backoffs(k + 1))
  {
    assert Backoffs(k) + [Backoff(k)] == Backoffs(k + 1);
    if k == 1 {
      assert Run(steps, interrupts, 0) == Run(steps, interrupts, 1);
    }
  }
}
