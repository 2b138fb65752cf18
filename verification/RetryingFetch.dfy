/** The retry loop `veritasFetchWithOptions` of `frontend/lib/api-client.ts`.

    How each attempt settles is given by `outcomes`: a response, or a rejection with what the catch block looks at. */
module RetryingFetch {
  import opened Numbers
  import opened Optional

  const RETRY_BACKOFF_BASE_MS: nat := 1000

  /** `message` is present if the rejection is an `Error`; a `DOMException` is one. */
  datatype Outcome =
    | Response(status: nat)
    | Rejection(isDomException: bool, name: string, message: Option<string>, timedOut: bool, callerAborted: bool)

  datatype ErrorKind = Network | Timeout | Cancelled

  datatype Verdict = Returned(status: nat) | Threw(kind: ErrorKind, message: string)

  predicate IsRetryableStatus(status: nat) { status == 502 || status == 503 || status == 504 }

  predicate IsAbort(o: Outcome) { o.Rejection? && o.isDomException && o.name == "AbortError" }

  /** What makes another attempt, if one is left. */
  predicate Transient(o: Outcome) {
    match o
    case Response(status) => IsRetryableStatus(status)
    case Rejection(_, _, _, timedOut, callerAborted) => !(IsAbort(o) && (timedOut || callerAborted))
  }

  /** What the caller gets for the outcome of the final attempt. */
  function VerdictOf(o: Outcome): Verdict {
    match o
    case Response(status) => Returned(status)
    case Rejection(_, _, message, timedOut, callerAborted) =>
      if IsAbort(o) && timedOut then Threw(Timeout, "Request timed out")
      else if IsAbort(o) && callerAborted then Threw(Cancelled, "Request was cancelled")
      else Threw(Network, if message.Some? then message.value else "Network error")
  }

  function MaxAttempts(retries: int): nat { 1 + Max(0, retries) }

  /** `n` attempts are made: all but the last are transient, and the last is not or there are no more. */
  ghost predicate AttemptsMade(outcomes: nat -> Outcome, maxAttempts: nat, n: nat) {
    && 1 <= n <= maxAttempts
    && (forall a :: 0 <= a < n - 1 ==> Transient(outcomes(a)))
    && (n == maxAttempts || !Transient(outcomes(n - 1)))
  }

  method FetchWithOptions(retries: int, outcomes: nat -> Outcome)
      returns (verdict: Verdict, fetches: nat, delays: seq<nat>)
    ensures AttemptsMade(outcomes, if retries > 0 then 1 + retries else 1, fetches)
    ensures verdict == VerdictOf(outcomes(fetches - 1))
    ensures delays == seq(fetches - 1, (i: nat) => RETRY_BACKOFF_BASE_MS * Pow2(i))
  {
    var lastError: Option<Outcome> := None;
    var maxAttempts := MaxAttempts(retries);
    delays := [];
    var attempt := 0;
    while attempt < maxAttempts
      invariant 0 <= attempt <= maxAttempts
      invariant forall a :: 0 <= a < attempt ==>
          Transient(outcomes(a)) && (outcomes(a).Response? ==> a < maxAttempts - 1)
      invariant attempt == maxAttempts ==> lastError == Some(outcomes(attempt - 1))
      invariant delays == seq(if attempt == maxAttempts then attempt - 1 else attempt,
                              (i: nat) => RETRY_BACKOFF_BASE_MS * Pow2(i))
    {
      var outcome := outcomes(attempt);
      if outcome.Response? {
        if IsRetryableStatus(outcome.status) && attempt < maxAttempts - 1 {
          delays := delays + [RETRY_BACKOFF_BASE_MS * Pow2(attempt)];
          attempt := attempt + 1;
          continue;
        }
        return Returned(outcome.status), attempt + 1, delays;
      }
      lastError := Some(outcome);
      if outcome.isDomException && outcome.name == "AbortError" {
        if outcome.timedOut { return Threw(Timeout, "Request timed out"), attempt + 1, delays; }
        if outcome.callerAborted { return Threw(Cancelled, "Request was cancelled"), attempt + 1, delays; }
      }
      if attempt < maxAttempts - 1 {
        delays := delays + [RETRY_BACKOFF_BASE_MS * Pow2(attempt)];
      }
      attempt := attempt + 1;
    }
    verdict := Threw(Network,
                     if lastError.Some? && lastError.value.message.Some? then lastError.value.message.value
                     else "Network error");
    fetches := attempt;
  }

  /** The outcomes alone decide how many fetches are made. */
  lemma AttemptsAreDetermined(outcomes: nat -> Outcome, maxAttempts: nat, n: nat, m: nat)
    requires AttemptsMade(outcomes, maxAttempts, n) && AttemptsMade(outcomes, maxAttempts, m)
    ensures n == m
  {
    assert Transient(outcomes(n - 1)) || n >= m;
    assert Transient(outcomes(m - 1)) || m >= n;
  }

  /** A gateway response. */
  ghost predicate IsGatewayError(o: Outcome) {
    o.Response? && (o.status == 502 || o.status == 503 || o.status == 504)
  }

  /** An exception under the abort name, after the time limit or the caller's own signal. */
  ghost predicate IsEnd(o: Outcome) {
    o.Rejection? && o.isDomException && o.name == "AbortError" && (o.timedOut || o.callerAborted)
  }

  /** Every attempt but the last ends in a gateway error or a rejection that is no end; the last one that does so is
      the last there is; and what the caller gets is what the last attempt says. */
  lemma WhatCallersSee(outcomes: nat -> Outcome, maxAttempts: nat, n: nat)
    requires AttemptsMade(outcomes, maxAttempts, n)
    ensures forall a: nat :: a < n - 1 ==>
        IsGatewayError(outcomes(a)) || (outcomes(a).Rejection? && !IsEnd(outcomes(a)))
    ensures IsGatewayError(outcomes(n - 1)) || (outcomes(n - 1).Rejection? && !IsEnd(outcomes(n - 1))) ==>
        n == maxAttempts
    ensures var last, verdict := outcomes(n - 1), VerdictOf(outcomes(n - 1));
            && (last.Response? ==> verdict == Returned(last.status))
            && (IsEnd(last) && last.timedOut ==> verdict == Threw(Timeout, "Request timed out"))
            && (IsEnd(last) && !last.timedOut ==> verdict == Threw(Cancelled, "Request was cancelled"))
            && (last.Rejection? && !IsEnd(last) ==>
                  verdict == Threw(Network, if last.message.Some? then last.message.value else "Network error"))
    ensures (exists a: nat :: a < maxAttempts && !Transient(outcomes(a))) ==> !Transient(outcomes(n - 1))
  {
    if exists a: nat :: a < maxAttempts && !Transient(outcomes(a)) {
      var a: nat :| a < maxAttempts && !Transient(outcomes(a));
      assert a >= n - 1;
      if n == maxAttempts { assert a == n - 1; }
    }
    forall a: nat | a < n - 1
      ensures IsGatewayError(outcomes(a)) || (outcomes(a).Rejection? && !IsEnd(outcomes(a)))
    {
      assert Transient(outcomes(a));
    }
  }

  /** A request that times out in every attempt is reported as a timeout exactly if the browser names the rejection
      of some attempt "AbortError"; under any other name an attempt is retried, and if all have other names the
      request ends as a network error. */
  lemma TimeoutNeedsAbortName(outcomes: nat -> Outcome, maxAttempts: nat, n: nat)
    requires AttemptsMade(outcomes, maxAttempts, n)
    requires forall a: nat :: a < maxAttempts ==>
        outcomes(a).Rejection? && outcomes(a).isDomException && outcomes(a).timedOut
    ensures VerdictOf(outcomes(n - 1)) == Threw(Timeout, "Request timed out") <==>
            exists a: nat :: a < maxAttempts && outcomes(a).name == "AbortError"
    ensures VerdictOf(outcomes(n - 1)).kind == Timeout
        || (n == maxAttempts && VerdictOf(outcomes(n - 1)).kind == Network)
    ensures forall a: nat :: a < n - 1 ==> outcomes(a).name != "AbortError"
  {
    forall a: nat | a < n - 1 ensures outcomes(a).name != "AbortError" { assert Transient(outcomes(a)); }
    assert n < maxAttempts ==> !Transient(outcomes(n - 1));
  }

  function Sum(delays: seq<nat>): nat {
    if delays == [] then 0 else Sum(delays[..|delays| - 1]) + delays[|delays| - 1]
  }

  /** The waits of k retries add up to 1000 * (2^k - 1) ms. */
  lemma {:induction false} TotalBackoff(k: nat)
    ensures Sum(seq(k, (i: nat) => RETRY_BACKOFF_BASE_MS * Pow2(i))) == 1000 * (Pow2(k) - 1)
  {
    if k > 0 {
      var delays := seq(k, (i: nat) => RETRY_BACKOFF_BASE_MS * Pow2(i));
      assert delays[..k - 1] == seq(k - 1, (i: nat) => RETRY_BACKOFF_BASE_MS * Pow2(i));
      TotalBackoff(k - 1);
    }
  }
}
