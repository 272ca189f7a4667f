/** doRequestWithRateLimit (handlers/export.go): send the request; on status
    429 wait for the Retry-After header read as MILLISECONDS (one second when
    the header is absent or not an integer) and send again, with no cap; stop
    at the first transport error or non-429 response. The replies the server
    gives are a script; when the script is all 429 the model reports that the
    loop is still retrying. Sleeping is modelled by the list of waits. */
module RateLimit {
  import opened Common
  import opened Strconv
  import opened Http

  const NanosPerMilli: int := 1_000_000
  const NanosPerSecond: int := 1_000_000_000
  const TwoTo64: int := 0x1_0000_0000_0000_0000

  /** Two's-complement wrap to int64, as Go's int64 multiplication wraps. */
  function WrapInt64(x: int): (r: int)
    ensures MinInt64 <= r <= MaxInt64
    ensures MinInt64 <= x <= MaxInt64 ==> r == x
  {
    (x - MinInt64) % TwoTo64 + MinInt64
  }

  /** The time.Duration slept before the next attempt, in nanoseconds:
      time.Duration(ms) * time.Millisecond, or one second. */
  function RetryWait(retryAfter: string): int {
    if retryAfter == "" then NanosPerSecond
    else match Atoi(retryAfter)
      case None => NanosPerSecond
      case Some(ms) => WrapInt64(ms * NanosPerMilli)
  }

  predicate IsRateLimited<T>(r: Reply<T>) {
    r.Response? && r.status == StatusTooManyRequests
  }

  /** The index of the reply that ends the loop, or |replies| when every
      scripted reply is a 429. */
  function FirstFinal<T>(replies: seq<Reply<T>>): (k: nat)
    ensures k <= |replies|
    ensures forall j :: 0 <= j < k ==> IsRateLimited(replies[j])
    ensures k < |replies| ==> !IsRateLimited(replies[k])
  {
    if replies == [] || !IsRateLimited(replies[0]) then 0 else 1 + FirstFinal(replies[1..])
  }

  /** What a caller that accepts only status 200 with a decodable body
      (fetchDocuments, fetchCollectionName, exportAndSaveDocument) obtains
      from the retried exchange; None while the loop is still retrying. */
  function RetriedOutcome<T>(replies: seq<Reply<T>>): Option<Result<T>> {
    var k := FirstFinal(replies);
    if k < |replies| then Some(Expect200(replies[k])) else None
  }

  /** The loop. `final` is the reply handed back to the caller (None: still
      retrying when the script ran out), `sends` the number of requests sent,
      `waits` the durations slept, in order. */
  method DoRequestWithRateLimit<T>(replies: seq<Reply<T>>)
    returns (final: Option<Reply<T>>, sends: nat, waits: seq<int>)
    ensures sends <= |replies| && |waits| <= |replies|
    ensures final.Some? ==> !IsRateLimited(final.value)
    ensures final.Some? ==> sends >= 1 && final.value == replies[sends - 1]
    ensures forall j :: 0 <= j < |waits| ==> IsRateLimited(replies[j])
    ensures var k := FirstFinal(replies);
      && (k < |replies| ==> final == Some(replies[k]) && sends == k + 1)
      && (k == |replies| ==> final == None && sends == |replies|)
      && waits == seq(k, j requires 0 <= j < k => RetryWait(replies[j].retryAfter))
  {
    var i := 0;
    sends, waits := 0, [];
    while i < |replies|
      invariant i <= FirstFinal(replies)
      invariant sends == i
      invariant waits == seq(i, j requires 0 <= j < i => RetryWait(replies[j].retryAfter))
    {
      var reply := replies[i];
      sends := sends + 1;
      if !IsRateLimited(reply) {
        return Some(reply), sends, waits;
      }
      waits := waits + [RetryWait(reply.retryAfter)];
      i := i + 1;
    }
    final := None;
  }

  /** For every int64 header value ms the wait is time.Duration(ms) *
      time.Millisecond: ms * 10^6 nanoseconds wrapped to int64. */
  lemma RetryWaitWraps(ms: int)
    requires MinInt64 <= ms <= MaxInt64
    ensures RetryWait(Itoa(ms)) == WrapInt64(ms * NanosPerMilli)
  {
    AtoiItoa(ms);
  }

  /** Retry-After is a number of milliseconds: "ms" waits exactly ms ms for
      0 <= ms <= MaxInt64 / 10^6, where the nanosecond count does not wrap; an
      absent or non-integer header waits one second. */
  lemma RetryWaitMillis(ms: int, bad: string)
    requires 0 <= ms <= MaxInt64 / NanosPerMilli
    requires Atoi(bad) == None
    ensures RetryWait(Itoa(ms)) == ms * NanosPerMilli
    ensures RetryWait(bad) == NanosPerSecond
    ensures RetryWait("") == NanosPerSecond
  {
    AtoiItoa(ms);
  }

  /** A negative Retry-After with -(MaxInt64 / 10^6) <= ms < 0 gives a negative
      duration, so time.Sleep returns at once. Below that range the product
      wraps and the wait can be positive (RetryWaitWraps). */
  lemma RetryWaitNegative(ms: int)
    requires -(MaxInt64 / NanosPerMilli) <= ms < 0
    ensures RetryWait(Itoa(ms)) == ms * NanosPerMilli < 0
  {
    AtoiItoa(ms);
  }

  /** Once the loop has stopped, the caller never sees a 429: the outcome is
      the decoded body of a 200, a transport error, an undecodable body, or a
      status other than 200 and 429. */
  lemma RetriedOutcomeNever429<T>(replies: seq<Reply<T>>)
    ensures RetriedOutcome(replies).Some? <==> FirstFinal(replies) < |replies|
    ensures RetriedOutcome(replies).Some? ==>
      RetriedOutcome(replies).value != Failure(UnexpectedStatus(StatusTooManyRequests))
    ensures RetriedOutcome(replies).Some? && RetriedOutcome(replies).value.Success? ==>
      exists j :: 0 <= j < |replies| && replies[j].Response? && replies[j].status == StatusOK
  {
    var k := FirstFinal(replies);
    if k < |replies| && Expect200(replies[k]).Success? {
      assert replies[k].Response? && replies[k].status == StatusOK;
    }
  }

  /** A Retry-After with ms * 10^6 between 2^63 and 2^64 overflows
      time.Duration and wraps round to the negative wait ms * 10^6 - 2^64, so
      the retry happens at once. Larger values wrap again (RetryWaitWraps). */
  lemma RetryWaitOverflow(ms: int)
    requires 9_223_372_036_855 <= ms <= 18_446_744_073_709
    ensures RetryWait(Itoa(ms)) == ms * NanosPerMilli - TwoTo64 < 0
  {
    RetryWaitWraps(ms);
    var x := ms * NanosPerMilli;
    assert 9_223_372_036_855_000_000 <= x <= 18_446_744_073_709_000_000 by {
      MulMonotone(9_223_372_036_855, ms, NanosPerMilli);
      MulMonotone(ms, 18_446_744_073_709, NanosPerMilli);
    }
    ModOnce(x - MinInt64, TwoTo64);
  }

  /** One wrap: a value between m and 2m, taken modulo m, loses one m. */
  lemma ModOnce(z: int, m: int)
    requires 0 < m <= z < 2 * m
    ensures z % m == z - m
  {
    var r := z - m;
    assert z == m * 1 + r && 0 <= r < m;
  }

  lemma MulMonotone(a: int, b: int, c: nat)
    requires a <= b
    ensures a * c <= b * c
  {
  }

  /** An example exchange: a 429 with Retry-After 50 followed by a 200 is
      answered after one wait of 50 ms; without the header the wait is 1 s. */
  lemma RetryScenario(ok: Reply<string>)
    requires ok.Response? && ok.status == StatusOK
    ensures FirstFinal([Response(429, "50", None), ok]) == 1
    ensures RetryWait("50") == 50 * NanosPerMilli
    ensures FirstFinal([Response(429, "", None), ok]) == 1
  {
    RetryWaitMillis(50, "");
    assert Itoa(50) == "50";
    assert [Response(429, "50", None), ok][1..] == [ok];
    assert [Response(429, "", None), ok][1..] == [ok];
  }
}
