/** `poll_for_token` (src/aws.rs): the device-code token polling loop of the
    OAuth 2.0 Device Authorization Grant (sections 3.4 and 3.5 of RFC 8628).
    The token endpoint's successive answers are a finite script; every `sleep`
    is recorded as its duration in seconds. */
module TokenPoller {
  import opened Wrappers
  import opened Text
  import opened Oidc

  const AUTHORIZATION_PENDING := "authorization_pending"
  const SLOW_DOWN := "slow_down"
  const SLOW_DOWN_PENALTY: nat := 5

  /** How the loop treats the text of a failed `create_token` call. */
  datatype ErrorClass = Pending | SlowDown | Fatal

  /** Classification by substring, "authorization_pending" first. */
  function Classify(message: string): (c: ErrorClass)
    ensures c == Pending <==> Contains(message, AUTHORIZATION_PENDING)
    ensures c == SlowDown <==> !Contains(message, AUTHORIZATION_PENDING) && Contains(message, SLOW_DOWN)
    ensures c == Fatal <==> !Contains(message, AUTHORIZATION_PENDING) && !Contains(message, SLOW_DOWN)
  {
    if Contains(message, AUTHORIZATION_PENDING) then Pending
    else if Contains(message, SLOW_DOWN) then SlowDown
    else Fatal
  }

  /** The wait before the next attempt after a retryable error. */
  function Backoff(interval: nat, c: ErrorClass): nat {
    if c == Pending then interval else interval + SLOW_DOWN_PENALTY
  }

  /** How polling ended: a token, a fatal error, or the script ran out while the
      program would still be polling. */
  datatype PollOutcome = Token(output: CreateTokenOutput) | Failed(message: string) | StillPolling

  /** What one run of the loop did: its outcome, the sleeps in order, and the
      number of `create_token` calls. */
  datatype PollTrace = PollTrace(outcome: PollOutcome, sleeps: seq<nat>, calls: nat)

  /** The reference behaviour of the loop over the answers `responses`. */
  function Poll(interval: nat, responses: seq<Result<CreateTokenOutput>>): PollTrace
    decreases |responses|
  {
    if responses == [] then PollTrace(StillPolling, [], 0)
    else match responses[0]
      case Ok(out) => PollTrace(Token(out), [], 1)
      case Err(msg) =>
        var c := Classify(msg);
        if c == Fatal then PollTrace(Failed("CreateToken failed: " + msg), [], 1)
        else
          var rest := Poll(interval, responses[1..]);
          PollTrace(rest.outcome, [Backoff(interval, c)] + rest.sleeps, rest.calls + 1)
  }

  /** The loop itself. `interval` is the provider's interval after `as u64`. */
  method PollForToken(clientId: string, clientSecret: string, deviceCode: string, interval: nat,
                      responses: seq<Result<CreateTokenOutput>>)
    returns (outcome: PollOutcome, sleeps: seq<nat>, requests: seq<CreateTokenRequest>)
    ensures Poll(interval, responses) == PollTrace(outcome, sleeps, |requests|)
    ensures forall k :: 0 <= k < |requests| ==>
              requests[k] == CreateTokenRequest(clientId, clientSecret, DEVICE_CODE_GRANT, deviceCode)
  {
    var request := CreateTokenRequest(clientId, clientSecret, DEVICE_CODE_GRANT, deviceCode);
    sleeps, requests := [], [];
    var i := 0;
    assert responses[i..] == responses;
    assert [] + Poll(interval, responses).sleeps == Poll(interval, responses).sleeps;
    while i < |responses|
      invariant 0 <= i <= |responses| && |requests| == i
      invariant forall k :: 0 <= k < i ==> requests[k] == request
      invariant Poll(interval, responses) == After(sleeps, i, Poll(interval, responses[i..]))
    {
      requests := requests + [request];
      PollUnfold(interval, responses[i..]);
      assert responses[i..][1..] == responses[i + 1..];
      match responses[i]
      case Ok(out) =>
        outcome := Token(out);
        return;
      case Err(msg) =>
        var wait: nat;
        if Contains(msg, AUTHORIZATION_PENDING) {
          wait := interval;
        } else if Contains(msg, SLOW_DOWN) {
          wait := interval + SLOW_DOWN_PENALTY;
        } else {
          outcome := Failed("CreateToken failed: " + msg);
          return;
        }
        AfterAfter(sleeps, i, [wait], 1, Poll(interval, responses[i + 1..]));
        sleeps := sleeps + [wait];
      i := i + 1;
    }
    outcome := StillPolling;
  }

  /** The trace `rest` of a later part of the loop, preceded by `calls` calls that
      slept `sleeps`. */
  function After(sleeps: seq<nat>, calls: nat, rest: PollTrace): PollTrace {
    PollTrace(rest.outcome, sleeps + rest.sleeps, calls + rest.calls)
  }

  lemma AfterAfter(sleeps: seq<nat>, calls: nat, more: seq<nat>, moreCalls: nat, rest: PollTrace)
    ensures After(sleeps, calls, After(more, moreCalls, rest)) == After(sleeps + more, calls + moreCalls, rest)
  {
    assert sleeps + (more + rest.sleeps) == (sleeps + more) + rest.sleeps;
  }

  /** One step of `Poll`. */
  lemma PollUnfold(interval: nat, responses: seq<Result<CreateTokenOutput>>)
    requires responses != []
    ensures responses[0].Ok? ==> Poll(interval, responses) == PollTrace(Token(responses[0].value), [], 1)
    ensures responses[0].Err? && Classify(responses[0].error) == Fatal ==>
              Poll(interval, responses) == PollTrace(Failed("CreateToken failed: " + responses[0].error), [], 1)
    ensures responses[0].Err? && Classify(responses[0].error) != Fatal ==>
              Poll(interval, responses) ==
                After([Backoff(interval, Classify(responses[0].error))], 1, Poll(interval, responses[1..]))
  {
  }

  /** A retryable answer: an error classified as pending or slow-down. */
  predicate Retryable(response: Result<CreateTokenOutput>) {
    response.Err? && Classify(response.error) != Fatal
  }

  /** Calls and sleeps: polling ends after exactly one more call than it slept,
      or, when the script runs out, it has slept after every call; every call
      consumed one answer. */
  lemma {:induction false} PollCounts(interval: nat, responses: seq<Result<CreateTokenOutput>>)
    ensures Poll(interval, responses).calls <= |responses|
    ensures Poll(interval, responses).outcome != StillPolling ==>
              Poll(interval, responses).calls == |Poll(interval, responses).sleeps| + 1
    ensures Poll(interval, responses).outcome == StillPolling ==>
              Poll(interval, responses).calls == |Poll(interval, responses).sleeps| == |responses|
    decreases |responses|
  {
    if responses != [] && Retryable(responses[0]) {
      PollCounts(interval, responses[1..]);
    }
  }

  /** Every sleep follows a retryable answer and lasts exactly `interval` after a
      pending answer and exactly `interval + 5` after a slow-down answer: the
      interval never grows, however many slow-downs come. */
  lemma {:induction false} PollSleeps(interval: nat, responses: seq<Result<CreateTokenOutput>>)
    ensures |Poll(interval, responses).sleeps| <= |responses|
    ensures forall k :: 0 <= k < |Poll(interval, responses).sleeps| ==>
              Retryable(responses[k]) &&
              Poll(interval, responses).sleeps[k] ==
                (if Classify(responses[k].error) == Pending then interval else interval + 5)
    decreases |responses|
  {
    if responses != [] && Retryable(responses[0]) {
      PollSleeps(interval, responses[1..]);
      var rest := Poll(interval, responses[1..]);
      assert Poll(interval, responses).sleeps == [Backoff(interval, Classify(responses[0].error))] + rest.sleeps;
      forall k | 1 <= k < |Poll(interval, responses).sleeps|
        ensures Retryable(responses[k])
      {
        assert responses[1..][k - 1] == responses[k];
      }
    }
  }

  /** Polling stops at the first answer that is not retryable: a token is
      returned as received, any other error as "CreateToken failed: " + text;
      every answer before it was retryable. */
  lemma {:induction false} PollStopsAtFirstFinalAnswer(interval: nat, responses: seq<Result<CreateTokenOutput>>)
    ensures var t := Poll(interval, responses);
      t.outcome != StillPolling ==>
        && 1 <= t.calls <= |responses|
        && (forall k :: 0 <= k < t.calls - 1 ==> Retryable(responses[k]))
        && !Retryable(responses[t.calls - 1])
        && (t.outcome.Token? ==> responses[t.calls - 1] == Ok(t.outcome.output))
        && (t.outcome.Failed? ==>
              responses[t.calls - 1].Err? && t.outcome.message == "CreateToken failed: " + responses[t.calls - 1].error)
    ensures Poll(interval, responses).outcome == StillPolling ==>
              forall k :: 0 <= k < |responses| ==> Retryable(responses[k])
    decreases |responses|
  {
    if responses != [] && Retryable(responses[0]) {
      PollStopsAtFirstFinalAnswer(interval, responses[1..]);
      forall k | 1 <= k < |responses|
        ensures responses[1..][k - 1] == responses[k]
      {
      }
    }
  }

  /** Once polling has ended, answers the endpoint would have given later are
      never asked for: they change nothing. */
  lemma {:induction false} PollIgnoresLaterAnswers(interval: nat, responses: seq<Result<CreateTokenOutput>>,
                                                   later: seq<Result<CreateTokenOutput>>)
    requires Poll(interval, responses).outcome != StillPolling
    ensures Poll(interval, responses + later) == Poll(interval, responses)
    decreases |responses|
  {
    assert (responses + later)[0] == responses[0];
    if Retryable(responses[0]) {
      assert (responses + later)[1..] == responses[1..] + later;
      PollIgnoresLaterAnswers(interval, responses[1..], later);
    }
  }

  /** A run of `n` slow-down answers sleeps `interval + 5` every time: the
      penalty does not accumulate from one slow-down to the next. */
  lemma {:induction false} RepeatedSlowDownSleepsStayConstant(interval: nat, n: nat, answer: Result<CreateTokenOutput>)
    requires answer.Err? && Classify(answer.error) == SlowDown
    ensures Poll(interval, seq(n, _ => answer)).sleeps == seq(n, _ => interval + 5)
    ensures Poll(interval, seq(n, _ => answer)).outcome == StillPolling
  {
    if n > 0 {
      RepeatedSlowDownSleepsStayConstant(interval, n - 1, answer);
      assert seq(n, _ => answer)[1..] == seq(n - 1, _ => answer);
      assert [interval + 5] + seq(n - 1, _ => interval + 5) == seq(n, _ => interval + 5);
    }
  }
}
