/** The service as the script sees it. `api_call` sleeps, issues one GET and reports
    success (HTTP 200, with the decoded body) or failure; here every call takes the next
    outcome of a given sequence, and the calls made are kept as a log of requests and
    outcomes. Running out of outcomes is not a behaviour of the script: it means the
    sequence given was too short to decide what the script does. */
module Fetching {
  import opened Options
  import opened PyJson

  /** The query parameters of a listing request (`params` in the source). */
  datatype Query = Query(start: int, rows: int, sort: string)

  /** One GET request: a URL and, for the listing, its query parameters. */
  datatype Request = Request(url: string, query: Option<Query>)

  /** What one `api_call` returns. */
  datatype Fetch = Success(body: Json) | Failure

  /** One call made: the request and the outcome it got. */
  datatype Call = Call(request: Request, outcome: Fetch)

  /** The calls that issue `req` and get the outcomes `outs`, one after another. */
  function CallsOf(req: Request, outs: seq<Fetch>): seq<Call>
  {
    seq(|outs|, k requires 0 <= k < |outs| => Call(req, outs[k]))
  }

  /** One more outcome adds one more call. */
  lemma CallsOfExtend(req: Request, outs: seq<Fetch>, k: nat)
    requires k < |outs|
    ensures CallsOf(req, outs[..k + 1]) == CallsOf(req, outs[..k]) + [Call(req, outs[k])]
  {
  }

  /** The outcomes the calls got, in order. */
  function Outcomes(calls: seq<Call>): seq<Fetch>
  {
    seq(|calls|, k requires 0 <= k < |calls| => calls[k].outcome)
  }

  lemma OutcomesOfCalls(req: Request, outs: seq<Fetch>)
    ensures Outcomes(CallsOf(req, outs)) == outs
  {
  }

  /** The bodies of the successful outcomes, in order. */
  function Successes(outs: seq<Fetch>): seq<Json>
  {
    if outs == [] then []
    else (if outs[0].Success? then [outs[0].body] else []) + Successes(outs[1..])
  }

  /** The position of the first success, if there is one. */
  function FirstSuccess(outs: seq<Fetch>): (r: Option<nat>)
    ensures r.Some? ==> r.value < |outs| && outs[r.value].Success?
    ensures r.Some? ==> forall k :: 0 <= k < r.value ==> outs[k].Failure?
    ensures r.None? ==> forall k :: 0 <= k < |outs| ==> outs[k].Failure?
  {
    if outs == [] then None
    else if outs[0].Success? then Some(0)
    else
      match FirstSuccess(outs[1..])
      case None => None
      case Some(j) => Some(j + 1)
  }

  /** What repeating one request until it succeeds leads to: the body of the first success,
      the calls made and the outcomes left; or, when no outcome is a success, every call made. */
  datatype Retried = Fetched(body: Json, calls: seq<Call>, rest: seq<Fetch>) | Exhausted(calls: seq<Call>)

  /** `result = False; while not result: result, response = api_call(...)`: the request is
      repeated until an outcome is a success. */
  function Retry(req: Request, outs: seq<Fetch>): (r: Retried)
    ensures r.Fetched? ==> |r.calls| >= 1 && Outcomes(r.calls) + r.rest == outs
    ensures r.Fetched? ==> r.calls[|r.calls| - 1] == Call(req, Success(r.body))
    ensures r.Exhausted? ==> Outcomes(r.calls) == outs
    ensures forall k :: 0 <= k < |r.calls| ==> r.calls[k].request == req
    ensures forall k :: 0 <= k < |r.calls| && (r.Exhausted? || k < |r.calls| - 1) ==> r.calls[k].outcome == Failure
  {
    match FirstSuccess(outs)
    case None => Exhausted(CallsOf(req, outs))
    case Some(j) =>
      assert Outcomes(CallsOf(req, outs[..j + 1])) + outs[j + 1..] == outs by {
        assert Outcomes(CallsOf(req, outs[..j + 1])) == outs[..j + 1];
      }
      Fetched(outs[j].body, CallsOf(req, outs[..j + 1]), outs[j + 1..])
  }

  /** The first success among the outcomes is at position k. */
  lemma FirstSuccessAt(outs: seq<Fetch>, k: nat)
    requires k < |outs| && outs[k].Success?
    requires forall j :: 0 <= j < k ==> outs[j].Failure?
    ensures FirstSuccess(outs) == Some(k)
  {
  }

  lemma {:induction false} SuccessesAppend(a: seq<Fetch>, b: seq<Fetch>)
    ensures Successes(a + b) == Successes(a) + Successes(b)
    decreases |a|
  {
    if a != [] {
      assert (a + b)[1..] == a[1..] + b;
      SuccessesAppend(a[1..], b);
    } else {
      assert a + b == b;
    }
  }

  lemma {:induction false} SuccessesOfFailures(outs: seq<Fetch>)
    requires forall k :: 0 <= k < |outs| ==> outs[k].Failure?
    ensures Successes(outs) == []
    decreases |outs|
  {
    if outs != [] {
      SuccessesOfFailures(outs[1..]);
    }
  }

  /** Retrying takes the first success and nothing else: no success left means the
      retry never ends, and otherwise the successes are the body taken followed by
      the successes still ahead. */
  lemma RetryTakesFirstSuccess(req: Request, outs: seq<Fetch>)
    ensures Retry(req, outs).Exhausted? <==> Successes(outs) == []
    ensures Retry(req, outs).Fetched? ==>
      Successes(outs) == [Retry(req, outs).body] + Successes(Retry(req, outs).rest)
  {
    match FirstSuccess(outs)
    case None =>
      SuccessesOfFailures(outs);
    case Some(j) =>
      assert outs == outs[..j] + [outs[j]] + outs[j + 1..];
      SuccessesOfFailures(outs[..j]);
      SuccessesAppend(outs[..j] + [outs[j]], outs[j + 1..]);
      SuccessesAppend(outs[..j], [outs[j]]);
      assert Successes([outs[j]]) == [outs[j].body];
  }

  /** Retrying when the first success is at position j. */
  lemma RetryAt(req: Request, outs: seq<Fetch>, j: nat)
    requires j < |outs| && outs[j].Success? && forall k :: 0 <= k < j ==> outs[k].Failure?
    ensures Retry(req, outs) == Fetched(outs[j].body, CallsOf(req, outs[..j + 1]), outs[j + 1..])
  {
    FirstSuccessAt(outs, j);
  }

  /** Retrying when no outcome is a success. */
  lemma RetryNone(req: Request, outs: seq<Fetch>)
    requires forall k :: 0 <= k < |outs| ==> outs[k].Failure?
    ensures Retry(req, outs) == Exhausted(CallsOf(req, outs))
  {
    assert FirstSuccess(outs).None?;
  }

  /** n failed outcomes in a row. */
  function Failures(n: nat): (r: seq<Fetch>)
  {
    seq(n, k => Failure)
  }

  lemma FailuresFail(n: nat)
    ensures |Failures(n)| == n
    ensures forall k :: 0 <= k < n ==> Failures(n)[k] == Failure
  {
  }

  lemma SuccessesSkipFailures(a: seq<Fetch>, f: seq<Fetch>, b: seq<Fetch>)
    requires forall k :: 0 <= k < |f| ==> f[k].Failure?
    ensures Successes(a + f + b) == Successes(a + b)
  {
    SuccessesAppend(a + f, b);
    SuccessesAppend(a, f);
    SuccessesOfFailures(f);
    SuccessesAppend(a, b);
  }

  /** Failures inserted anywhere among the outcomes leave the successes as they were. */
  lemma FailuresAnywhereIgnored(outs: seq<Fetch>, m: nat, n: nat)
    requires m <= |outs|
    ensures Successes(outs[..m] + Failures(n) + outs[m..]) == Successes(outs)
  {
    var before, failed, after := outs[..m], Failures(n), outs[m..];
    assert Successes(before + failed + after) == Successes(before + after) by {
      FailuresFail(n);
      SuccessesSkipFailures(before, failed, after);
    }
    assert before + after == outs;
  }

  /** However many failures come before them, retrying gets the same body and leaves the
      same outcomes; the failures only add calls. */
  lemma {:induction false} FailuresBeforeRetryIgnored(req: Request, n: nat, outs: seq<Fetch>)
    ensures Retry(req, Failures(n) + outs).Fetched? <==> Retry(req, outs).Fetched?
    ensures Retry(req, outs).Fetched? ==>
      && Retry(req, Failures(n) + outs).body == Retry(req, outs).body
      && Retry(req, Failures(n) + outs).rest == Retry(req, outs).rest
      && Retry(req, Failures(n) + outs).calls == CallsOf(req, Failures(n)) + Retry(req, outs).calls
  {
    var all := Failures(n) + outs;
    match FirstSuccess(outs)
    case None =>
      assert forall k :: 0 <= k < |all| ==> all[k].Failure?;
    case Some(j) =>
      FirstSuccessAt(all, n + j);
      assert all[n + j + 1..] == outs[j + 1..];
      assert all[..n + j + 1] == Failures(n) + outs[..j + 1];
      assert CallsOf(req, Failures(n) + outs[..j + 1]) == CallsOf(req, Failures(n)) + CallsOf(req, outs[..j + 1]);
  }

  /** One `api_call` loop of the source, `while not result`: it stops at the first
      success and returns its body, with the calls made and the position after them.
      When no success is left it makes every remaining call and returns no body. */
  method RetryUntilSuccess(req: Request, outcomes: seq<Fetch>) returns (response: Option<Json>, made: seq<Call>, next: nat)
    ensures next <= |outcomes|
    ensures Retry(req, outcomes) ==
      if response.Some? then Fetched(response.value, made, outcomes[next..]) else Exhausted(made)
  {
    var result := false;
    response, made, next := None, [], 0;
    while !result
      invariant next <= |outcomes|
      invariant made == CallsOf(req, outcomes[..next])
      invariant !result ==> response.None? && forall k :: 0 <= k < next ==> outcomes[k].Failure?
      invariant result ==> 0 < next && response.Some? && outcomes[next - 1] == Success(response.value)
      invariant result ==> forall k :: 0 <= k < next - 1 ==> outcomes[k].Failure?
      decreases |outcomes| - next, if result then 0 else 1
    {
      if next == |outcomes| {
        // the outcomes given have run out; the source would go on calling
        assert Retry(req, outcomes) == Exhausted(made) by {
          assert outcomes == outcomes[..next];
          RetryNone(req, outcomes);
        }
        return;
      }
      var outcome := outcomes[next];
      CallsOfExtend(req, outcomes, next);
      made := made + [Call(req, outcome)];
      next := next + 1;
      result := outcome.Success?;
      if result {
        response := Some(outcome.body);
      }
    }
    assert Retry(req, outcomes) == Fetched(response.value, made, outcomes[next..]) by {
      RetryAt(req, outcomes, next - 1);
    }
  }
}
