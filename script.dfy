/** The control flow of the export script: the count phase with its bounded retry and its
    fatal check, the listing loop over pages of 100, the detail fetch for every listed
    item, and the rows appended in order. Each phase is a reference function, and a method
    with the source's loops is proved to compute it. */
module FifApiCall {
  import opened Options
  import opened PyJson
  import opened Paging
  import opened Rows
  import opened Fetching

  /** The sort order of every listing request. */
  const Sort := "number asc"

  /** The count request: `params` as first set, `{start: 0, rows: 0, sort}`. */
  function CountRequest(url: string): Request
  {
    Request(url, Some(Query(0, 0, Sort)))
  }

  /** The listing request for the page at offset `start`. */
  function PageRequest(url: string, start: int): Request
  {
    Request(url, Some(Query(start, PageSize, Sort)))
  }

  /** The detail request for an item: `url + "/" + mit_id`, without parameters. */
  function DetailRequest(url: string, id: string): Request
  {
    Request(url + "/" + id, None)
  }

  /** `response['result']['count']`. */
  function CountOf(body: Json): Option<Json>
  {
    match Subscript(body, "result")
    case None => None
    case Some(res) => Subscript(res, "count")
  }

  /** The items `for item in response['result']['items']` visits. */
  function PageItems(body: Json): Option<seq<Json>>
  {
    match Subscript(body, "result")
    case None => None
    case Some(res) =>
      match Subscript(res, "items")
      case None => None
      case Some(items) => Iterate(items)
  }

  /** `item['mit_id']` where the detail URL is built: it must be a string, or the
      concatenation raises. */
  function DetailId(item: Json): Option<string>
  {
    match Subscript(item, "mit_id")
    case Some(Str(id)) => Some(id)
    case _ => None
  }

  // ---------------------------------------------------------------------------------
  // The count phase
  // ---------------------------------------------------------------------------------

  /** Where the count phase leaves the script: the loop index `i` (None when the loop never
      ran and left `i` unbound), `elements_count`, the calls made and the outcomes left; or
      a crash (the success's body has no `result.count`); or outcomes that ran out. */
  datatype CountResult =
    | Counted(index: Option<int>, count: Json, calls: seq<Call>, rest: seq<Fetch>)
    | CountCrashed(calls: seq<Call>)
    | CountStalled(calls: seq<Call>)

  /** The count phase: the count request is made at most `attempts` times and the first
      success ends it, with `elements_count` taken from its body; when every attempt fails
      `elements_count` stays 0 and `i` ends at attempts - 1. */
  function CountPhase(attempts: int, url: string, outs: seq<Fetch>): (r: CountResult)
    ensures forall k :: 0 <= k < |r.calls| ==> r.calls[k].request == CountRequest(url)
    ensures |r.calls| <= |outs| && |r.calls| <= if attempts <= 0 then 0 else attempts
  {
    if attempts <= 0 then Counted(None, Num(0), [], outs)
    else
      var window := if |outs| < attempts then outs else outs[..attempts];
      match FirstSuccess(window)
      case Some(j) =>
        var calls := CallsOf(CountRequest(url), outs[..j + 1]);
        (match CountOf(outs[j].body)
         case None => CountCrashed(calls)
         case Some(c) => Counted(Some(j), c, calls, outs[j + 1..]))
      case None =>
        if |outs| < attempts then CountStalled(CallsOf(CountRequest(url), outs))
        else Counted(Some(attempts - 1), Num(0), CallsOf(CountRequest(url), outs[..attempts]), outs[attempts..])
  }

  /** The count phase consumes the outcomes in order and stops at the first success: every
      call but the last failed, a crash comes from a success whose body has no
      `result.count`, and running out means every outcome given failed. */
  lemma CountPhaseStopsAtFirstSuccess(attempts: int, url: string, outs: seq<Fetch>)
    ensures var r := CountPhase(attempts, url, outs);
      && Outcomes(r.calls) == outs[..|r.calls|]
      && (forall k :: 0 <= k < |r.calls| - 1 ==> r.calls[k].outcome == Failure)
      && (r.Counted? ==> r.rest == outs[|r.calls|..])
      && (r.CountCrashed? ==>
            (r.calls != [] && r.calls[|r.calls| - 1].outcome.Success? && CountOf(r.calls[|r.calls| - 1].outcome.body).None?))
      && (r.CountStalled? ==> |r.calls| == |outs| < attempts && forall k :: 0 <= k < |outs| ==> outs[k].Failure?)
  {
    var r := CountPhase(attempts, url, outs);
    OutcomesOfCalls(CountRequest(url), outs[..|r.calls|]);
    if attempts > 0 {
      var window := if |outs| < attempts then outs else outs[..attempts];
      if FirstSuccess(window).None? && |outs| < attempts {
        assert outs[..|outs|] == outs;
      }
    }
  }

  /** What the count phase hands on: `i` is unbound exactly when the budget is not
      positive, and otherwise is the index of the last attempt; `elements_count` is the
      success's `result.count`, or 0 when every attempt failed, in which case all
      `attempts` were made. */
  lemma CountPhaseResult(attempts: int, url: string, outs: seq<Fetch>)
    ensures var r := CountPhase(attempts, url, outs);
      && (r.Counted? ==> (r.index.None? <==> attempts <= 0) && (r.index.None? ==> r.calls == []))
      && (r.Counted? && r.index.Some? ==> r.index.value == |r.calls| - 1)
      && (r.Counted? && r.calls != [] && r.calls[|r.calls| - 1].outcome.Success? ==>
            Some(r.count) == CountOf(r.calls[|r.calls| - 1].outcome.body))
      && (r.Counted? && (r.calls == [] || r.calls[|r.calls| - 1].outcome.Failure?) ==>
            r.count == Num(0) && (attempts > 0 ==> |r.calls| == attempts))
  {
  }

  /** The count phase when the first success among the first `attempts` outcomes is at j. */
  lemma CountPhaseAtSuccess(attempts: int, url: string, outs: seq<Fetch>, j: nat)
    requires j < attempts && j < |outs| && outs[j].Success?
    requires forall k :: 0 <= k < j ==> outs[k].Failure?
    ensures CountPhase(attempts, url, outs) ==
      match CountOf(outs[j].body)
      case None => CountCrashed(CallsOf(CountRequest(url), outs[..j + 1]))
      case Some(c) => Counted(Some(j), c, CallsOf(CountRequest(url), outs[..j + 1]), outs[j + 1..])
  {
    var window := if |outs| < attempts then outs else outs[..attempts];
    FirstSuccessAt(window, j);
  }

  /** The count phase when the first `attempts` outcomes are all failures. */
  lemma CountPhaseAllFail(attempts: int, url: string, outs: seq<Fetch>)
    requires 0 < attempts <= |outs|
    requires forall k :: 0 <= k < attempts ==> outs[k].Failure?
    ensures CountPhase(attempts, url, outs) ==
      Counted(Some(attempts - 1), Num(0), CallsOf(CountRequest(url), outs[..attempts]), outs[attempts..])
  {
    assert FirstSuccess(outs[..attempts]).None?;
  }

  /** The count phase when fewer than `attempts` outcomes are given and all fail. */
  lemma CountPhaseRunsOut(attempts: int, url: string, outs: seq<Fetch>)
    requires |outs| < attempts
    requires forall k :: 0 <= k < |outs| ==> outs[k].Failure?
    ensures CountPhase(attempts, url, outs) == CountStalled(CallsOf(CountRequest(url), outs))
  {
    assert FirstSuccess(outs).None?;
  }

  /** The count loop, `for i in range(0, attempts)`, which breaks on the first success.
      The loop's `i` and `elements_count` are what the method hands on. */
  method CountElements(attempts: int, url: string, outcomes: seq<Fetch>) returns (r: CountResult)
    ensures r == CountPhase(attempts, url, outcomes)
  {
    var params := Query(0, 0, Sort);
    var req := Request(url, Some(params));
    assert req == CountRequest(url);
    var i: Option<int> := None;
    var calls: seq<Call> := [];
    var next := 0;
    while next < attempts
      invariant next <= |outcomes| && (if attempts > 0 then next <= attempts else next == 0)
      invariant calls == CallsOf(CountRequest(url), outcomes[..next])
      invariant forall k :: 0 <= k < next ==> outcomes[k].Failure?
      invariant i == if next == 0 then None else Some(next - 1)
      decreases attempts - next
    {
      i := Some(next);
      if next == |outcomes| {
        // the outcomes given have run out
        assert outcomes[..next] == outcomes;
        CountPhaseRunsOut(attempts, url, outcomes);
        return CountStalled(calls);
      }
      var outcome := outcomes[next];
      CallsOfExtend(req, outcomes, next);
      calls := calls + [Call(req, outcome)];
      if outcome.Success? {
        CountPhaseAtSuccess(attempts, url, outcomes, next);
        var elementsCount := CountOf(outcome.body);
        if elementsCount.None? {
          // `response['result']['count']` raises
          return CountCrashed(calls);
        }
        return Counted(i, elementsCount.value, calls, outcomes[next + 1..]);
      }
      next := next + 1;
    }
    if attempts > 0 {
      CountPhaseAllFail(attempts, url, outcomes);
    } else {
      assert outcomes[..0] == [] && outcomes[0..] == outcomes;
      assert |calls| == 0;
    }
    r := Counted(i, Num(0), calls, outcomes[next..]);
  }

  // ---------------------------------------------------------------------------------
  // The listing loop and the detail fetches
  // ---------------------------------------------------------------------------------

  /** How far a stretch of the listing gets: every row and call, with the outcomes left;
      or a crash (an exception outside the try block), with the calls made before it; or
      outcomes that ran out while a request was still being retried. */
  datatype Progress =
    | Done(rows: seq<Row>, calls: seq<Call>, rest: seq<Fetch>)
    | Crash(calls: seq<Call>)
    | Stall(calls: seq<Call>)

  /** The rows and calls `rows` and `calls` come before those of `p`. */
  function Then(rows: seq<Row>, calls: seq<Call>, p: Progress): Progress
  {
    match p
    case Done(r, c, rest) => Done(rows + r, calls + c, rest)
    case Crash(c) => Crash(calls + c)
    case Stall(c) => Stall(calls + c)
  }

  /** The items of one page, each with its detail fetch (retried until it succeeds) and
      its row. An item without a string `mit_id` crashes the script where the detail URL
      is built. */
  function ItemsRun(url: string, items: seq<Json>, outs: seq<Fetch>): Progress
    decreases |items|
  {
    if items == [] then Done([], [], outs)
    else
      match DetailId(items[0])
      case None => Crash([])
      case Some(id) =>
        match Retry(DetailRequest(url, id), outs)
        case Exhausted(cs) => Stall(cs)
        case Fetched(detail, cs, rest) => Then([BuildRow(items[0], detail)], cs, ItemsRun(url, items[1..], rest))
  }

  /** One page of the listing at offset `start`: the listing request is retried until it
      succeeds, then the items of its `result.items` go through the detail loop. */
  function PageRun(url: string, start: int, outs: seq<Fetch>): Progress
  {
    match Retry(PageRequest(url, start), outs)
    case Exhausted(cs) => Stall(cs)
    case Fetched(page, cs, rest) =>
      match PageItems(page)
      case None => Crash(cs)
      case Some(items) => Then([], cs, ItemsRun(url, items, rest))
  }

  /** The pages at the offsets `starts`, in order; a page that crashes or stalls ends the run. */
  function PagesRun(url: string, starts: seq<int>, outs: seq<Fetch>): Progress
    decreases |starts|
  {
    if starts == [] then Done([], [], outs)
    else
      match PageRun(url, starts[0], outs)
      case Done(rows, calls, rest) => Then(rows, calls, PagesRun(url, starts[1..], rest))
      case Crash(c) => Crash(c)
      case Stall(c) => Stall(c)
  }

  /** The listing from offset `start` on is its first page followed by the rest. */
  lemma PagesRunFrom(url: string, starts: seq<int>, outs: seq<Fetch>)
    requires starts != []
    ensures var s := PageRun(url, starts[0], outs);
      PagesRun(url, starts, outs) == if s.Done? then Then(s.rows, s.calls, PagesRun(url, starts[1..], s.rest)) else s
  {
  }

  lemma ThenThen(r1: seq<Row>, c1: seq<Call>, r2: seq<Row>, c2: seq<Call>, p: Progress)
    ensures Then(r1, c1, Then(r2, c2, p)) == Then(r1 + r2, c1 + c2, p)
  {
    match p
    case Done(r, c, rest) =>
      assert r1 + (r2 + r) == r1 + r2 + r;
      assert c1 + (c2 + c) == c1 + c2 + c;
    case Crash(c) =>
      assert c1 + (c2 + c) == c1 + c2 + c;
    case Stall(c) =>
      assert c1 + (c2 + c) == c1 + c2 + c;
  }

  lemma ThenNothing(p: Progress)
    ensures Then([], [], p) == p
  {
    match p
    case Done(r, c, rest) =>
      assert [] + r == r && [] + c == c;
    case Crash(c) =>
      assert [] + c == c;
    case Stall(c) =>
      assert [] + c == c;
  }

  /** The detail loop over the items of one page: for each item the detail request is
      retried until it succeeds and the row built from it is appended. */
  method ProcessItems(url: string, items: seq<Json>, outcomes: seq<Fetch>) returns (p: Progress)
    ensures p == ItemsRun(url, items, outcomes)
  {
    var rows: seq<Row> := [];
    var calls: seq<Call> := [];
    var remaining := outcomes;
    ghost var all := ItemsRun(url, items, outcomes);
    ThenNothing(all);
    var j := 0;
    while j < |items|
      invariant j <= |items|
      invariant all == Then(rows, calls, ItemsRun(url, items[j..], remaining))
    {
      var item := items[j];
      var id := DetailId(item);
      if id.None? {
        // `url + '/' + item['mit_id']` raises
        assert calls + [] == calls;
        return Crash(calls);
      }
      var detail, made, after := RetryUntilSuccess(DetailRequest(url, id.value), remaining);
      if detail.None? {
        return Stall(calls + made);
      }
      var row := BuildRow(item, detail.value);
      ghost var later := ItemsRun(url, items[j + 1..], remaining[after..]);
      assert ItemsRun(url, items[j..], remaining) == Then([row], made, later) by {
        assert items[j..][0] == item && items[j..][1..] == items[j + 1..];
        assert DetailId(items[j..][0]) == Some(id.value);
        assert Retry(DetailRequest(url, id.value), remaining) == Fetched(detail.value, made, remaining[after..]);
      }
      ThenThen(rows, calls, [row], made, later);
      rows, calls, remaining := rows + [row], calls + made, remaining[after..];
      j := j + 1;
    }
    assert items[j..] == [];
    assert rows + [] == rows && calls + [] == calls;
    p := Done(rows, calls, remaining);
  }

  /** The body of the listing loop for the page at offset `start`: the listing request
      is retried until it succeeds, then the page's items go through the detail loop. */
  method ProcessPage(url: string, start: int, outcomes: seq<Fetch>) returns (step: Progress)
    ensures step == PageRun(url, start, outcomes)
  {
    var params := Query(start, PageSize, Sort);
    var page, made, after := RetryUntilSuccess(Request(url, Some(params)), outcomes);
    if page.None? {
      return Stall(made);
    }
    var items := PageItems(page.value);
    if items.None? {
      // `response['result']['items']` raises or is not iterable
      return Crash(made);
    }
    var listed := ProcessItems(url, items.value, outcomes[after..]);
    step := Then([], made, listed);
  }

  /** The listing loop, `for params['start'] in range(0, elements_count, 100)`, with the
      rows of every page appended in order. */
  method ProcessPages(url: string, elementsCount: int, outcomes: seq<Fetch>) returns (p: Progress)
    ensures p == PagesRun(url, PageStarts(elementsCount), outcomes)
  {
    var rows: seq<Row> := [];
    var calls: seq<Call> := [];
    var remaining := outcomes;
    var starts := PageStarts(elementsCount);
    ghost var all := PagesRun(url, starts, outcomes);
    ThenNothing(all);
    assert starts[0..] == starts;
    for k := 0 to |starts|
      invariant all == Then(rows, calls, PagesRun(url, starts[k..], remaining))
    {
      var step := ProcessPage(url, starts[k], remaining);
      PagesRunFrom(url, starts[k..], remaining);
      if !step.Done? {
        return Then(rows, calls, step);
      }
      assert starts[k..][1..] == starts[k + 1..];
      ThenThen(rows, calls, step.rows, step.calls, PagesRun(url, starts[k + 1..], step.rest));
      rows, calls, remaining := rows + step.rows, calls + step.calls, step.rest;
    }
    assert starts[|starts|..] == [];
    assert rows + [] == rows && calls + [] == calls;
    p := Done(rows, calls, remaining);
  }

  // ---------------------------------------------------------------------------------
  // The whole script
  // ---------------------------------------------------------------------------------

  /** How a run ends: `sys.exit(1)` after the count check; an uncaught exception; outcomes
      that ran out while a request was still being retried; or the table written to the
      spreadsheet. */
  datatype RunEnd = FatalExit | Crashed | Stalled | Written(rows: seq<Row>)

  /** How the listing loop ends the script. */
  function Verdict(p: Progress): RunEnd
  {
    match p
    case Done(rows, _, _) => Written(rows)
    case Crash(_) => Crashed
    case Stall(_) => Stalled
  }

  /** The script from start to end: count phase, the literal check `i == 9 and
      elements_count == 0`, then the listing loop over `range(0, elements_count, 100)`;
      with every call made. */
  function ScriptRun(attempts: int, url: string, outs: seq<Fetch>): (RunEnd, seq<Call>)
  {
    match CountPhase(attempts, url, outs)
    case CountStalled(cs) => (Stalled, cs)
    case CountCrashed(cs) => (Crashed, cs)
    case Counted(i, count, cs, rest) =>
      if i.None? then (Crashed, cs)
      else if i.value == 9 && EqualsZero(count) then (FatalExit, cs)
      else
        match AsIndex(count)
        case None => (Crashed, cs)
        case Some(n) =>
          var p := PagesRun(url, PageStarts(n), rest);
          (Verdict(p), cs + p.calls)
  }

  /** The script: the count loop, the fatal check, the listing loop. */
  method RunScript(attempts: int, url: string, outcomes: seq<Fetch>) returns (out: RunEnd, calls: seq<Call>)
    ensures (out, calls) == ScriptRun(attempts, url, outcomes)
  {
    var counted := CountElements(attempts, url, outcomes);
    calls := counted.calls;
    if counted.CountStalled? {
      return Stalled, calls;
    }
    if counted.CountCrashed? {
      return Crashed, calls;
    }
    var i, elementsCount := counted.index, counted.count;
    if i.None? {
      // the check reads `i`, which the loop never bound: NameError
      return Crashed, calls;
    }
    if i.value == 9 && EqualsZero(elementsCount) {
      return FatalExit, calls;
    }
    var bound := AsIndex(elementsCount);
    if bound.None? {
      // `range` rejects a count that is not an integer
      return Crashed, calls;
    }
    var pages := ProcessPages(url, bound.value, counted.rest);
    out, calls := Verdict(pages), calls + pages.calls;
  }
}
