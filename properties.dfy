/** What a run of the export script does, stated over the model of its control flow: when
    it gives up, which requests it makes, and which rows end up in the table. */
module ScriptProperties {
  import opened Options
  import opened PyJson
  import opened Paging
  import opened Rows
  import opened Fetching
  import opened FifApiCall

  // ---------------------------------------------------------------------------------
  // The count check
  // ---------------------------------------------------------------------------------

  /** The script reaches `sys.exit(1)` exactly when the count loop bound `i` to 9 and left
      `elements_count` equal to 0. (An uncaught exception, `Crashed` here, also ends the
      process with status 1, with a traceback instead of the message.) */
  lemma FatalExitCondition(attempts: int, url: string, outs: seq<Fetch>)
    ensures ScriptRun(attempts, url, outs).0 == FatalExit <==>
      var r := CountPhase(attempts, url, outs);
      r.Counted? && r.index == Some(9) && EqualsZero(r.count)
  {
  }

  /** With the configured budget of ten attempts, and at least ten outcomes to draw on, the
      script exits exactly when the first nine count requests fail and the tenth fails too
      or reports a count equal to 0. */
  lemma FatalExitWithTenAttempts(url: string, outs: seq<Fetch>)
    requires |outs| >= 10
    ensures ScriptRun(10, url, outs).0 == FatalExit <==>
      (forall k :: 0 <= k < 9 ==> outs[k].Failure?) &&
      (outs[9].Failure? || CountOf(outs[9].body) == Some(Num(0)) || CountOf(outs[9].body) == Some(Bool(false)))
  {
    match FirstSuccess(outs[..10])
    case None =>
      assert forall k :: 0 <= k < 10 ==> outs[k] == outs[..10][k];
      CountPhaseAllFail(10, url, outs);
    case Some(j) =>
      assert forall k :: 0 <= k < j ==> outs[k] == outs[..10][k];
      assert outs[j] == outs[..10][j];
      CountPhaseAtSuccess(10, url, outs, j);
  }

  /** Ten failed count requests end the script with no other request made. */
  lemma FatalAfterTenFailures(url: string, outs: seq<Fetch>)
    requires |outs| >= 10 && forall k :: 0 <= k < 10 ==> outs[k].Failure?
    ensures ScriptRun(10, url, outs) == (FatalExit, CallsOf(CountRequest(url), outs[..10]))
  {
    CountPhaseAllFail(10, url, outs);
  }

  /** With any other positive budget, failing every count request does not stop the
      script: `i` never equals 9 at the check, the count stays 0, no page is requested and
      an empty table is written. */
  lemma NoFatalWithOtherBudget(attempts: int, url: string, outs: seq<Fetch>)
    requires 0 < attempts != 10 && |outs| >= attempts
    requires forall k :: 0 <= k < attempts ==> outs[k].Failure?
    ensures ScriptRun(attempts, url, outs) == (Written([]), CallsOf(CountRequest(url), outs[..attempts]))
  {
    CountPhaseAllFail(attempts, url, outs);
    assert PageStarts(0) == [];
    assert CallsOf(CountRequest(url), outs[..attempts]) + [] == CallsOf(CountRequest(url), outs[..attempts]);
  }

  /** A count of 0 reported by one of the first nine attempts writes an empty table; the
      same answer on the tenth attempt is taken for a failure and ends the script. */
  lemma ZeroCountAt(url: string, outs: seq<Fetch>, j: nat)
    requires j < 10 && j < |outs| && outs[j].Success? && CountOf(outs[j].body) == Some(Num(0))
    requires forall k :: 0 <= k < j ==> outs[k].Failure?
    ensures j < 9 ==> ScriptRun(10, url, outs) == (Written([]), CallsOf(CountRequest(url), outs[..j + 1]))
    ensures j == 9 ==> ScriptRun(10, url, outs) == (FatalExit, CallsOf(CountRequest(url), outs[..10]))
  {
    CountPhaseAtSuccess(10, url, outs, j);
    assert PageStarts(0) == [];
    assert CallsOf(CountRequest(url), outs[..j + 1]) + [] == CallsOf(CountRequest(url), outs[..j + 1]);
  }

  /** With a budget of 0 or less the count loop never runs, `i` is never bound, and the
      check raises NameError before any request is made. */
  lemma ZeroBudgetCrashes(attempts: int, url: string, outs: seq<Fetch>)
    requires attempts <= 0
    ensures ScriptRun(attempts, url, outs) == (Crashed, [])
  {
  }

  /** An exit always follows exactly ten count requests, the first nine of them failures,
      and no other request. */
  lemma FatalExitMakesOnlyCountRequests(attempts: int, url: string, outs: seq<Fetch>)
    requires ScriptRun(attempts, url, outs).0 == FatalExit
    ensures |ScriptRun(attempts, url, outs).1| == 10
    ensures forall k :: 0 <= k < 10 ==> ScriptRun(attempts, url, outs).1[k].request == CountRequest(url)
    ensures forall k :: 0 <= k < 9 ==> ScriptRun(attempts, url, outs).1[k].outcome == Failure
  {
    CountPhaseResult(attempts, url, outs);
    CountPhaseStopsAtFirstSuccess(attempts, url, outs);
  }

  // ---------------------------------------------------------------------------------
  // What the calls show
  // ---------------------------------------------------------------------------------

  /** What the selector `f` picks out of each call, in call order. */
  function Gather<T>(calls: seq<Call>, f: Call -> seq<T>): seq<T>
    decreases |calls|
  {
    if calls == [] then [] else f(calls[0]) + Gather(calls[1..], f)
  }

  lemma {:induction false} GatherAppend<T>(a: seq<Call>, b: seq<Call>, f: Call -> seq<T>)
    ensures Gather(a + b, f) == Gather(a, f) + Gather(b, f)
    decreases |a|
  {
    if a == [] {
      assert a + b == b;
    } else {
      assert (a + b)[1..] == a[1..] + b;
      GatherAppend(a[1..], b, f);
    }
  }

  /** Calls that pick nothing before a last call: gathering sees only the last. */
  lemma {:induction false} GatherLast<T>(calls: seq<Call>, f: Call -> seq<T>)
    requires |calls| >= 1 && forall k :: 0 <= k < |calls| - 1 ==> f(calls[k]) == []
    ensures Gather(calls, f) == f(calls[|calls| - 1])
    decreases |calls|
  {
    if |calls| == 1 {
      assert f(calls[0]) + [] == f(calls[0]);
    } else {
      GatherLast(calls[1..], f);
    }
  }

  /** A successful listing request: its offset. */
  function PageStart(c: Call): seq<int>
  {
    if c.outcome.Success? && c.request.query.Some? && c.request.query.value.rows == PageSize
    then [c.request.query.value.start] else []
  }

  /** A successful listing request: the items its page lists. */
  function PageListing(c: Call): seq<Json>
  {
    if c.outcome.Success? && c.request.query.Some? && c.request.query.value.rows == PageSize
       && PageItems(c.outcome.body).Some?
    then PageItems(c.outcome.body).value else []
  }

  /** A successful detail request: the detail record it got. */
  function DetailRecord(c: Call): seq<Json>
  {
    if c.outcome.Success? && c.request.query.None? then [c.outcome.body] else []
  }

  /** A successful detail request: the URL it fetched. */
  function DetailUrl(c: Call): seq<string>
  {
    if c.outcome.Success? && c.request.query.None? then [c.request.url] else []
  }

  /** Selectors that only see successful calls ignore the failures before a success. */
  lemma RetryGathersSuccess<T>(req: Request, outs: seq<Fetch>, f: Call -> seq<T>)
    requires Retry(req, outs).Fetched?
    requires forall c: Call :: c.outcome.Failure? ==> f(c) == []
    ensures Gather(Retry(req, outs).calls, f) == f(Call(req, Success(Retry(req, outs).body)))
  {
    var cs := Retry(req, outs).calls;
    forall k | 0 <= k < |cs| - 1
      ensures f(cs[k]) == []
    {
      assert cs[k].outcome == Failure;
    }
    GatherLast(cs, f);
  }

  /** What the selectors see of a retried request followed by later calls: its successful
      call, then the later calls. */
  lemma GatherAfterRetry(req: Request, outs: seq<Fetch>, later: seq<Call>)
    requires Retry(req, outs).Fetched?
    ensures var cs := Retry(req, outs).calls + later; var last := Call(req, Success(Retry(req, outs).body));
      && Gather(cs, PageStart) == PageStart(last) + Gather(later, PageStart)
      && Gather(cs, PageListing) == PageListing(last) + Gather(later, PageListing)
      && Gather(cs, DetailRecord) == DetailRecord(last) + Gather(later, DetailRecord)
      && Gather(cs, DetailUrl) == DetailUrl(last) + Gather(later, DetailUrl)
  {
    var got := Retry(req, outs);
    RetryGathersSuccess(req, outs, PageStart);
    RetryGathersSuccess(req, outs, PageListing);
    RetryGathersSuccess(req, outs, DetailRecord);
    RetryGathersSuccess(req, outs, DetailUrl);
    GatherAppend(got.calls, later, PageStart);
    GatherAppend(got.calls, later, PageListing);
    GatherAppend(got.calls, later, DetailRecord);
    GatherAppend(got.calls, later, DetailUrl);
  }

  lemma HeadTail<T>(s: seq<T>)
    requires s != []
    ensures s == [s[0]] + s[1..]
  {
  }

  /** `out` is `f` applied to `xs` and `ys` position by position; with `BuildRow`, the rows
      built from the items and their detail records. */
  predicate Zipped<A, B, C(==)>(out: seq<C>, xs: seq<A>, ys: seq<B>, f: (A, B) -> C)
  {
    |out| == |xs| == |ys| && forall k :: 0 <= k < |out| ==> out[k] == f(xs[k], ys[k])
  }

  /** The detail URLs are the base URL joined with each item's `mit_id`, in item order. */
  predicate UrlsOf(url: string, urls: seq<string>, items: seq<Json>)
  {
    |urls| == |items| && forall k :: 0 <= k < |items| ==> DetailId(items[k]).Some? && urls[k] == url + "/" + DetailId(items[k]).value
  }

  lemma ZippedAppend<A, B, C>(o1: seq<C>, x1: seq<A>, y1: seq<B>, o2: seq<C>, x2: seq<A>, y2: seq<B>, f: (A, B) -> C)
    requires Zipped(o1, x1, y1, f) && Zipped(o2, x2, y2, f)
    ensures Zipped(o1 + o2, x1 + x2, y1 + y2, f)
  {
  }

  lemma UrlsOfAppend(url: string, u1: seq<string>, i1: seq<Json>, u2: seq<string>, i2: seq<Json>)
    requires UrlsOf(url, u1, i1) && UrlsOf(url, u2, i2)
    ensures UrlsOf(url, u1 + u2, i1 + i2)
  {
  }

  /** A detail request of the loop at `url`: the item's URL below `url/`, without query. */
  predicate UnderDetail(url: string, c: Call)
  {
    c.request.query.None? && url + "/" <= c.request.url
  }

  /** Every call of `calls` is a detail request of the loop at `url`. */
  predicate DetailCalls(url: string, calls: seq<Call>)
  {
    forall k :: 0 <= k < |calls| ==> UnderDetail(url, calls[k])
  }

  /** However it ends, the detail loop issues only detail requests, each below `url/` and
      without parameters. */
  lemma {:induction false} ItemsRunMakesDetailRequests(url: string, items: seq<Json>, outs: seq<Fetch>)
    ensures DetailCalls(url, ItemsRun(url, items, outs).calls)
    decreases |items|
  {
    if items != [] && DetailId(items[0]).Some? {
      var id := DetailId(items[0]).value;
      var req := DetailRequest(url, id);
      var got := Retry(req, outs);
      assert DetailCalls(url, got.calls) by {
        assert url + "/" <= req.url by {
          assert req.url == (url + "/") + id;
        }
      }
      if got.Fetched? {
        var tail := ItemsRun(url, items[1..], got.rest);
        ItemsRunMakesDetailRequests(url, items[1..], got.rest);
        assert ItemsRun(url, items, outs).calls == got.calls + tail.calls;
        DetailCallsAppend(url, got.calls, tail.calls);
      }
    }
  }

  lemma DetailCallsAppend(url: string, a: seq<Call>, b: seq<Call>)
    requires DetailCalls(url, a) && DetailCalls(url, b)
    ensures DetailCalls(url, a + b)
  {
    assert forall k :: 0 <= k < |a + b| ==> (a + b)[k] == if k < |a| then a[k] else b[k - |a|];
  }

  /** The detail loop of a page that runs to its end fetches the detail record of every
      item, in item order, at the URL built from its `mit_id`, and appends one row per
      item, built from the item and its record; it makes no listing request. */
  lemma {:induction false} ItemsRunFollowsItems(url: string, items: seq<Json>, outs: seq<Fetch>)
    ensures var p := ItemsRun(url, items, outs);
      && (forall k :: 0 <= k < |p.calls| ==> p.calls[k].request.query.None?)
      && (p.Done? ==>
        && Gather(p.calls, PageStart) == []
        && Gather(p.calls, PageListing) == []
        && Zipped(p.rows, items, Gather(p.calls, DetailRecord), BuildRow)
        && UrlsOf(url, Gather(p.calls, DetailUrl), items))
    decreases |items|
  {
    var p := ItemsRun(url, items, outs);
    ItemsRunMakesDetailRequests(url, items, outs);
    if items != [] && p.Done? {
      var id := DetailId(items[0]).value;
      var req := DetailRequest(url, id);
      var got := Retry(req, outs);
      var tail := ItemsRun(url, items[1..], got.rest);
      assert tail.Done? && p.rows == [BuildRow(items[0], got.body)] + tail.rows && p.calls == got.calls + tail.calls;
      ItemsRunFollowsItems(url, items[1..], got.rest);
      var last := Call(req, Success(got.body));
      assert Gather(p.calls, PageStart) == [] && Gather(p.calls, PageListing) == [] by {
        GatherAfterRetry(req, outs, tail.calls);
        assert PageStart(last) == [] && PageListing(last) == [];
      }
      assert Zipped(p.rows, items, Gather(p.calls, DetailRecord), BuildRow) by {
        GatherAfterRetry(req, outs, tail.calls);
        assert DetailRecord(last) == [got.body];
        HeadTail(items);
        ZippedAppend([BuildRow(items[0], got.body)], [items[0]], [got.body],
          tail.rows, items[1..], Gather(tail.calls, DetailRecord), BuildRow);
      }
      assert UrlsOf(url, Gather(p.calls, DetailUrl), items) by {
        GatherAfterRetry(req, outs, tail.calls);
        assert DetailUrl(last) == [url + "/" + id];
        HeadTail(items);
        UrlsOfAppend(url, [url + "/" + id], [items[0]], Gather(tail.calls, DetailUrl), items[1..]);
      }
    }
  }

  /** One page that runs to its end: a single successful listing request for its offset,
      then the detail loop over the items that listing returned. */
  lemma PageRunFollowsListing(url: string, start: int, outs: seq<Fetch>)
    ensures var p := PageRun(url, start, outs);
      p.Done? ==>
        && Gather(p.calls, PageStart) == [start]
        && Zipped(p.rows, Gather(p.calls, PageListing), Gather(p.calls, DetailRecord), BuildRow)
        && UrlsOf(url, Gather(p.calls, DetailUrl), Gather(p.calls, PageListing))
  {
    var p := PageRun(url, start, outs);
    if p.Done? {
      var req := PageRequest(url, start);
      var got := Retry(req, outs);
      var items := PageItems(got.body).value;
      var listed := ItemsRun(url, items, got.rest);
      assert listed.Done? && p.rows == listed.rows && p.calls == got.calls + listed.calls by {
        assert [] + listed.rows == listed.rows;
      }
      ItemsRunFollowsItems(url, items, got.rest);
      var last := Call(req, Success(got.body));
      assert PageStart(last) == [start] && PageListing(last) == items;
      assert DetailRecord(last) == [] && DetailUrl(last) == [];
      assert Gather(p.calls, PageStart) == [start] && Gather(p.calls, PageListing) == items by {
        GatherAfterRetry(req, outs, listed.calls);
        assert [start] + [] == [start] && items + [] == items;
      }
      assert Gather(p.calls, DetailRecord) == Gather(listed.calls, DetailRecord) by {
        GatherAfterRetry(req, outs, listed.calls);
      }
      assert Gather(p.calls, DetailUrl) == Gather(listed.calls, DetailUrl) by {
        GatherAfterRetry(req, outs, listed.calls);
      }
    }
  }

  /** A listing that runs to its end requests the pages at `starts`, in that order, each
      once with success, and the table holds exactly one row per listed item, in listing
      order, built from that item and the detail record fetched for it at the URL built
      from its `mit_id`. */
  lemma {:induction false} PagesRunFollowsListing(url: string, starts: seq<int>, outs: seq<Fetch>)
    ensures var p := PagesRun(url, starts, outs);
      p.Done? ==>
        && Gather(p.calls, PageStart) == starts
        && Zipped(p.rows, Gather(p.calls, PageListing), Gather(p.calls, DetailRecord), BuildRow)
        && UrlsOf(url, Gather(p.calls, DetailUrl), Gather(p.calls, PageListing))
    decreases |starts|
  {
    var p := PagesRun(url, starts, outs);
    if starts != [] && p.Done? {
      var first := PageRun(url, starts[0], outs);
      var later := PagesRun(url, starts[1..], first.rest);
      PageRunFollowsListing(url, starts[0], outs);
      PagesRunFollowsListing(url, starts[1..], first.rest);
      assert p == Done(first.rows + later.rows, first.calls + later.calls, later.rest);
      GatherAppend(first.calls, later.calls, PageStart);
      GatherAppend(first.calls, later.calls, PageListing);
      GatherAppend(first.calls, later.calls, DetailRecord);
      GatherAppend(first.calls, later.calls, DetailUrl);
      assert starts == [starts[0]] + starts[1..];
      ZippedAppend(first.rows, Gather(first.calls, PageListing), Gather(first.calls, DetailRecord),
        later.rows, Gather(later.calls, PageListing), Gather(later.calls, DetailRecord), BuildRow);
      UrlsOfAppend(url, Gather(first.calls, DetailUrl), Gather(first.calls, PageListing),
        Gather(later.calls, DetailUrl), Gather(later.calls, PageListing));
    }
  }

  /** Count requests pick out nothing: they are neither listing nor detail requests. */
  lemma CountCallsPickNothing(url: string, calls: seq<Call>)
    requires forall k :: 0 <= k < |calls| ==> calls[k].request == CountRequest(url)
    ensures Gather(calls, PageStart) == [] && Gather(calls, PageListing) == []
    ensures Gather(calls, DetailRecord) == [] && Gather(calls, DetailUrl) == []
    decreases |calls|
  {
    if calls != [] {
      CountCallsPickNothing(url, calls[1..]);
    }
  }

  /** A written table: the pages requested are those at 0, 100, 200, ... below the count,
      in order, and the table holds one row per listed item, in listing order, built from
      the item and the detail record fetched for it. */
  lemma WrittenTableFollowsListing(attempts: int, url: string, outs: seq<Fetch>)
    requires ScriptRun(attempts, url, outs).0.Written?
    ensures var r := CountPhase(attempts, url, outs);
      r.Counted? && AsIndex(r.count).Some? &&
      Gather(ScriptRun(attempts, url, outs).1, PageStart) == PageStarts(AsIndex(r.count).value)
    ensures var (out, calls) := ScriptRun(attempts, url, outs);
      && Zipped(out.rows, Gather(calls, PageListing), Gather(calls, DetailRecord), BuildRow)
      && UrlsOf(url, Gather(calls, DetailUrl), Gather(calls, PageListing))
  {
    var r := CountPhase(attempts, url, outs);
    var n := AsIndex(r.count).value;
    var p := PagesRun(url, PageStarts(n), r.rest);
    PagesRunFollowsListing(url, PageStarts(n), r.rest);
    CountCallsPickNothing(url, r.calls);
    GatherAppend(r.calls, p.calls, PageStart);
    GatherAppend(r.calls, p.calls, PageListing);
    GatherAppend(r.calls, p.calls, DetailRecord);
    GatherAppend(r.calls, p.calls, DetailUrl);
    assert [] + Gather(p.calls, PageStart) == Gather(p.calls, PageStart);
    assert [] + Gather(p.calls, PageListing) == Gather(p.calls, PageListing);
    assert [] + Gather(p.calls, DetailRecord) == Gather(p.calls, DetailRecord);
    assert [] + Gather(p.calls, DetailUrl) == Gather(p.calls, DetailUrl);
  }

  // ---------------------------------------------------------------------------------
  // Retrying
  // ---------------------------------------------------------------------------------

  /** The successes after the first are what a retry that took the first leaves. */
  lemma RetryLeavesLaterSuccesses(req: Request, o1: seq<Fetch>, o2: seq<Fetch>)
    requires Successes(o1) == Successes(o2)
    ensures Retry(req, o1).Fetched? <==> Retry(req, o2).Fetched?
    ensures Retry(req, o1).Fetched? ==>
      Retry(req, o1).body == Retry(req, o2).body && Successes(Retry(req, o1).rest) == Successes(Retry(req, o2).rest)
  {
    RetryTakesFirstSuccess(req, o1);
    RetryTakesFirstSuccess(req, o2);
    var g1, g2 := Retry(req, o1), Retry(req, o2);
    if g1.Fetched? {
      assert Successes(o1)[0] == g1.body && Successes(o2)[0] == g2.body;
      assert Successes(o1)[1..] == Successes(g1.rest) && Successes(o2)[1..] == Successes(g2.rest);
    }
  }

  /** Failed detail requests change nothing but the calls made, wherever they fall: two
      outcome sequences with the same successes in the same order end the detail loop
      the same way, with the same rows, and leave the same successes. */
  lemma {:induction false} DetailFailuresIgnored(url: string, items: seq<Json>, o1: seq<Fetch>, o2: seq<Fetch>)
    requires Successes(o1) == Successes(o2)
    ensures var p, q := ItemsRun(url, items, o1), ItemsRun(url, items, o2);
      Verdict(p) == Verdict(q) && (p.Done? ==> Successes(p.rest) == Successes(q.rest))
    decreases |items|
  {
    if items != [] {
      match DetailId(items[0])
      case None =>
      case Some(id) =>
        var req := DetailRequest(url, id);
        RetryLeavesLaterSuccesses(req, o1, o2);
        if Retry(req, o1).Fetched? {
          DetailFailuresIgnored(url, items[1..], Retry(req, o1).rest, Retry(req, o2).rest);
        }
    }
  }

  /** The same for one page: failed listing or detail requests anywhere do not change how
      the page ends, its rows, or the successes it leaves. */
  lemma PageRunSeesOnlySuccesses(url: string, start: int, o1: seq<Fetch>, o2: seq<Fetch>)
    requires Successes(o1) == Successes(o2)
    ensures var p, q := PageRun(url, start, o1), PageRun(url, start, o2);
      Verdict(p) == Verdict(q) && (p.Done? ==> Successes(p.rest) == Successes(q.rest))
  {
    var req := PageRequest(url, start);
    RetryLeavesLaterSuccesses(req, o1, o2);
    var g1, g2 := Retry(req, o1), Retry(req, o2);
    if g1.Fetched? {
      assert g2.Fetched? && g1.body == g2.body;
      match PageItems(g1.body)
      case None =>
        assert PageRun(url, start, o1) == Crash(g1.calls) && PageRun(url, start, o2) == Crash(g2.calls);
      case Some(items) =>
        DetailFailuresIgnored(url, items, g1.rest, g2.rest);
        assert PageRun(url, start, o1) == Then([], g1.calls, ItemsRun(url, items, g1.rest));
        assert PageRun(url, start, o2) == Then([], g2.calls, ItemsRun(url, items, g2.rest));
    }
  }

  /** Failed listing requests before a success change nothing about one page but the
      calls made: it ends the same way, with the same rows and the same outcomes left. */
  lemma PageFailuresIgnored(url: string, start: int, n: nat, outs: seq<Fetch>)
    ensures var p := PageRun(url, start, outs);
      var q := PageRun(url, start, Failures(n) + outs);
      && (p.Done? <==> q.Done?) && (p.Crash? <==> q.Crash?)
      && (p.Done? ==> p.rows == q.rows && p.rest == q.rest)
  {
    FailuresBeforeRetryIgnored(PageRequest(url, start), n, outs);
  }

  /** Failed listing and detail requests change nothing but the calls made, wherever
      they fall: two outcome sequences with the same successes in the same order end the
      listing the same way and write the same table. */
  lemma {:induction false} ListingFailuresIgnored(url: string, starts: seq<int>, o1: seq<Fetch>, o2: seq<Fetch>)
    requires Successes(o1) == Successes(o2)
    ensures var p, q := PagesRun(url, starts, o1), PagesRun(url, starts, o2);
      Verdict(p) == Verdict(q) && (p.Done? ==> Successes(p.rest) == Successes(q.rest))
    decreases |starts|
  {
    if starts != [] {
      PageRunSeesOnlySuccesses(url, starts[0], o1, o2);
      var first1, first2 := PageRun(url, starts[0], o1), PageRun(url, starts[0], o2);
      if first1.Done? {
        ListingFailuresIgnored(url, starts[1..], first1.rest, first2.rest);
      }
    }
  }

  /** In particular, any number of failures inserted anywhere among the outcomes leave
      the table as it was. */
  lemma InsertedFailuresIgnored(url: string, starts: seq<int>, outs: seq<Fetch>, m: nat, n: nat)
    requires m <= |outs|
    ensures Verdict(PagesRun(url, starts, outs[..m] + Failures(n) + outs[m..])) == Verdict(PagesRun(url, starts, outs))
  {
    FailuresAnywhereIgnored(outs, m, n);
    ListingFailuresIgnored(url, starts, outs[..m] + Failures(n) + outs[m..], outs);
  }
}
