/**
 * The pagination loop against a server that pages by offset, as the FEC
 * API does: page `n` of size `p` holds records `(n-1)*p` up to `n*p` of the
 * full result set, and the page count is that set's size divided by `p`,
 * rounded up. Against such a server, shrinking `per_page` in the middle of
 * a run (opynfec/api_wrapper.py:63-64) changes the page boundaries: the next
 * page number then points at records already fetched.
 *
 * This module states that discrepancy on concrete inputs, and proves that
 * the loop without the shrink returns exactly the first records of the set,
 * cut to result_limit.
 */
module OffsetPaging {
  import opened Values
  import opened Requests
  import opened Paging

  function Min(a: int, b: int): int {
    if a <= b then a else b
  }

  /** The number of pages of size `perPage` that `total` records fill: the
      quotient rounded up. */
  function PageCount(total: nat, perPage: nat): (n: nat)
    requires perPage >= 1
    ensures n * perPage >= total
    ensures n >= 1 ==> (n - 1) * perPage < total
    ensures n <= total
    decreases total
  {
    if total == 0 then 0 else if total <= perPage then 1 else 1 + PageCount(total - perPage, perPage)
  }

  /** The records on page `page` when pages hold `perPage` records. */
  function Window(all: seq<Record>, page: nat, perPage: nat): seq<Record>
    requires page >= 1
  {
    all[Min((page - 1) * perPage, |all|)..Min(page * perPage, |all|)]
  }

  /** A server holding the records `all`: it answers a request that names a
      positive `page` and a positive `per_page` with that page and the page
      count, and rejects any other request. */
  function Answer(all: seq<Record>, q: Request): Reply {
    if && "page" in q.query && q.query["page"].Int? && q.query["page"].i >= 1
       && "per_page" in q.query && q.query["per_page"].Int? && q.query["per_page"].i >= 1
    then Page(Window(all, q.query["page"].i, q.query["per_page"].i), PageCount(|all|, q.query["per_page"].i))
    else Failed
  }

  function OffsetServer(all: seq<Record>): Request -> Reply {
    (q: Request) => Answer(all, q)
  }

  lemma OffsetServerBounded(key: string, all: seq<Record>)
    ensures Bounded(Client(key, OffsetServer(all)), |all|)
  {
  }

  /** What the server answers for one fetch of the loop. */
  lemma OffsetReply(job: Job, all: seq<Record>, params: Params, page: nat, perPage: nat)
    requires job.client.send == OffsetServer(all)
    requires "per_page" in params && params["per_page"] == Int(perPage)
    requires page >= 1 && perPage >= 1
    ensures Send(job, params["page" := Int(page)]) == Page(Window(all, page, perPage), PageCount(|all|, perPage))
  {
    var q := Request(job.path, WithApiKey(params["page" := Int(page)], job.client.apiKey));
    assert q.query["page"] == Int(page);
    assert q.query["per_page"] == Int(perPage);
  }

  /** One pass of the loop as written against the offset server that does
      not reach result_limit: the loop goes on from the page after, with
      the page's records added and `per_page` shrunk as the loop does. */
  lemma OffsetContinues(job: Job, all: seq<Record>, maxPages: nat, c: Cursor, perPage: nat, c': Cursor)
    requires job.client.send == OffsetServer(all) && Bounded(job.client, maxPages) && Resumable(maxPages, c)
    requires c.params["per_page"] == Int(perPage) && perPage >= 1
    requires Within(c.page, c.nPages, job.callLimit)
    requires c'.acc == c.acc + Window(all, c.page, perPage) && !Reached(c'.acc, job.resultLimit)
    requires c'.params == Shrink(c.params["page" := Int(c.page)], perPage, |c'.acc|, job.resultLimit)
    requires c'.page == c.page + 1 && c'.nPages == Some(PageCount(|all|, perPage))
    ensures Resumable(maxPages, c') && Resume(job, maxPages, c).outcome == Resume(job, maxPages, c').outcome
  {
    OffsetReply(job, all, c.params, c.page, perPage);
    var st := Advance(job, c);
    assert st.call.reply == Page(Window(all, c.page, perPage), PageCount(|all|, perPage));
    assert st == Next(st.call, c');
  }

  /** One pass of the loop as written against the offset server that
      reaches result_limit: the loop returns the records cut to it. */
  lemma OffsetStops(job: Job, all: seq<Record>, maxPages: nat, c: Cursor, perPage: nat)
    requires job.client.send == OffsetServer(all) && Bounded(job.client, maxPages) && Resumable(maxPages, c)
    requires c.params["per_page"] == Int(perPage) && perPage >= 1
    requires Within(c.page, c.nPages, job.callLimit)
    requires Reached(c.acc + Window(all, c.page, perPage), job.resultLimit)
    ensures Resume(job, maxPages, c).outcome == Ok((c.acc + Window(all, c.page, perPage))[..job.resultLimit.value])
  {
    OffsetReply(job, all, c.params, c.page, perPage);
  }

  /** A record told apart by its `id`. */
  function R(k: int): Record {
    map["id" := Int(k)]
  }

  function Six(): seq<Record> {
    [R(0), R(1), R(2), R(3), R(4), R(5)]
  }

  function SixJob(key: string, path: string): Job {
    Job(Client(key, OffsetServer(Six())), path, None, Some(5))
  }

  /** The state after page `page` of the run on six records with `per_page` 2
      and result_limit 5. */
  function SixAfter(page: nat): Cursor {
    var p1 := InitialParams(Some(5), map["per_page" := Int(2)]);
    if page == 0 then Cursor([], p1, 1, None)
    else if page == 1 then Cursor([R(0), R(1)], p1["page" := Int(1)], 2, Some(3))
    else Cursor([R(0), R(1), R(2), R(3)], p1["page" := Int(1)]["page" := Int(2)]["per_page" := Int(1)], 3, Some(3))
  }

  lemma SixFirstPage(key: string, path: string)
    ensures Bounded(SixJob(key, path).client, 6) && Resumable(6, SixAfter(1))
    ensures Resume(SixJob(key, path), 6, SixAfter(0)).outcome == Resume(SixJob(key, path), 6, SixAfter(1)).outcome
  {
    OffsetServerBounded(key, Six());
    assert SixAfter(0).params["per_page"] == Int(2);
    assert PageCount(6, 2) == 3;
    assert Window(Six(), 1, 2) == Six()[0..2];
    OffsetContinues(SixJob(key, path), Six(), 6, SixAfter(0), 2, SixAfter(1));
  }

  lemma SixSecondPage(key: string, path: string)
    ensures Bounded(SixJob(key, path).client, 6) && Resumable(6, SixAfter(1)) && Resumable(6, SixAfter(2))
    ensures Resume(SixJob(key, path), 6, SixAfter(1)).outcome == Resume(SixJob(key, path), 6, SixAfter(2)).outcome
  {
    OffsetServerBounded(key, Six());
    assert SixAfter(1).params["per_page"] == Int(2);
    assert PageCount(6, 2) == 3;
    assert Window(Six(), 2, 2) == Six()[2..4];
    OffsetContinues(SixJob(key, path), Six(), 6, SixAfter(1), 2, SixAfter(2));
  }

  lemma SixThirdPage(key: string, path: string)
    ensures Bounded(SixJob(key, path).client, 6) && Resumable(6, SixAfter(2))
    ensures Resume(SixJob(key, path), 6, SixAfter(2)).outcome == Ok([R(0), R(1), R(2), R(3), R(2)])
  {
    OffsetServerBounded(key, Six());
    assert SixAfter(2).params["per_page"] == Int(1);
    assert Window(Six(), 3, 1) == Six()[2..3];
    var acc := SixAfter(2).acc + Window(Six(), 3, 1);
    assert acc == [R(0), R(1), R(2), R(3), R(2)];
    OffsetStops(SixJob(key, path), Six(), 6, SixAfter(2), 1);
    assert acc[..5] == acc;
  }

  /** Six records, `per_page` 2 and result_limit 5: pages 1 and 2 bring
      records 0-3, `per_page` then shrinks to 1, and page 3 of size 1 is
      record 2 again. The loop returns records 0, 1, 2, 3, 2 where the first
      five records are 0 to 4. */
  lemma ShrinkRepeatsRecords(key: string, path: string)
    ensures var all := [R(0), R(1), R(2), R(3), R(4), R(5)];
      var job := Job(Client(key, OffsetServer(all)), path, None, Some(5));
      && Bounded(job.client, |all|)
      && Unpaginated(job, map["per_page" := Int(2)], |all|).outcome == Ok([R(0), R(1), R(2), R(3), R(2)])
      && all[..5] == [R(0), R(1), R(2), R(3), R(4)]
  {
    SixFirstPage(key, path);
    SixSecondPage(key, path);
    SixThirdPage(key, path);
    assert Start(SixJob(key, path), map["per_page" := Int(2)]) == SixAfter(0);
  }

  /** The state after page `page` of the run with the default `per_page`
      and result_limit 150. */
  function DefaultAfter(all: seq<Record>, page: nat): Cursor
    requires |all| >= 100
  {
    var p1 := InitialParams(Some(150), map[]);
    if page == 0 then Cursor([], p1, 1, None)
    else Cursor(all[..100], p1["page" := Int(1)]["per_page" := Int(50)], 2, Some(PageCount(|all|, 100)))
  }

  lemma DefaultFirstPage(key: string, path: string, all: seq<Record>)
    requires |all| >= 150
    ensures var job := Job(Client(key, OffsetServer(all)), path, None, Some(150));
      && Bounded(job.client, |all|) && Resumable(|all|, DefaultAfter(all, 1))
      && Resume(job, |all|, DefaultAfter(all, 0)).outcome == Resume(job, |all|, DefaultAfter(all, 1)).outcome
  {
    var job := Job(Client(key, OffsetServer(all)), path, None, Some(150));
    OffsetServerBounded(key, all);
    assert DefaultAfter(all, 0).params["per_page"] == Int(100);
    assert DefaultAfter(all, 1).acc == DefaultAfter(all, 0).acc + Window(all, 1, 100);
    assert PageCount(|all|, 100) >= 2;
    OffsetContinues(job, all, |all|, DefaultAfter(all, 0), 100, DefaultAfter(all, 1));
  }

  lemma DefaultSecondPage(key: string, path: string, all: seq<Record>)
    requires |all| >= 150
    ensures var job := Job(Client(key, OffsetServer(all)), path, None, Some(150));
      && Bounded(job.client, |all|) && Resumable(|all|, DefaultAfter(all, 1))
      && Resume(job, |all|, DefaultAfter(all, 1)).outcome == Ok(all[..100] + all[50..100])
  {
    var job := Job(Client(key, OffsetServer(all)), path, None, Some(150));
    OffsetServerBounded(key, all);
    var c2 := DefaultAfter(all, 1);
    assert PageCount(|all|, 100) >= 2;
    var acc := all[..100] + all[50..100];
    assert acc == c2.acc + Window(all, 2, 50);
    assert c2.params["per_page"] == Int(50);
    OffsetStops(job, all, |all|, c2, 50);
    assert acc[..150] == acc;
  }

  /** The same happens with the default `per_page`: with result_limit 150,
      page 1 brings records 0-99, `per_page` shrinks to 50, and page 2 of
      size 50 is records 50-99 again. */
  lemma DefaultShrinkRepeats(key: string, path: string, all: seq<Record>)
    requires |all| >= 150
    ensures var job := Job(Client(key, OffsetServer(all)), path, None, Some(150));
      Unpaginated(job, map[], |all|).outcome == Ok(all[..100] + all[50..100])
  {
    var job := Job(Client(key, OffsetServer(all)), path, None, Some(150));
    DefaultFirstPage(key, path, all);
    DefaultSecondPage(key, path, all);
    assert Start(job, map[]) == DefaultAfter(all, 0);
  }

  // ---------------------------------------------------------------------
  // The loop without the shrink

  /** One pass of the loop body without opynfec/api_wrapper.py:63-64:
      `per_page` is left as it is. */
  function AdvanceFixed(job: Job, c: Cursor): (r: Step)
    ensures r.call.params == c.params["page" := Int(c.page)]
    ensures r.call.reply == Send(job, r.call.params)
    ensures r.Next? <==> r.call.reply.Page? && !Reached(c.acc + r.call.reply.results, job.resultLimit)
    ensures r.Next? ==>
      r.cursor == Cursor(c.acc + r.call.reply.results, r.call.params, c.page + 1, Some(r.call.reply.pages))
    ensures r.Halt? && r.call.reply.Failed? ==> r.outcome == Err(TransportError)
    ensures r.Halt? && r.call.reply.Page? ==>
      r.outcome == Ok((c.acc + r.call.reply.results)[..job.resultLimit.value])
  {
    var params := c.params["page" := Int(c.page)];
    var reply := Send(job, params);
    var call := Call(params, reply);
    match reply
    case Failed => Halt(call, Err(TransportError))
    case Page(results, pages) =>
      var acc := c.acc + results;
      if Reached(acc, job.resultLimit) then Halt(call, Ok(acc[..job.resultLimit.value]))
      else Next(call, Cursor(acc, params, c.page + 1, Some(pages)))
  }

  ghost function ResumeFixed(job: Job, maxPages: nat, c: Cursor): Session
    requires Bounded(job.client, maxPages) && Resumable(maxPages, c)
    decreases maxPages + 2 - c.page
  {
    if !Within(c.page, c.nPages, job.callLimit) then Session([], Ok(c.acc))
    else
      match AdvanceFixed(job, c)
      case Halt(call, outcome) => Session([call], outcome)
      case Next(call, c') =>
        var rest := ResumeFixed(job, maxPages, c');
        Session([call] + rest.calls, rest.outcome)
  }

  ghost function UnpaginatedFixed(job: Job, kwargs: Params, maxPages: nat): Session
    requires Bounded(job.client, maxPages)
  {
    ResumeFixed(job, maxPages, Start(job, kwargs))
  }

  /** How many of the records the first pages hold, with call_limit pages
      at most. */
  function Reach(total: nat, perPage: nat, callLimit: Option<nat>): nat {
    if callLimit.Some? then Min(total, callLimit.value * perPage) else total
  }

  lemma MulMonotone(a: nat, b: nat, p: nat)
    requires a <= b
    ensures a * p <= b * p
  {
    assert b * p == a * p + (b - a) * p;
  }

  lemma WindowExtends(all: seq<Record>, page: nat, perPage: nat)
    requires page >= 1
    ensures all[..Min((page - 1) * perPage, |all|)] + Window(all, page, perPage) == all[..Min(page * perPage, |all|)]
  {
    assert (page - 1) * perPage <= page * perPage;
  }

  /** When the loop stops without reaching result_limit, it has collected
      exactly the records the first pages hold. */
  lemma StopReach(total: nat, callLimit: Option<nat>, perPage: nat, page: nat, nPages: Option<nat>)
    requires perPage >= 1 && page >= 1
    requires !Within(page, nPages, callLimit)
    requires nPages.None? ==> page == 1
    requires nPages.Some? ==> nPages.value == PageCount(total, perPage)
    requires callLimit.Some? ==> page - 1 <= callLimit.value
    ensures Min((page - 1) * perPage, total) == Reach(total, perPage, callLimit)
  {
    if callLimit.Some? && page > callLimit.value {
      assert page - 1 == callLimit.value;
    } else {
      var pages := nPages.value;
      MulMonotone(pages, page - 1, perPage);
      if callLimit.Some? {
        MulMonotone(pages, callLimit.value, perPage);
      }
    }
  }

  /** A page the loop may still fetch lies within what the first pages hold. */
  lemma FetchReach(total: nat, callLimit: Option<nat>, perPage: nat, page: nat)
    requires callLimit.Some? ==> page <= callLimit.value
    ensures Min(page * perPage, total) <= Reach(total, perPage, callLimit)
  {
    if callLimit.Some? {
      MulMonotone(page, callLimit.value, perPage);
    }
  }

  /** Cutting a longer prefix to result_limit gives the same records, once
      the shorter one reaches it. */
  lemma TruncateLonger(all: seq<Record>, m: nat, n: nat, resultLimit: Option<nat>)
    requires m <= n <= |all|
    requires Reached(all[..m], resultLimit)
    ensures all[..m][..resultLimit.value] == Truncate(all[..n], resultLimit)
  {
  }

  /** One fetch of the loop without the shrink from a state that holds the
      records of the pages before it. */
  lemma FixedStep(job: Job, all: seq<Record>, perPage: nat, c: Cursor)
    requires job.client.send == OffsetServer(all)
    requires perPage >= 1 && c.page >= 1
    requires "per_page" in c.params && c.params["per_page"] == Int(perPage)
    requires c.acc == all[..Min((c.page - 1) * perPage, |all|)]
    ensures var st := AdvanceFixed(job, c);
      && st.call.reply == Page(Window(all, c.page, perPage), PageCount(|all|, perPage))
      && c.acc + st.call.reply.results == all[..Min(c.page * perPage, |all|)]
      && (st.Next? ==>
            && st.cursor.params["per_page"] == Int(perPage)
            && st.cursor.acc == all[..Min((st.cursor.page - 1) * perPage, |all|)]
            && st.cursor.nPages == Some(PageCount(|all|, perPage)))
  {
    OffsetReply(job, all, c.params, c.page, perPage);
    WindowExtends(all, c.page, perPage);
  }

  /** The state a fetch that does not reach result_limit leads to again
      holds the records of the pages before it. */
  lemma FixedNext(job: Job, all: seq<Record>, perPage: nat, c: Cursor)
    requires job.client.send == OffsetServer(all) && Bounded(job.client, |all|)
    requires perPage >= 1
    requires Resumable(|all|, c) && c.params["per_page"] == Int(perPage)
    requires c.acc == all[..Min((c.page - 1) * perPage, |all|)]
    requires c.nPages.Some? ==> c.nPages.value == PageCount(|all|, perPage)
    requires job.callLimit.Some? ==> c.page - 1 <= job.callLimit.value
    requires Within(c.page, c.nPages, job.callLimit) && AdvanceFixed(job, c).Next?
    ensures var c' := AdvanceFixed(job, c).cursor;
      && Resumable(|all|, c') && c'.params["per_page"] == Int(perPage)
      && c'.acc == all[..Min((c'.page - 1) * perPage, |all|)]
      && c'.nPages == Some(PageCount(|all|, perPage))
      && (job.callLimit.Some? ==> c'.page - 1 <= job.callLimit.value)
      && !Reached(c'.acc, job.resultLimit)
      && ResumeFixed(job, |all|, c).outcome == ResumeFixed(job, |all|, c').outcome
  {
    FixedStep(job, all, perPage, c);
  }

  /** A fetch that reaches result_limit ends the run with the first records
      cut to it. */
  lemma FixedHalt(job: Job, all: seq<Record>, perPage: nat, c: Cursor)
    requires job.client.send == OffsetServer(all) && Bounded(job.client, |all|)
    requires perPage >= 1
    requires Resumable(|all|, c) && c.params["per_page"] == Int(perPage)
    requires c.acc == all[..Min((c.page - 1) * perPage, |all|)]
    requires job.callLimit.Some? ==> c.page - 1 <= job.callLimit.value
    requires Within(c.page, c.nPages, job.callLimit) && AdvanceFixed(job, c).Halt?
    ensures ResumeFixed(job, |all|, c).outcome
         == Ok(Truncate(all[..Reach(|all|, perPage, job.callLimit)], job.resultLimit))
  {
    var st := AdvanceFixed(job, c);
    var m := Min(c.page * perPage, |all|);
    assert Reached(all[..m], job.resultLimit) && st.outcome == Ok(all[..m][..job.resultLimit.value]) by {
      FixedStep(job, all, perPage, c);
    }
    var n := Reach(|all|, perPage, job.callLimit);
    assert m <= n <= |all| by {
      FetchReach(|all|, job.callLimit, perPage, c.page);
    }
    TruncateLonger(all, m, n, job.resultLimit);
    FixedHalts(job, |all|, c);
  }

  lemma FixedHalts(job: Job, maxPages: nat, c: Cursor)
    requires Bounded(job.client, maxPages) && Resumable(maxPages, c)
    requires Within(c.page, c.nPages, job.callLimit) && AdvanceFixed(job, c).Halt?
    ensures ResumeFixed(job, maxPages, c).outcome == AdvanceFixed(job, c).outcome
  {
  }

  lemma {:induction false} ResumeFixedOffset(key: string, path: string, all: seq<Record>, callLimit: Option<nat>,
                                             resultLimit: Option<nat>, perPage: nat, c: Cursor)
    requires perPage >= 1
    requires Resumable(|all|, c) && c.params["per_page"] == Int(perPage)
    requires c.acc == all[..Min((c.page - 1) * perPage, |all|)]
    requires c.nPages.Some? ==> c.nPages.value == PageCount(|all|, perPage)
    requires callLimit.Some? ==> c.page - 1 <= callLimit.value
    requires c.acc == [] || !Reached(c.acc, resultLimit)
    requires Bounded(Client(key, OffsetServer(all)), |all|)
    ensures var job := Job(Client(key, OffsetServer(all)), path, callLimit, resultLimit);
      ResumeFixed(job, |all|, c).outcome == Ok(Truncate(all[..Reach(|all|, perPage, callLimit)], resultLimit))
    decreases |all| + 2 - c.page
  {
    var job := Job(Client(key, OffsetServer(all)), path, callLimit, resultLimit);
    if Within(c.page, c.nPages, callLimit) {
      if AdvanceFixed(job, c).Next? {
        FixedNext(job, all, perPage, c);
        ResumeFixedOffset(key, path, all, callLimit, resultLimit, perPage, AdvanceFixed(job, c).cursor);
      } else {
        FixedHalt(job, all, perPage, c);
      }
    } else {
      StopReach(|all|, callLimit, perPage, c.page, c.nPages);
    }
  }

  /** Without the shrink, against a server that pages by offset and with a
      positive `per_page`, a run returns exactly the first records of the
      set: all of them, or as many as call_limit pages hold, cut to
      result_limit. */
  lemma FixedReturnsFirstRecords(key: string, path: string, all: seq<Record>, callLimit: Option<nat>,
                                 resultLimit: Option<nat>, kwargs: Params, perPage: nat)
    requires perPage >= 1 && InitialParams(resultLimit, kwargs)["per_page"] == Int(perPage)
    ensures var job := Job(Client(key, OffsetServer(all)), path, callLimit, resultLimit);
      && Bounded(job.client, |all|)
      && UnpaginatedFixed(job, kwargs, |all|).outcome == Ok(Truncate(all[..Reach(|all|, perPage, callLimit)], resultLimit))
  {
    var job := Job(Client(key, OffsetServer(all)), path, callLimit, resultLimit);
    OffsetServerBounded(key, all);
    var c := Start(job, kwargs);
    assert c.acc == all[..Min((c.page - 1) * perPage, |all|)];
    ResumeFixedOffset(key, path, all, callLimit, resultLimit, perPage, c);
  }

  /** On the six records of `ShrinkRepeatsRecords`, the loop without the
      shrink returns records 0 to 4. */
  lemma FixedOnSixRecords(key: string, path: string)
    ensures var all := [R(0), R(1), R(2), R(3), R(4), R(5)];
      var job := Job(Client(key, OffsetServer(all)), path, None, Some(5));
      && Bounded(job.client, |all|)
      && UnpaginatedFixed(job, map["per_page" := Int(2)], |all|).outcome == Ok([R(0), R(1), R(2), R(3), R(4)])
  {
    var all := [R(0), R(1), R(2), R(3), R(4), R(5)];
    FixedReturnsFirstRecords(key, path, all, None, Some(5), map["per_page" := Int(2)], 2);
    assert all[..6][..5] == [R(0), R(1), R(2), R(3), R(4)];
  }
}
