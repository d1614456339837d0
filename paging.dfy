/**
 * `OpynFEC._get_unpaginated_request` (opynfec/api_wrapper.py): the loop that
 * fetches page 1, 2, ... of an endpoint and concatenates their `results`,
 * stopping at the page count reported by the latest response, at
 * `call_limit` fetches, or once `result_limit` records are collected, and
 * shrinking `per_page` so that the next page does not overshoot the limit.
 *
 * The network is an oracle: a client is its API key and a total function
 * from a request to a reply. `math.inf` is `None`. Since the page count is
 * re-read from every reply, the loop terminates only if the server never
 * reports more than some number of pages; that bound is a ghost parameter.
 *
 * `Resume` is the loop written as a recursive specification that also
 * records every fetch it makes; `GetUnpaginated` is the loop itself and is
 * proved to return what `Unpaginated` says. The lemmas state what the loop
 * guarantees about the fetches and the result.
 */
module Paging {
  import opened Values
  import opened Requests

  /** One result record: a decoded JSON object. */
  type Record = map<string, Value>

  /** A decoded response: its `results` and its `pagination.pages`; or a
      failed round trip. */
  datatype Reply = Page(results: seq<Record>, pages: nat) | Failed

  datatype Client = Client(apiKey: string, send: Request -> Reply)

  /** One call of `_get_unpaginated_request`, less its keyword arguments.
      `path` is the URL path `_get_request` builds from the endpoint. */
  datatype Job = Job(client: Client, path: string, callLimit: Option<nat>, resultLimit: Option<nat>)

  function JobFor(client: Client, endpoint: string, callLimit: Option<nat>, resultLimit: Option<nat>): Job {
    Job(client, Path(endpoint), callLimit, resultLimit)
  }

  /** One fetch: the parameters `use_kwargs` held when it was made, and the reply. */
  datatype Call = Call(params: Params, reply: Reply)

  /** Every fetch of one run, in order, and what the run returns or raises. */
  datatype Session = Session(calls: seq<Call>, outcome: Result<seq<Record>, Error>)

  /** The loop's variables: `all_results`, `use_kwargs`, `page`, `n_pages`. */
  datatype Cursor = Cursor(acc: seq<Record>, params: Params, page: nat, nPages: Option<nat>)

  /** The server never reports more than `maxPages` pages. */
  ghost predicate Bounded(client: Client, maxPages: nat) {
    forall q :: client.send(q).Page? ==> client.send(q).pages <= maxPages
  }

  /** The loop condition `page <= min(n_pages, call_limit)`, with `None` for `math.inf`. */
  predicate Within(page: nat, nPages: Option<nat>, callLimit: Option<nat>) {
    (nPages.None? || page <= nPages.value) && (callLimit.None? || page <= callLimit.value)
  }

  /** `min(100, result_limit)`. */
  function DefaultPerPage(resultLimit: Option<nat>): (n: nat)
    ensures n <= 100
    ensures resultLimit.Some? ==> n <= resultLimit.value
    ensures n == 100 || (resultLimit.Some? && n == resultLimit.value)
  {
    if resultLimit.Some? && resultLimit.value < 100 then resultLimit.value else 100
  }

  /** `use_kwargs = {"per_page": min(100, result_limit)}; use_kwargs.update(kwargs)` */
  function InitialParams(resultLimit: Option<nat>, kwargs: Params): Params {
    map["per_page" := Int(DefaultPerPage(resultLimit))] + kwargs
  }

  /** `self._get_request(endpoint=endpoint, **use_kwargs)` */
  function Send(job: Job, params: Params): Reply {
    job.client.send(Request(job.path, WithApiKey(params, job.client.apiKey)))
  }

  /** Each fetch is exactly the request `_get_request` sends for the job's
      endpoint. */
  lemma SendIsGetRequest(client: Client, endpoint: string, callLimit: Option<nat>, resultLimit: Option<nat>, params: Params)
    ensures Send(JobFor(client, endpoint, callLimit, resultLimit), params) == client.send(MakeRequest(client.apiKey, endpoint, params))
  {
  }

  /** `len(all_results) >= result_limit` */
  predicate Reached(acc: seq<Record>, resultLimit: Option<nat>) {
    resultLimit.Some? && |acc| >= resultLimit.value
  }

  /** `all_results[:result_limit]` when the limit is reached; the loop breaks then. */
  function Truncate(s: seq<Record>, resultLimit: Option<nat>): (r: seq<Record>)
    ensures r <= s
    ensures resultLimit.Some? ==> |r| <= resultLimit.value
    ensures Reached(s, resultLimit) <==> resultLimit.Some? && |r| == resultLimit.value && |s| >= |r|
    ensures !Reached(s, resultLimit) ==> r == s
  {
    if Reached(s, resultLimit) then s[..resultLimit.value] else s
  }

  /** The `per_page` a fetch was made with, as a number, if it is one. */
  function PerPage(call: Call): Option<int> {
    if "per_page" in call.params then Numeric(call.params["per_page"]) else None
  }

  /** The records one fetch contributed. */
  function Got(call: Call): seq<Record> {
    if call.reply.Page? then call.reply.results else []
  }

  /** The concatenation, in order, of the `results` of every successful fetch. */
  function Fetched(calls: seq<Call>): seq<Record> {
    if calls == [] then [] else Got(calls[0]) + Fetched(calls[1..])
  }

  /** The page count reported by the latest fetch, if it succeeded. */
  function LastPages(calls: seq<Call>): Option<nat> {
    if calls != [] && calls[|calls| - 1].reply.Page? then Some(calls[|calls| - 1].reply.pages) else None
  }

  /** Parameters other than the two the loop manages. */
  function Forwarded(params: Params): Params {
    params - {"page", "per_page"}
  }

  predicate Resumable(maxPages: nat, c: Cursor) {
    && 1 <= c.page <= maxPages + 2
    && (c.nPages.None? ==> c.page == 1)
    && (c.nPages.Some? ==> c.nPages.value <= maxPages)
    && "per_page" in c.params
  }

  /** What one pass of the loop body does: the fetch it makes, and either
      how the run ends there or the state the next pass starts from. */
  datatype Step = Halt(call: Call, outcome: Result<seq<Record>, Error>) | Next(call: Call, cursor: Cursor)

  /** `per_page` for the next fetch (opynfec/api_wrapper.py:63-64): shrunk to
      what is still missing when it would reach result_limit. */
  function Shrink(params: Params, perPage: int, collected: nat, resultLimit: Option<nat>): Params {
    if resultLimit.Some? && collected + perPage >= resultLimit.value
    then params["per_page" := Int(resultLimit.value - collected)]
    else params
  }

  /** One pass of the loop body (opynfec/api_wrapper.py:56-65). */
  function Advance(job: Job, c: Cursor): (r: Step)
    requires "per_page" in c.params
    ensures r.call.params == c.params["page" := Int(c.page)]
    ensures r.call.reply == Send(job, r.call.params)
    ensures r.Next? ==> r.call.reply.Page? && r.cursor.page == c.page + 1 && r.cursor.nPages == Some(r.call.reply.pages)
    ensures r.Next? ==> "per_page" in r.cursor.params
    ensures r.Next? ==> r.cursor.acc == c.acc + r.call.reply.results && !Reached(r.cursor.acc, job.resultLimit)
    ensures r.Halt? && r.outcome.Ok? ==>
      r.call.reply.Page? && r.outcome.value == Truncate(c.acc + r.call.reply.results, job.resultLimit)
    ensures r.Halt? && r.outcome.Ok? ==> Reached(r.outcome.value, job.resultLimit)
  {
    var params := c.params["page" := Int(c.page)];
    var reply := Send(job, params);
    var call := Call(params, reply);
    match reply
    case Failed => Halt(call, Err(TransportError))
    case Page(results, pages) =>
      var acc := c.acc + results;
      if Reached(acc, job.resultLimit) then Halt(call, Ok(acc[..job.resultLimit.value]))
      else
        var perPage := Numeric(params["per_page"]);
        if perPage.None? then Halt(call, Err(TypeError))
        else Next(call, Cursor(acc, Shrink(params, perPage.value, |acc|, job.resultLimit), c.page + 1, Some(pages)))
  }

  /** The loop from state `c` on (opynfec/api_wrapper.py:55-67). */
  ghost function Resume(job: Job, maxPages: nat, c: Cursor): (s: Session)
    requires Bounded(job.client, maxPages) && Resumable(maxPages, c)
    decreases maxPages + 2 - c.page
  {
    if !Within(c.page, c.nPages, job.callLimit) then Session([], Ok(c.acc))
    else
      match Advance(job, c)
      case Halt(call, outcome) => Session([call], outcome)
      case Next(call, c') =>
        var rest := Resume(job, maxPages, c');
        Session([call] + rest.calls, rest.outcome)
  }

  function Start(job: Job, kwargs: Params): Cursor {
    Cursor([], InitialParams(job.resultLimit, kwargs), 1, None)
  }

  /** A whole run of `_get_unpaginated_request(endpoint, call_limit, result_limit, **kwargs)`. */
  ghost function Unpaginated(job: Job, kwargs: Params, maxPages: nat): Session
    requires Bounded(job.client, maxPages)
  {
    Resume(job, maxPages, Start(job, kwargs))
  }

  /** The loop as written: returns the records, or the error that aborts it. */
  method GetUnpaginated(job: Job, kwargs: Params, ghost maxPages: nat) returns (r: Result<seq<Record>, Error>)
    requires Bounded(job.client, maxPages)
    ensures r == Unpaginated(job, kwargs, maxPages).outcome
  {
    var params := InitialParams(job.resultLimit, kwargs);
    var acc: seq<Record> := [];
    var nPages: Option<nat> := None;
    var page: nat := 1;
    while Within(page, nPages, job.callLimit)
      invariant Resumable(maxPages, Cursor(acc, params, page, nPages))
      invariant Resume(job, maxPages, Cursor(acc, params, page, nPages)).outcome
             == Unpaginated(job, kwargs, maxPages).outcome
      decreases maxPages + 2 - page
    {
      ghost var before := Cursor(acc, params, page, nPages);
      params := params["page" := Int(page)];
      var reply := Send(job, params);
      if reply.Failed? {
        return Err(TransportError);
      }
      acc := acc + reply.results;
      nPages := Some(reply.pages);
      if Reached(acc, job.resultLimit) {
        return Ok(acc[..job.resultLimit.value]);
      }
      var perPage := Numeric(params["per_page"]);
      if perPage.None? {
        return Err(TypeError);
      }
      if job.resultLimit.Some? && |acc| + perPage.value >= job.resultLimit.value {
        params := params["per_page" := Int(job.resultLimit.value - |acc|)];
      }
      page := page + 1;
      assert Advance(job, before) == Next(Call(before.params["page" := Int(before.page)], reply), Cursor(acc, params, page, nPages));
    }
    return Ok(acc);
  }

  // ---------------------------------------------------------------------
  // Which pages are fetched

  /** Whether the loop fetches at all from state `c`, and what it returns
      when it does not. */
  lemma ResumeEmpty(job: Job, maxPages: nat, c: Cursor)
    requires Bounded(job.client, maxPages) && Resumable(maxPages, c)
    ensures var s := Resume(job, maxPages, c);
      && (s.calls != [] <==> Within(c.page, c.nPages, job.callLimit))
      && (s.calls == [] ==> s.outcome == Ok(c.acc))
  {
  }

  /** Fetch `i` asked for page `first + i`. */
  predicate Numbered(first: nat, calls: seq<Call>) {
    forall i :: 0 <= i < |calls| ==> "page" in calls[i].params && calls[i].params["page"] == Int(first + i)
  }

  /** `Numbered`, one fetch at a time. */
  predicate NumberedFrom(first: nat, calls: seq<Call>)
    decreases |calls|
  {
    calls == [] ||
    ("page" in calls[0].params && calls[0].params["page"] == Int(first) && NumberedFrom(first + 1, calls[1..]))
  }

  lemma {:induction false} NumberedFromAll(first: nat, calls: seq<Call>)
    requires NumberedFrom(first, calls)
    ensures Numbered(first, calls)
    decreases |calls|
  {
    if calls != [] {
      NumberedFromAll(first + 1, calls[1..]);
      forall i | 0 <= i < |calls|
        ensures "page" in calls[i].params && calls[i].params["page"] == Int(first + i)
      {
        if i > 0 {
          assert calls[i] == calls[1..][i - 1];
        }
      }
    }
  }

  lemma {:induction false} ResumeNumbering(job: Job, maxPages: nat, c: Cursor)
    requires Bounded(job.client, maxPages) && Resumable(maxPages, c)
    ensures NumberedFrom(c.page, Resume(job, maxPages, c).calls)
    decreases maxPages + 2 - c.page
  {
    if Within(c.page, c.nPages, job.callLimit) {
      var st := Advance(job, c);
      var rest := if st.Next? then Resume(job, maxPages, st.cursor).calls else [];
      if st.Next? {
        ResumeNumbering(job, maxPages, st.cursor);
      }
      assert ([st.call] + rest)[1..] == rest;
      assert Resume(job, maxPages, c).calls == [st.call] + rest;
    }
  }

  lemma {:induction false} ResumeCallLimit(job: Job, maxPages: nat, c: Cursor)
    requires Bounded(job.client, maxPages) && Resumable(maxPages, c)
    ensures var s := Resume(job, maxPages, c);
      s.calls != [] && job.callLimit.Some? ==> c.page + |s.calls| <= job.callLimit.value + 1
    decreases maxPages + 2 - c.page
  {
    if Within(c.page, c.nPages, job.callLimit) {
      var st := Advance(job, c);
      if st.Next? {
        ResumeCallLimit(job, maxPages, st.cursor);
        ResumeEmpty(job, maxPages, st.cursor);
      }
    }
  }

  /** Pages are requested as 1, 2, ..., k in that order, each once, with
      k <= call_limit; at least one page is fetched unless call_limit is 0,
      in which case nothing is fetched and the result is empty. */
  lemma PagesInOrder(job: Job, kwargs: Params, maxPages: nat)
    requires Bounded(job.client, maxPages)
    ensures var s := Unpaginated(job, kwargs, maxPages);
      && Numbered(1, s.calls)
      && (job.callLimit.Some? ==> |s.calls| <= job.callLimit.value)
      && (s.calls != [] <==> job.callLimit != Some(0))
      && (job.callLimit == Some(0) ==> s.outcome == Ok([]))
  {
    ResumeEmpty(job, maxPages, Start(job, kwargs));
    ResumeNumbering(job, maxPages, Start(job, kwargs));
    NumberedFromAll(1, Unpaginated(job, kwargs, maxPages).calls);
    ResumeCallLimit(job, maxPages, Start(job, kwargs));
  }

  // ---------------------------------------------------------------------
  // What is returned

  lemma FetchedCons(call: Call, calls: seq<Call>)
    ensures Fetched([call] + calls) == Got(call) + Fetched(calls)
  {
    assert ([call] + calls)[1..] == calls;
  }

  /** Every fetch got a page of results. */
  predicate AllSucceeded(calls: seq<Call>) {
    forall i :: 0 <= i < |calls| ==> calls[i].reply.Page?
  }

  lemma AllSucceededCons(call: Call, calls: seq<Call>)
    requires call.reply.Page? && AllSucceeded(calls)
    ensures AllSucceeded([call] + calls)
  {
    forall i | 0 <= i < |[call] + calls|
      ensures ([call] + calls)[i].reply.Page?
    {
      if i > 0 {
        assert ([call] + calls)[i] == calls[i - 1];
      }
    }
  }

  lemma Associative(a: seq<Record>, b: seq<Record>, c: seq<Record>)
    ensures a + (b + c) == (a + b) + c
  {
  }

  lemma {:induction false} ResumeAllPages(job: Job, maxPages: nat, c: Cursor)
    requires Bounded(job.client, maxPages) && Resumable(maxPages, c)
    ensures var s := Resume(job, maxPages, c);
      s.outcome.Ok? ==> AllSucceeded(s.calls)
    decreases maxPages + 2 - c.page
  {
    if Within(c.page, c.nPages, job.callLimit) {
      var st := Advance(job, c);
      if st.Next? {
        ResumeAllPages(job, maxPages, st.cursor);
        var rest := Resume(job, maxPages, st.cursor);
        if rest.outcome.Ok? {
          AllSucceededCons(st.call, rest.calls);
        }
      }
    }
  }

  lemma {:induction false} ResumeResult(job: Job, maxPages: nat, c: Cursor)
    requires Bounded(job.client, maxPages) && Resumable(maxPages, c)
    requires job.resultLimit.Some? ==> |c.acc| <= job.resultLimit.value
    ensures var s := Resume(job, maxPages, c);
      s.outcome.Ok? ==> s.outcome.value == Truncate(c.acc + Fetched(s.calls), job.resultLimit)
    decreases maxPages + 2 - c.page
  {
    if Within(c.page, c.nPages, job.callLimit) {
      var st := Advance(job, c);
      if st.Next? {
        ResumeResult(job, maxPages, st.cursor);
        var rest := Resume(job, maxPages, st.cursor);
        FetchedCons(st.call, rest.calls);
        Associative(c.acc, st.call.reply.results, Fetched(rest.calls));
      } else {
        FetchedCons(st.call, []);
      }
    } else {
      assert !Reached(c.acc, job.resultLimit) || c.acc[..job.resultLimit.value] == c.acc;
    }
  }

  /** A successful run returns a prefix of the in-order concatenation of the
      fetched pages' results, cut to result_limit: nothing is reordered,
      repeated or dropped from the middle. It has at most result_limit
      records, exactly result_limit of them when the pages held that many,
      and every record fetched when there is no result_limit. */
  lemma ResultIsPrefixOfPages(job: Job, kwargs: Params, maxPages: nat)
    requires Bounded(job.client, maxPages)
    ensures var s := Unpaginated(job, kwargs, maxPages);
      s.outcome.Ok? ==>
        && AllSucceeded(s.calls)
        && s.outcome.value == Truncate(Fetched(s.calls), job.resultLimit)
        && s.outcome.value <= Fetched(s.calls)
        && (job.resultLimit.Some? ==> |s.outcome.value| <= job.resultLimit.value)
        && (Reached(Fetched(s.calls), job.resultLimit) ==> |s.outcome.value| == job.resultLimit.value)
        && (job.resultLimit.None? ==> s.outcome.value == Fetched(s.calls))
  {
    ResumeAllPages(job, maxPages, Start(job, kwargs));
    ResumeResult(job, maxPages, Start(job, kwargs));
    assert [] + Fetched(Unpaginated(job, kwargs, maxPages).calls) == Fetched(Unpaginated(job, kwargs, maxPages).calls);
  }

  // ---------------------------------------------------------------------
  // When the loop stops

  lemma {:induction false} ResumeFirst(job: Job, maxPages: nat, c: Cursor)
    requires Bounded(job.client, maxPages) && Resumable(maxPages, c)
    requires Within(c.page, c.nPages, job.callLimit)
    ensures var s := Resume(job, maxPages, c);
      s.calls != [] && s.calls[0] == Advance(job, c).call
  {
  }

  /** Fetch `i + 1` was made only because the page count reported by fetch
      `i` and call_limit both allowed page `first + i + 1`. */
  predicate Chained(first: nat, calls: seq<Call>, callLimit: Option<nat>) {
    forall i :: 0 <= i < |calls| - 1 ==>
      calls[i].reply.Page? && Within(first + i + 1, Some(calls[i].reply.pages), callLimit)
  }

  lemma ChainedCons(first: nat, call: Call, calls: seq<Call>, callLimit: Option<nat>)
    requires Chained(first + 1, calls, callLimit)
    requires calls != [] ==> call.reply.Page? && Within(first + 1, Some(call.reply.pages), callLimit)
    ensures Chained(first, [call] + calls, callLimit)
  {
    var all := [call] + calls;
    forall i | 0 <= i < |all| - 1
      ensures all[i].reply.Page? && Within(first + i + 1, Some(all[i].reply.pages), callLimit)
    {
      if i > 0 {
        assert all[i] == calls[i - 1];
      }
    }
  }

  lemma {:induction false} ResumeChained(job: Job, maxPages: nat, c: Cursor)
    requires Bounded(job.client, maxPages) && Resumable(maxPages, c)
    ensures Chained(c.page, Resume(job, maxPages, c).calls, job.callLimit)
    decreases maxPages + 2 - c.page
  {
    if Within(c.page, c.nPages, job.callLimit) {
      var st := Advance(job, c);
      if st.Next? {
        ResumeChained(job, maxPages, st.cursor);
        var rest := Resume(job, maxPages, st.cursor);
        if rest.calls != [] {
          ResumeFirst(job, maxPages, st.cursor);
        } else {
          ResumeEmpty(job, maxPages, st.cursor);
        }
        ChainedCons(c.page, st.call, rest.calls, job.callLimit);
      }
    }
  }

  lemma LastPagesCons(call: Call, calls: seq<Call>)
    ensures LastPages([call] + calls) ==
      if calls != [] then LastPages(calls) else if call.reply.Page? then Some(call.reply.pages) else None
  {
    if calls != [] {
      assert ([call] + calls)[|calls|] == calls[|calls| - 1];
    }
  }

  lemma {:induction false} ResumeStops(job: Job, maxPages: nat, c: Cursor)
    requires Bounded(job.client, maxPages) && Resumable(maxPages, c)
    ensures var s := Resume(job, maxPages, c);
      s.outcome.Ok? && s.calls != [] && !Reached(s.outcome.value, job.resultLimit) ==>
        !Within(c.page + |s.calls|, LastPages(s.calls), job.callLimit)
    decreases maxPages + 2 - c.page
  {
    if Within(c.page, c.nPages, job.callLimit) {
      var st := Advance(job, c);
      if st.Next? {
        ResumeStops(job, maxPages, st.cursor);
        var rest := Resume(job, maxPages, st.cursor);
        LastPagesCons(st.call, rest.calls);
        if rest.calls == [] {
          ResumeEmpty(job, maxPages, st.cursor);
        }
      }
    }
  }

  /** With call_limit >= 1 at least one page is fetched. Every fetch after
      the first was allowed by the page count the previous reply reported,
      and when the loop ends without reaching result_limit, the next page
      number is beyond that count or beyond call_limit. */
  lemma StopsAtReportedPages(job: Job, kwargs: Params, maxPages: nat)
    requires Bounded(job.client, maxPages)
    ensures var s := Unpaginated(job, kwargs, maxPages);
      && (job.callLimit != Some(0) ==> s.calls != [])
      && Chained(1, s.calls, job.callLimit)
      && (s.outcome.Ok? && s.calls != [] && !Reached(s.outcome.value, job.resultLimit) ==>
            !Within(|s.calls| + 1, LastPages(s.calls), job.callLimit))
  {
    ResumeEmpty(job, maxPages, Start(job, kwargs));
    ResumeChained(job, maxPages, Start(job, kwargs));
    ResumeStops(job, maxPages, Start(job, kwargs));
  }

  // ---------------------------------------------------------------------
  // What each fetch asks for

  /** `P` holds of every fetch, stated one fetch at a time. */
  predicate EachFrom(calls: seq<Call>, P: Call -> bool)
    decreases |calls|
  {
    calls == [] || (P(calls[0]) && EachFrom(calls[1..], P))
  }

  lemma {:induction false} EachFromAll(calls: seq<Call>, P: Call -> bool)
    requires EachFrom(calls, P)
    ensures forall i :: 0 <= i < |calls| ==> P(calls[i])
    decreases |calls|
  {
    if calls != [] {
      EachFromAll(calls[1..], P);
      forall i | 0 <= i < |calls|
        ensures P(calls[i])
      {
        if i > 0 {
          assert calls[i] == calls[1..][i - 1];
        }
      }
    }
  }

  /** A fetch that carries the caller's parameters `fw`, has a `per_page`,
      and got the reply the server gives to exactly that request. */
  predicate Forwards(job: Job, fw: Params, call: Call) {
    && Forwarded(call.params) == fw
    && "per_page" in call.params
    && call.reply == Send(job, call.params)
  }

  /** The facts about the state after one pass that the per_page lemmas use. */
  lemma AdvanceNext(job: Job, c: Cursor)
    requires "per_page" in c.params
    requires Advance(job, c).Next?
    ensures var st := Advance(job, c);
      && PerPage(st.call).Some?
      && st.call.params["per_page"] == c.params["per_page"]
      && Forwarded(st.cursor.params) == Forwarded(c.params)
      && |st.cursor.acc| == |c.acc| + |Got(st.call)|
      && st.cursor.params["per_page"] ==
           if job.resultLimit.Some? && |st.cursor.acc| + PerPage(st.call).value >= job.resultLimit.value
           then Int(job.resultLimit.value - |st.cursor.acc|)
           else c.params["per_page"]
  {
    var st := Advance(job, c);
    assert Forwarded(st.call.params) == Forwarded(c.params);
  }

  lemma {:induction false} ResumeForwards(job: Job, maxPages: nat, c: Cursor)
    requires Bounded(job.client, maxPages) && Resumable(maxPages, c)
    ensures EachFrom(Resume(job, maxPages, c).calls, call => Forwards(job, Forwarded(c.params), call))
    decreases maxPages + 2 - c.page
  {
    if Within(c.page, c.nPages, job.callLimit) {
      var st := Advance(job, c);
      var rest := if st.Next? then Resume(job, maxPages, st.cursor).calls else [];
      if st.Next? {
        ResumeForwards(job, maxPages, st.cursor);
        AdvanceNext(job, c);
      }
      assert Forwarded(st.call.params) == Forwarded(c.params);
      assert ([st.call] + rest)[1..] == rest;
      assert Resume(job, maxPages, c).calls == [st.call] + rest;
    }
  }

  /** Every fetch carries exactly the caller's keyword arguments besides
      `page` and `per_page`, and its reply is the server's answer to that very
      request. The first fetch uses the caller's `per_page` if one was given,
      and min(100, result_limit) otherwise; a caller's `page` never reaches
      the server, since every fetch numbers its own page. */
  lemma ForwardsKwargs(job: Job, kwargs: Params, maxPages: nat)
    requires Bounded(job.client, maxPages)
    ensures var s := Unpaginated(job, kwargs, maxPages);
      && (forall i :: 0 <= i < |s.calls| ==>
            && Forwarded(s.calls[i].params) == Forwarded(kwargs)
            && s.calls[i].reply == Send(job, s.calls[i].params))
      && (s.calls != [] ==>
            && "per_page" in s.calls[0].params
            && s.calls[0].params["per_page"] ==
                 if "per_page" in kwargs then kwargs["per_page"] else Int(DefaultPerPage(job.resultLimit)))
  {
    var c := Start(job, kwargs);
    assert Forwarded(c.params) == Forwarded(kwargs);
    ResumeForwards(job, maxPages, c);
    var s := Unpaginated(job, kwargs, maxPages);
    EachFromAll(s.calls, call => Forwards(job, Forwarded(c.params), call));
    if s.calls != [] {
      ResumeEmpty(job, maxPages, c);
      ResumeFirst(job, maxPages, c);
    }
  }

  /** Between consecutive fetches, given `collected` records before the
      first: `per_page` was a number for both, it did not grow, and when it
      changed it became what was still missing to reach result_limit,
      which is positive. */
  predicate PerPageShrinks(calls: seq<Call>, collected: nat, resultLimit: Option<nat>)
    decreases |calls|
  {
    |calls| <= 1 ||
    (var p := PerPage(calls[0]);
     var p' := PerPage(calls[1]);
     var got := collected + |Got(calls[0])|;
     && p.Some? && p'.Some? && p'.value <= p.value
     && (p'.value != p.value ==>
           resultLimit.Some? && p'.value == resultLimit.value - got && p'.value > 0)
     && PerPageShrinks(calls[1..], got, resultLimit))
  }

  lemma {:induction false} ResumePerPage(job: Job, maxPages: nat, c: Cursor)
    requires Bounded(job.client, maxPages) && Resumable(maxPages, c)
    ensures PerPageShrinks(Resume(job, maxPages, c).calls, |c.acc|, job.resultLimit)
    decreases maxPages + 2 - c.page
  {
    if Within(c.page, c.nPages, job.callLimit) {
      var st := Advance(job, c);
      var rest := if st.Next? then Resume(job, maxPages, st.cursor).calls else [];
      if st.Next? {
        ResumePerPage(job, maxPages, st.cursor);
        AdvanceNext(job, c);
        if rest != [] {
          ResumeFirst(job, maxPages, st.cursor);
          assert rest[0].params["per_page"] == st.cursor.params["per_page"];
        }
      }
      assert ([st.call] + rest)[1..] == rest;
      assert Resume(job, maxPages, c).calls == [st.call] + rest;
    }
  }

  /** Before every fetch, the records collected so far plus `per_page` do
      not exceed result_limit, and `per_page` is an integer. */
  predicate FitsLimit(calls: seq<Call>, collected: nat, resultLimit: Option<nat>)
    decreases |calls|
  {
    calls == [] ||
    (&& "per_page" in calls[0].params
     && calls[0].params["per_page"].Int?
     && (resultLimit.Some? ==> collected + calls[0].params["per_page"].i <= resultLimit.value)
     && FitsLimit(calls[1..], collected + |Got(calls[0])|, resultLimit))
  }

  lemma {:induction false} ResumeFits(job: Job, maxPages: nat, c: Cursor)
    requires Bounded(job.client, maxPages) && Resumable(maxPages, c)
    requires c.params["per_page"].Int?
    requires job.resultLimit.Some? ==> |c.acc| + c.params["per_page"].i <= job.resultLimit.value
    ensures FitsLimit(Resume(job, maxPages, c).calls, |c.acc|, job.resultLimit)
    decreases maxPages + 2 - c.page
  {
    if Within(c.page, c.nPages, job.callLimit) {
      var st := Advance(job, c);
      var rest := if st.Next? then Resume(job, maxPages, st.cursor).calls else [];
      if st.Next? {
        AdvanceNext(job, c);
        ResumeFits(job, maxPages, st.cursor);
      }
      assert ([st.call] + rest)[1..] == rest;
      assert Resume(job, maxPages, c).calls == [st.call] + rest;
    }
  }

  /** `per_page` never grows from one fetch to the next, and it changes only
      to become result_limit minus the records collected so far, which is
      positive. When the caller does not pass `per_page`, it is an integer
      and the records collected plus `per_page` never exceed result_limit
      before any fetch, so no page can overshoot the limit. */
  lemma PerPageNeverGrows(job: Job, kwargs: Params, maxPages: nat)
    requires Bounded(job.client, maxPages)
    ensures var s := Unpaginated(job, kwargs, maxPages);
      && PerPageShrinks(s.calls, 0, job.resultLimit)
      && ("per_page" !in kwargs ==> FitsLimit(s.calls, 0, job.resultLimit))
  {
    ResumePerPage(job, maxPages, Start(job, kwargs));
    if "per_page" !in kwargs {
      ResumeFits(job, maxPages, Start(job, kwargs));
    }
  }

  // ---------------------------------------------------------------------
  // How a run fails

  /** How one pass can abort. */
  lemma AdvanceErrors(job: Job, c: Cursor)
    requires "per_page" in c.params
    ensures var st := Advance(job, c);
      st.Halt? && st.outcome.Err? ==>
        && (st.outcome.error == TransportError || st.outcome.error == TypeError)
        && (st.outcome.error == TransportError <==> st.call.reply.Failed?)
        && (st.outcome.error == TypeError ==> PerPage(st.call).None?)
  {
  }

  /** The last fetch and what the run then did. */
  predicate AbortedBy(calls: seq<Call>, error: Error) {
    && calls != []
    && (error == TransportError || error == TypeError)
    && (error == TransportError <==> calls[|calls| - 1].reply.Failed?)
    && (error == TypeError ==> PerPage(calls[|calls| - 1]).None?)
  }

  lemma AbortedByCons(call: Call, calls: seq<Call>, error: Error)
    requires AbortedBy(calls, error)
    ensures AbortedBy([call] + calls, error)
  {
    assert ([call] + calls)[|calls|] == calls[|calls| - 1];
  }

  lemma {:induction false} ResumeErrors(job: Job, maxPages: nat, c: Cursor)
    requires Bounded(job.client, maxPages) && Resumable(maxPages, c)
    ensures var s := Resume(job, maxPages, c);
      s.outcome.Err? ==> AbortedBy(s.calls, s.outcome.error)
    decreases maxPages + 2 - c.page
  {
    if Within(c.page, c.nPages, job.callLimit) {
      var st := Advance(job, c);
      if st.Next? {
        ResumeErrors(job, maxPages, st.cursor);
        var rest := Resume(job, maxPages, st.cursor);
        if rest.outcome.Err? {
          AbortedByCons(st.call, rest.calls, rest.outcome.error);
        }
      } else {
        AdvanceErrors(job, c);
      }
    }
  }

  /** A run fails only by a failed round trip, which is then its last fetch,
      or by a `per_page` that is not a number, found after the last fetch;
      every fetch before the last one got a page. */
  lemma ErrorsAbort(job: Job, kwargs: Params, maxPages: nat)
    requires Bounded(job.client, maxPages)
    ensures var s := Unpaginated(job, kwargs, maxPages);
      s.outcome.Err? ==>
        && s.calls != []
        && (forall i :: 0 <= i < |s.calls| - 1 ==> s.calls[i].reply.Page?)
        && (s.outcome.error == TransportError || s.outcome.error == TypeError)
        && (s.outcome.error == TransportError <==> s.calls[|s.calls| - 1].reply.Failed?)
        && (s.outcome.error == TypeError ==> PerPage(s.calls[|s.calls| - 1]).None?)
  {
    ResumeErrors(job, maxPages, Start(job, kwargs));
    ResumeChained(job, maxPages, Start(job, kwargs));
  }

  /** With result_limit 0 (and call_limit not 0) exactly one fetch is made,
      of page 1 with `per_page` 0 unless the caller passed one, and the run
      returns no records, or fails if that fetch failed. */
  lemma ZeroResultLimit(job: Job, kwargs: Params, maxPages: nat)
    requires Bounded(job.client, maxPages)
    requires job.resultLimit == Some(0) && job.callLimit != Some(0)
    ensures var s := Unpaginated(job, kwargs, maxPages);
      && |s.calls| == 1
      && s.calls[0].params["page"] == Int(1)
      && s.calls[0].params["per_page"] == (if "per_page" in kwargs then kwargs["per_page"] else Int(0))
      && s.outcome == (if s.calls[0].reply.Page? then Ok([]) else Err(TransportError))
  {
    var c := Start(job, kwargs);
    var st := Advance(job, c);
    assert st.Halt?;
    assert Unpaginated(job, kwargs, maxPages) == Session([st.call], st.outcome);
  }
}
