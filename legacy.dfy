/**
 * The first version of the pagination loop (opyn_fec.py:36-51): it has no
 * call or result limit, starts from `per_page` 100 unless the caller passes
 * one, and fetches pages 1, 2, ... until the page number passes the page
 * count reported by the latest reply. It never looks at `per_page` itself.
 *
 * It shares the client, the reply and the record of fetches with `Paging`,
 * and is proved to agree with the later loop whenever the later loop is run
 * without limits and `per_page` is a number.
 */
module Legacy {
  import opened Values
  import opened Requests
  import opened Paging

  /** The job the legacy loop runs: no limits at all. `path` is the URL
      path `_get_request` builds from the endpoint. */
  function Unlimited(client: Client, path: string): Job {
    Job(client, path, None, None)
  }

  /** `use_kwargs = {"per_page": 100}; use_kwargs.update(kwargs)` */
  function LegacyParams(kwargs: Params): Params {
    map["per_page" := Int(100)] + kwargs
  }

  /** One pass of the legacy loop body (opyn_fec.py:45-49). */
  function LegacyAdvance(client: Client, path: string, c: Cursor): (r: Step)
    ensures r.call.params == c.params["page" := Int(c.page)]
    ensures r.call.reply == Send(Unlimited(client, path), r.call.params)
    ensures r.Next? <==> r.call.reply.Page?
    ensures r.Next? ==>
      r.cursor == Cursor(c.acc + r.call.reply.results, r.call.params, c.page + 1, Some(r.call.reply.pages))
    ensures r.Halt? ==> r.outcome == Err(TransportError)
  {
    var params := c.params["page" := Int(c.page)];
    var reply := Send(Unlimited(client, path), params);
    match reply
    case Failed => Halt(Call(params, reply), Err(TransportError))
    case Page(results, pages) => Next(Call(params, reply), Cursor(c.acc + results, params, c.page + 1, Some(pages)))
  }

  /** The loop from state `c` on (opyn_fec.py:44-51): `page <= n_pages`. */
  ghost function ResumeAll(client: Client, path: string, maxPages: nat, c: Cursor): (s: Session)
    requires Bounded(client, maxPages) && Resumable(maxPages, c)
    decreases maxPages + 2 - c.page
  {
    if !Within(c.page, c.nPages, None) then Session([], Ok(c.acc))
    else
      match LegacyAdvance(client, path, c)
      case Halt(call, outcome) => Session([call], outcome)
      case Next(call, c') =>
        var rest := ResumeAll(client, path, maxPages, c');
        Session([call] + rest.calls, rest.outcome)
  }

  /** A whole run of the legacy `_get_unpaginated_request(endpoint, **kwargs)`. */
  ghost function FetchAll(client: Client, path: string, kwargs: Params, maxPages: nat): Session
    requires Bounded(client, maxPages)
  {
    ResumeAll(client, path, maxPages, Cursor([], LegacyParams(kwargs), 1, None))
  }

  method GetAllPages(client: Client, path: string, kwargs: Params, ghost maxPages: nat)
    returns (r: Result<seq<Record>, Error>)
    requires Bounded(client, maxPages)
    ensures r == FetchAll(client, path, kwargs, maxPages).outcome
  {
    var params := LegacyParams(kwargs);
    var acc: seq<Record> := [];
    var nPages: Option<nat> := None;
    var page: nat := 1;
    while nPages.None? || page <= nPages.value
      invariant Resumable(maxPages, Cursor(acc, params, page, nPages))
      invariant ResumeAll(client, path, maxPages, Cursor(acc, params, page, nPages)).outcome
             == FetchAll(client, path, kwargs, maxPages).outcome
      decreases maxPages + 2 - page
    {
      params := params["page" := Int(page)];
      var reply := Send(Unlimited(client, path), params);
      if reply.Failed? {
        return Err(TransportError);
      }
      acc := acc + reply.results;
      nPages := Some(reply.pages);
      page := page + 1;
    }
    return Ok(acc);
  }

  lemma {:induction false} ResumeAllResult(client: Client, path: string, maxPages: nat, c: Cursor)
    requires Bounded(client, maxPages) && Resumable(maxPages, c)
    ensures var s := ResumeAll(client, path, maxPages, c);
      && (s.calls != [] <==> Within(c.page, c.nPages, None))
      && (s.outcome.Ok? ==> AllSucceeded(s.calls) && s.outcome.value == c.acc + Fetched(s.calls))
      && (s.outcome.Err? ==> AbortedBy(s.calls, s.outcome.error) && s.outcome.error == TransportError)
    decreases maxPages + 2 - c.page
  {
    if Within(c.page, c.nPages, None) {
      var st := LegacyAdvance(client, path, c);
      if st.Next? {
        ResumeAllResult(client, path, maxPages, st.cursor);
        var rest := ResumeAll(client, path, maxPages, st.cursor);
        if rest.outcome.Ok? {
          AllSucceededCons(st.call, rest.calls);
          FetchedCons(st.call, rest.calls);
          Associative(c.acc, st.call.reply.results, Fetched(rest.calls));
        } else {
          AbortedByCons(st.call, rest.calls, rest.outcome.error);
        }
        assert ResumeAll(client, path, maxPages, c) == Session([st.call] + rest.calls, rest.outcome);
      } else {
        assert st.call.reply.Failed?;
        assert ResumeAll(client, path, maxPages, c) == Session([st.call], Err(TransportError));
      }
    }
  }

  /** A run of the legacy loop always fetches at least once. When it succeeds
      every fetch got a page and it returns all their results, in order,
      with nothing cut; it fails only when a round trip fails, and that is its
      last fetch. */
  lemma LegacyReturnsEverything(client: Client, path: string, kwargs: Params, maxPages: nat)
    requires Bounded(client, maxPages)
    ensures var s := FetchAll(client, path, kwargs, maxPages);
      && s.calls != []
      && (s.outcome.Ok? ==> AllSucceeded(s.calls) && s.outcome.value == Fetched(s.calls))
      && (s.outcome.Err? ==> s.outcome.error == TransportError && s.calls[|s.calls| - 1].reply.Failed?)
  {
    var s := FetchAll(client, path, kwargs, maxPages);
    ResumeAllResult(client, path, maxPages, Cursor([], LegacyParams(kwargs), 1, None));
    assert [] + Fetched(s.calls) == Fetched(s.calls);
  }

  lemma {:induction false} ResumeAllFetches(client: Client, path: string, maxPages: nat, c: Cursor)
    requires Bounded(client, maxPages) && Resumable(maxPages, c)
    ensures var s := ResumeAll(client, path, maxPages, c);
      && NumberedFrom(c.page, s.calls)
      && EachFrom(s.calls, call => Forwards(Unlimited(client, path), Forwarded(c.params), call))
    decreases maxPages + 2 - c.page
  {
    if Within(c.page, c.nPages, None) {
      var st := LegacyAdvance(client, path, c);
      var rest := if st.Next? then ResumeAll(client, path, maxPages, st.cursor).calls else [];
      if st.Next? {
        ResumeAllFetches(client, path, maxPages, st.cursor);
        assert Forwarded(st.cursor.params) == Forwarded(c.params);
      }
      assert Forwarded(st.call.params) == Forwarded(c.params);
      assert ResumeAll(client, path, maxPages, c).calls == [st.call] + rest;
      assert ([st.call] + rest)[1..] == rest;
    }
  }

  lemma ResumeAllFirst(client: Client, path: string, maxPages: nat, c: Cursor)
    requires Bounded(client, maxPages) && Resumable(maxPages, c)
    requires Within(c.page, c.nPages, None)
    ensures var s := ResumeAll(client, path, maxPages, c);
      s.calls != [] && s.calls[0] == LegacyAdvance(client, path, c).call
  {
  }

  lemma {:induction false} ResumeAllChained(client: Client, path: string, maxPages: nat, c: Cursor)
    requires Bounded(client, maxPages) && Resumable(maxPages, c)
    ensures Chained(c.page, ResumeAll(client, path, maxPages, c).calls, None)
    decreases maxPages + 2 - c.page
  {
    if Within(c.page, c.nPages, None) {
      var st := LegacyAdvance(client, path, c);
      if st.Next? {
        ResumeAllChained(client, path, maxPages, st.cursor);
        ResumeAllResult(client, path, maxPages, st.cursor);
        var rest := ResumeAll(client, path, maxPages, st.cursor);
        if rest.calls != [] {
          ResumeAllFirst(client, path, maxPages, st.cursor);
        }
        ChainedCons(c.page, st.call, rest.calls, None);
        assert ResumeAll(client, path, maxPages, c).calls == [st.call] + rest.calls;
      } else {
        assert ResumeAll(client, path, maxPages, c).calls == [st.call];
      }
    }
  }

  lemma {:induction false} ResumeAllStops(client: Client, path: string, maxPages: nat, c: Cursor)
    requires Bounded(client, maxPages) && Resumable(maxPages, c)
    ensures var s := ResumeAll(client, path, maxPages, c);
      s.outcome.Ok? && s.calls != [] ==> !Within(c.page + |s.calls|, LastPages(s.calls), None)
    decreases maxPages + 2 - c.page
  {
    if Within(c.page, c.nPages, None) {
      var st := LegacyAdvance(client, path, c);
      if st.Next? {
        ResumeAllStops(client, path, maxPages, st.cursor);
        ResumeAllResult(client, path, maxPages, st.cursor);
        var rest := ResumeAll(client, path, maxPages, st.cursor);
        LastPagesCons(st.call, rest.calls);
        assert ResumeAll(client, path, maxPages, c) == Session([st.call] + rest.calls, rest.outcome);
      }
    }
  }

  /** The legacy loop asks for pages 1, 2, ..., k in order; each fetch after
      the first was allowed by the page count the previous reply reported,
      and a successful run stops at the first page number beyond the count
      reported last. */
  lemma LegacyPagesInOrder(client: Client, path: string, kwargs: Params, maxPages: nat)
    requires Bounded(client, maxPages)
    ensures var s := FetchAll(client, path, kwargs, maxPages);
      && Numbered(1, s.calls)
      && Chained(1, s.calls, None)
      && (s.outcome.Ok? ==> LastPages(s.calls).Some? && LastPages(s.calls).value <= |s.calls|)
  {
    var c := Cursor([], LegacyParams(kwargs), 1, None);
    var s := FetchAll(client, path, kwargs, maxPages);
    ResumeAllResult(client, path, maxPages, c);
    ResumeAllFetches(client, path, maxPages, c);
    ResumeAllChained(client, path, maxPages, c);
    ResumeAllStops(client, path, maxPages, c);
    NumberedFromAll(1, s.calls);
    if s.outcome.Ok? {
      assert s.calls[|s.calls| - 1].reply.Page?;
    }
  }

  /** Every fetch of the legacy loop forwards the caller's keyword arguments
      other than `page` and `per_page` to the same path, and the first fetch
      uses the caller's `per_page` or 100. */
  lemma LegacyForwardsKwargs(client: Client, path: string, kwargs: Params, maxPages: nat)
    requires Bounded(client, maxPages)
    ensures var s := FetchAll(client, path, kwargs, maxPages);
      && (forall i :: 0 <= i < |s.calls| ==>
            Forwarded(s.calls[i].params) == Forwarded(kwargs)
            && s.calls[i].reply == Send(Unlimited(client, path), s.calls[i].params))
      && (s.calls != [] ==>
            s.calls[0].params["per_page"] == if "per_page" in kwargs then kwargs["per_page"] else Int(100))
  {
    var c := Cursor([], LegacyParams(kwargs), 1, None);
    var s := FetchAll(client, path, kwargs, maxPages);
    ResumeAllFetches(client, path, maxPages, c);
    assert Forwarded(c.params) == Forwarded(kwargs);
    EachFromAll(s.calls, call => Forwards(Unlimited(client, path), Forwarded(c.params), call));
    if s.calls != [] {
      ResumeAllFirst(client, path, maxPages, c);
    }
  }

  // ---------------------------------------------------------------------
  // The legacy loop and the later one

  lemma {:induction false} ResumeAgrees(client: Client, path: string, maxPages: nat, c: Cursor)
    requires Bounded(client, maxPages) && Resumable(maxPages, c)
    requires Numeric(c.params["per_page"]).Some?
    ensures Resume(Unlimited(client, path), maxPages, c) == ResumeAll(client, path, maxPages, c)
    decreases maxPages + 2 - c.page
  {
    var job := Unlimited(client, path);
    if Within(c.page, c.nPages, None) {
      var st := Advance(job, c);
      if st.Next? {
        assert st.cursor == Cursor(c.acc + st.call.reply.results, st.call.params, c.page + 1, Some(st.call.reply.pages));
        ResumeAgrees(client, path, maxPages, st.cursor);
      }
    }
  }

  /** Run without limits, the later loop makes the very same fetches as the
      legacy one and returns the same records or the same error, provided
      the caller's `per_page`, if any, is a number. */
  lemma LaterLoopAgrees(client: Client, path: string, kwargs: Params, maxPages: nat)
    requires Bounded(client, maxPages)
    requires "per_page" in kwargs ==> Numeric(kwargs["per_page"]).Some?
    ensures Unpaginated(Unlimited(client, path), kwargs, maxPages) == FetchAll(client, path, kwargs, maxPages)
  {
    assert InitialParams(None, kwargs) == LegacyParams(kwargs);
    ResumeAgrees(client, path, maxPages, Start(Unlimited(client, path), kwargs));
  }

  /** A `per_page` that is not a number is passed through by the legacy loop,
      but makes the later loop raise TypeError right after its first page. */
  lemma LaterLoopRejectsTextPerPage(client: Client, path: string, kwargs: Params, maxPages: nat)
    requires Bounded(client, maxPages)
    requires "per_page" in kwargs && Numeric(kwargs["per_page"]).None?
    ensures var s := Unpaginated(Unlimited(client, path), kwargs, maxPages);
      s.calls[0].reply.Page? ==> |s.calls| == 1 && s.outcome == Err(TypeError)
  {
    var job := Unlimited(client, path);
    var c := Start(job, kwargs);
    var st := Advance(job, c);
    assert st.Halt?;
    assert Unpaginated(job, kwargs, maxPages) == Session([st.call], st.outcome);
  }
}
