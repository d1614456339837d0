/**
 * What every wrapper class does in `_get_request` before it goes to the
 * network: it adds the client's API key to the query parameters and builds
 * the URL from the fixed base, the endpoint with its surrounding slashes
 * stripped, and "/?". The percent-encoding of the query string that follows
 * is a library call and is not modelled: a request is kept as the URL up to
 * and including "?" together with its parameter map.
 *
 * It also holds what the endpoint selectors of every wrapper produce: the
 * endpoint, the parameters they forward, and how the request is then sent.
 */
module Requests {
  import opened Values

  type Params = map<string, Value>

  const BaseUrl: string := "https://api.open.fec.gov/v1/"

  datatype Request = Request(path: string, query: Params)

  /** How a selector sends its request: through the limited pagination loop,
      through the older loop that fetches every page, as one request whose
      `results` are returned as they are, or as one request whose first
      result is returned. */
  datatype Mode = Limited(callLimit: Option<nat>, resultLimit: Option<nat>) | AllPages | OnePage | FirstResult

  datatype Dispatch = Dispatch(endpoint: string, params: Params, mode: Mode)

  predicate AllSlashes(s: string) {
    forall k :: 0 <= k < |s| ==> s[k] == '/'
  }

  predicate NoEdgeSlash(s: string) {
    s == [] || (s[0] != '/' && s[|s| - 1] != '/')
  }

  /** `s.lstrip('/')`: the longest suffix of `s` that does not start with '/'. */
  function StripLeading(s: string): (r: string)
    ensures r == [] || r[0] != '/'
  {
    if s != [] && s[0] == '/' then StripLeading(s[1..]) else s
  }

  /** `s.rstrip('/')`: the longest prefix of `s` that does not end with '/'. */
  function StripTrailing(s: string): (r: string)
    ensures |r| <= |s| && r == s[..|r|]
    ensures r == [] || r[|r| - 1] != '/'
  {
    if s != [] && s[|s| - 1] == '/' then StripTrailing(s[..|s| - 1]) else s
  }

  /** `s.strip('/')`: neither starts nor ends with '/'. */
  function Strip(s: string): (r: string)
    ensures NoEdgeSlash(r)
  {
    var t := StripLeading(s);
    var r := StripTrailing(t);
    assert NoEdgeSlash(r) by {
      if r != [] {
        assert r[0] == t[0];
      }
    }
    r
  }

  lemma AllSlashesJoin(a: string, b: string)
    requires AllSlashes(a) && AllSlashes(b)
    ensures AllSlashes(a + b)
  {
  }

  lemma {:induction false} LeadingSplit(s: string) returns (p: string)
    ensures AllSlashes(p) && s == p + StripLeading(s)
  {
    if s != [] && s[0] == '/' {
      var p' := LeadingSplit(s[1..]);
      p := [s[0]] + p';
      assert s == [s[0]] + s[1..];
    } else {
      p := [];
    }
  }

  lemma {:induction false} TrailingSplit(s: string) returns (q: string)
    ensures AllSlashes(q) && s == StripTrailing(s) + q
  {
    if s != [] && s[|s| - 1] == '/' {
      var q' := TrailingSplit(s[..|s| - 1]);
      q := q' + [s[|s| - 1]];
      assert s == s[..|s| - 1] + [s[|s| - 1]];
    } else {
      q := [];
    }
  }

  /** What `strip('/')` removes is slashes only: every string is some slashes,
      then its stripped form, then some slashes. */
  lemma StripSplit(s: string) returns (p: string, q: string)
    ensures AllSlashes(p) && AllSlashes(q)
    ensures s == p + Strip(s) + q
  {
    p := LeadingSplit(s);
    q := TrailingSplit(StripLeading(s));
  }

  lemma {:induction false} StripLeadingPadded(p: string, t: string)
    requires AllSlashes(p)
    requires t == [] || t[0] != '/'
    ensures StripLeading(p + t) == t
  {
    if p != [] {
      assert (p + t)[0] == '/';
      assert (p + t)[1..] == p[1..] + t;
      StripLeadingPadded(p[1..], t);
    }
  }

  lemma {:induction false} StripTrailingPadded(t: string, q: string)
    requires AllSlashes(q)
    requires t == [] || t[|t| - 1] != '/'
    ensures StripTrailing(t + q) == t
  {
    if q != [] {
      var s := t + q;
      assert s[|s| - 1] == '/';
      assert s[..|s| - 1] == t + q[..|q| - 1];
      StripTrailingPadded(t, q[..|q| - 1]);
    }
  }

  /** Stripping inverts padding: whatever slashes surround an endpoint that
      neither starts nor ends with '/', `strip('/')` gives that endpoint back. */
  lemma StripPadded(p: string, t: string, q: string)
    requires AllSlashes(p) && AllSlashes(q)
    requires NoEdgeSlash(t)
    ensures Strip(p + t + q) == t
  {
    var u := t + q;
    assert p + t + q == p + u;
    if t == [] {
      assert u == q;
      StripLeadingPadded(p + q, "");
      assert p + q + "" == p + u;
    } else {
      StripLeadingPadded(p, u);
      StripTrailingPadded(t, q);
    }
  }

  lemma Regroup(a: string, b: string, c: string, d: string, e: string)
    ensures a + (b + c + d) + e == (a + b) + c + (d + e)
  {
  }

  /** Adding or removing slashes around an endpoint never changes the URL
      path: `"/x/"` and `"x"` reach the same resource. */
  lemma StripIgnoresEdgeSlashes(p: string, e: string, q: string)
    requires AllSlashes(p) && AllSlashes(q)
    ensures Strip(p + e + q) == Strip(e)
  {
    var p', q' := StripSplit(e);
    var r := Strip(e);
    AllSlashesJoin(p, p');
    AllSlashesJoin(q', q);
    Regroup(p, p', r, q', q);
    StripPadded(p + p', r, q' + q);
  }

  /** `kwargs.update({"api_key": key})` */
  function WithApiKey(kwargs: Params, apiKey: string): Params {
    kwargs["api_key" := Str(apiKey)]
  }

  /** The client's key replaces any key the caller passed, and every other
      parameter is forwarded unchanged. */
  lemma ApiKeyOverrides(kwargs: Params, apiKey: string)
    ensures var q := WithApiKey(kwargs, apiKey);
      && q.Keys == kwargs.Keys + {"api_key"}
      && q["api_key"] == Str(apiKey)
      && (forall k :: k in kwargs && k != "api_key" ==> q[k] == kwargs[k])
  {
  }

  /** The URL up to the query string: the base, the endpoint without its
      surrounding slashes, and "/?". */
  function Path(endpoint: string): string {
    BaseUrl + Strip(endpoint) + "/?"
  }

  /** The request `_get_request` sends for an endpoint and its parameters. */
  function MakeRequest(apiKey: string, endpoint: string, kwargs: Params): Request {
    Request(Path(endpoint), WithApiKey(kwargs, apiKey))
  }

  /** Two endpoints that differ only in surrounding slashes give the same
      request, and the key the caller put among the parameters never reaches
      the server. */
  lemma SameRequestModuloSlashes(apiKey: string, e: string, kwargs: Params, callerKey: string)
    ensures MakeRequest(apiKey, "/" + e + "/", kwargs) == MakeRequest(apiKey, e, kwargs)
    ensures MakeRequest(apiKey, e, kwargs["api_key" := Str(callerKey)]) == MakeRequest(apiKey, e, kwargs)
  {
    StripIgnoresEdgeSlashes("/", e, "/");
    assert WithApiKey(kwargs["api_key" := Str(callerKey)], apiKey) == WithApiKey(kwargs, apiKey);
  }
}
