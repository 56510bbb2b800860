/** JSON values as they come back from the search endpoint. */
module Json {

  /** A decoded JSON value; `Null` is Python's `None`. Numbers are integers (the counts). */
  datatype Value =
    | Null
    | Bool(b: bool)
    | Num(n: int)
    | Str(s: string)
    | Arr(items: seq<Value>)
    | Obj(fields: map<string, Value>)
}

/** The pagination loop of `ScrapeBluesky.search_posts`, over an abstract search endpoint. */
module Pagination {
  import opened Wrappers
  import opened Json

  /** The most posts one request asks for. */
  const MaxPageSize: int := 100

  /** The query parameters of one request; `cursor` is sent only when the previous one was truthy. */
  datatype Request = Request(q: string, limit: int, cursor: Option<string>)

  /** The decoded reply: `posts` is None when the key is absent, `cursor` when absent or null. */
  datatype Response = Response(posts: Option<seq<Value>>, cursor: Option<string>)

  /** The search endpoint: one reply per request. */
  type Server = Request -> Response

  /** One request and the reply it got. */
  datatype Exchange = Exchange(request: Request, response: Response)

  /** `data.get("posts", [])`. */
  function Page(r: Response): seq<Value>
  {
    match r.posts
    case Some(p) => p
    case None => []
  }

  /** Python truthiness of the cursor: absent, null and `""` are all false. */
  predicate Truthy(cursor: Option<string>)
  {
    cursor.Some? && cursor.value != ""
  }

  /** The request sent when `got` posts have been collected and `cursor` is the last cursor seen. */
  function NextRequest(query: string, n: int, cursor: Option<string>, got: nat): (req: Request)
    ensures req.limit <= MaxPageSize
    ensures got < n ==> req.limit >= 1
    ensures req.limit == MaxPageSize || req.limit == n - got
    ensures req.limit <= n - got
    ensures req.q == query
    ensures req.cursor.Some? <==> Truthy(cursor)
    ensures req.cursor.Some? ==> req.cursor == cursor
  {
    Request(query, if MaxPageSize < n - got then MaxPageSize else n - got,
            if Truthy(cursor) then cursor else None)
  }

  /** The loop goes on after a reply exactly when it carries a truthy cursor and a non-empty page,
      and fewer than `n` posts have been collected including that page. */
  predicate Continues(resp: Response, n: int, gotAfter: nat)
  {
    Truthy(resp.cursor) && |Page(resp)| > 0 && gotAfter < n
  }

  /** The exchanges the loop performs from a state with cursor `cursor` and `got` posts collected.
      Each further round adds at least one post, so the loop ends. */
  function Exchanges(server: Server, query: string, n: int, cursor: Option<string>, got: nat): (t: seq<Exchange>)
    ensures |t| >= 1
    decreases if got < n then n - got else 0
  {
    var req := NextRequest(query, n, cursor, got);
    var resp := server(req);
    if Continues(resp, n, got + |Page(resp)|)
    then [Exchange(req, resp)] + Exchanges(server, query, n, resp.cursor, got + |Page(resp)|)
    else [Exchange(req, resp)]
  }

  /** A round after which the loop goes on: its exchange, then the rest of the run. */
  lemma ExchangesContinue(server: Server, query: string, n: int, cursor: Option<string>, got: nat, resp: Response)
    requires resp == server(NextRequest(query, n, cursor, got))
    requires Continues(resp, n, got + |Page(resp)|)
    ensures Exchanges(server, query, n, cursor, got) ==
      [Exchange(NextRequest(query, n, cursor, got), resp)] + Exchanges(server, query, n, resp.cursor, got + |Page(resp)|)
  {
  }

  /** A round after which the loop stops: its exchange is the last. */
  lemma ExchangesStop(server: Server, query: string, n: int, cursor: Option<string>, got: nat, resp: Response)
    requires resp == server(NextRequest(query, n, cursor, got))
    requires !Continues(resp, n, got + |Page(resp)|)
    ensures Exchanges(server, query, n, cursor, got) == [Exchange(NextRequest(query, n, cursor, got), resp)]
  {
  }

  /** The posts of a run of exchanges, page after page. */
  function Collected(t: seq<Exchange>): seq<Value>
  {
    if t == [] then [] else Page(t[0].response) + Collected(t[1..])
  }

  lemma {:induction false} CollectedAppend(a: seq<Exchange>, b: seq<Exchange>)
    ensures Collected(a + b) == Collected(a) + Collected(b)
  {
    if a == [] {
      assert a + b == b;
    } else {
      assert (a + b)[1..] == a[1..] + b;
      CollectedAppend(a[1..], b);
    }
  }

  /** The whole conversation of one `search_posts` call. */
  function Trace(server: Server, query: string, n: int): seq<Exchange>
  {
    Exchanges(server, query, n, None, 0)
  }

  /** What follows a round: the rest of the run if the loop goes on, nothing otherwise. */
  function After(server: Server, query: string, n: int, resp: Response, gotAfter: nat): seq<Exchange>
  {
    if Continues(resp, n, gotAfter) then Exchanges(server, query, n, resp.cursor, gotAfter) else []
  }

  /** One more exchange adds its page to the posts collected. */
  lemma CollectedStep(done: seq<Exchange>, e: Exchange)
    ensures Collected(done + [e]) == Collected(done) + Page(e.response)
  {
    CollectedAppend(done, [e]);
    assert Collected([e]) == Page(e.response) + Collected([]);
  }

  /** One round of the loop, seen from the whole trace: the exchange it performs is the next one. */
  lemma TraceStep(whole: seq<Exchange>, server: Server, query: string, n: int, cursor: Option<string>,
                  got: nat, done: seq<Exchange>, req: Request, resp: Response)
    requires whole == done + Exchanges(server, query, n, cursor, got)
    requires req == NextRequest(query, n, cursor, got) && resp == server(req)
    ensures whole == (done + [Exchange(req, resp)]) + After(server, query, n, resp, got + |Page(resp)|)
  {
    var e := Exchange(req, resp);
    var next := After(server, query, n, resp, got + |Page(resp)|);
    if Continues(resp, n, got + |Page(resp)|) {
      ExchangesContinue(server, query, n, cursor, got, resp);
    } else {
      ExchangesStop(server, query, n, cursor, got, resp);
      assert [e] + next == [e];
    }
    assert done + ([e] + next) == (done + [e]) + next;
  }

  /** `search_posts(query, access_token, n_posts_requested)`: request pages until the cursor runs
      out, a page comes back empty, or at least `n` posts have been collected; return every post
      received, in order. */
  method SearchPosts(server: Server, query: string, n: int) returns (posts: seq<Value>)
    ensures posts == Collected(Trace(server, query, n))
  {
    ghost var whole := Trace(server, query, n);
    posts := [];
    var cursor: Option<string> := None;
    ghost var done: seq<Exchange> := [];
    while true
      invariant whole == done + Exchanges(server, query, n, cursor, |posts|)
      invariant posts == Collected(done)
      decreases if |posts| < n then n - |posts| else 0
    {
      var req := NextRequest(query, n, cursor, |posts|);
      var resp := server(req);
      var page := Page(resp);
      TraceStep(whole, server, query, n, cursor, |posts|, done, req, resp);
      CollectedStep(done, Exchange(req, resp));
      ghost var got' := |posts| + |page|;
      ghost var more := Continues(resp, n, got');
      ghost var rest := After(server, query, n, resp, got');
      done := done + [Exchange(req, resp)];
      posts := posts + page;
      cursor := resp.cursor;
      assert |posts| == got';
      if !Truthy(cursor) || |page| == 0 || |posts| >= n {
        assert !more;
        break;
      }
      assert more;
      assert rest == Exchanges(server, query, n, cursor, |posts|);
    }
    assert whole == done;
  }

  /** Every request carries the query, asks for `min(100, n - collected)` posts where `collected`
      counts the posts of the earlier replies, and so never for more than 100. The first request has
      no cursor; each later one carries the cursor of the reply before it. */
  lemma {:induction false} RequestsFollowProtocol(server: Server, query: string, n: int,
                                                  cursor: Option<string>, got: nat)
    requires cursor.None? || Truthy(cursor)
    ensures var t := Exchanges(server, query, n, cursor, got);
      && t[0].request.cursor == cursor
      && (forall k :: 0 <= k < |t| ==>
            && t[k].request.q == query
            && t[k].request.limit <= MaxPageSize
            && t[k].request.limit == (if MaxPageSize < n - (got + |Collected(t[..k])|) then MaxPageSize
                                      else n - (got + |Collected(t[..k])|)))
      && (forall k :: 0 < k < |t| ==> t[k].request.cursor == t[k - 1].response.cursor)
    decreases if got < n then n - got else 0
  {
    var t := Exchanges(server, query, n, cursor, got);
    var req := NextRequest(query, n, cursor, got);
    var resp := server(req);
    assert t[..0] == [];
    if Continues(resp, n, got + |Page(resp)|) {
      var got' := got + |Page(resp)|;
      var t' := Exchanges(server, query, n, resp.cursor, got');
      RequestsFollowProtocol(server, query, n, resp.cursor, got');
      assert t == [Exchange(req, resp)] + t';
      forall k | 0 < k < |t|
        ensures t[k] == t'[k - 1]
        ensures |Collected(t[..k])| == |Page(resp)| + |Collected(t'[..k - 1])|
      {
        assert t[..k] == [t[0]] + t'[..k - 1];
        assert t[..k][1..] == t'[..k - 1];
      }
    }
  }

  /** The posts of the first `k + 1` exchanges of a run that starts with `e`. */
  lemma CollectedConsPrefix(e: Exchange, t: seq<Exchange>, k: nat)
    requires k <= |t|
    ensures Collected(([e] + t)[..k + 1]) == Page(e.response) + Collected(t[..k])
  {
    var u := ([e] + t)[..k + 1];
    assert u == [e] + t[..k];
    assert u[0] == e && u[1..] == t[..k];
  }

  /** The loop stops exactly when it should: after the reply of round `k` it goes on if and only if
      that reply carries a truthy cursor and a non-empty page and fewer than `n` posts have been
      collected, so every round but the last continues and the last one stops. */
  lemma {:induction false} StopsExactly(server: Server, query: string, n: int, cursor: Option<string>, got: nat, k: nat)
    requires k < |Exchanges(server, query, n, cursor, got)|
    ensures var t := Exchanges(server, query, n, cursor, got);
      k < |t| - 1 <==> Continues(t[k].response, n, got + |Collected(t[..k + 1])|)
    decreases k
  {
    var t := Exchanges(server, query, n, cursor, got);
    var req := NextRequest(query, n, cursor, got);
    var resp := server(req);
    var e := Exchange(req, resp);
    var got' := got + |Page(resp)|;
    var t' := Exchanges(server, query, n, resp.cursor, got');
    if Continues(resp, n, got') {
      ExchangesContinue(server, query, n, cursor, got, resp);
      CollectedConsPrefix(e, t', k);
      if k > 0 {
        StopsExactly(server, query, n, resp.cursor, got', k - 1);
        assert t[k] == t'[k - 1];
        assert t[..k + 1] == ([e] + t')[..k + 1];
      } else {
        assert t'[..0] == [];
      }
    } else {
      ExchangesStop(server, query, n, cursor, got, resp);
      assert t[..1] == [e] + [][..0];
      CollectedConsPrefix(e, [], 0);
    }
  }

  /** Against an endpoint that never returns more posts than the request's limit, `search_posts`
      never collects more than `n` posts (none at all when `n` is not positive). */
  lemma {:induction false} HonestServerBound(server: Server, query: string, n: int, cursor: Option<string>, got: nat)
    requires forall req :: |Page(server(req))| <= (if req.limit < 0 then 0 else req.limit)
    requires got <= (if n < 0 then 0 else n)
    ensures got + |Collected(Exchanges(server, query, n, cursor, got))| <= (if n < 0 then 0 else n)
    decreases if got < n then n - got else 0
  {
    var req := NextRequest(query, n, cursor, got);
    var resp := server(req);
    var t := Exchanges(server, query, n, cursor, got);
    if Continues(resp, n, got + |Page(resp)|) {
      HonestServerBound(server, query, n, resp.cursor, got + |Page(resp)|);
      assert t[1..] == Exchanges(server, query, n, resp.cursor, got + |Page(resp)|);
    } else {
      assert t[1..] == [];
    }
  }

  /** The pagination test: two one-post pages, the first with a cursor, the second without, and
      two posts requested, give both posts in order. */
  lemma TwoPageExample(server: Server, query: string, c: string, p1: Value, p2: Value)
    requires c != ""
    requires forall req :: server(req) == if req.cursor == Some(c) then Response(Some([p2]), None)
                                          else Response(Some([p1]), Some(c))
    ensures Collected(Trace(server, query, 2)) == [p1, p2]
  {
    var r0 := Response(Some([p1]), Some(c));
    var r1 := Response(Some([p2]), None);
    var req0 := NextRequest(query, 2, None, 0);
    var req1 := NextRequest(query, 2, Some(c), 1);
    assert server(req0) == r0;
    assert server(req1) == r1;
    ExchangesContinue(server, query, 2, None, 0, r0);
    ExchangesStop(server, query, 2, Some(c), 1, r1);
    var t := [Exchange(req0, r0), Exchange(req1, r1)];
    assert Trace(server, query, 2) == t;
    assert t[1..][1..] == [];
    assert Collected(t[1..]) == [p2] + Collected([]);
    assert Collected(t) == [p1] + Collected(t[1..]);
  }
}
