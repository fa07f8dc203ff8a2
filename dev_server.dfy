/** The compiling middleware of the development server `WebpackServer`
    (webpack.helper.js): which GET requests are compiled on demand, the map
    `keys` that holds one `Builder` per compilation unit, and the response
    written once the build settles.

    The file system's existence check is the set `existing` of paths that
    exist; the foreign `webpack(cfg)` call that may throw while a builder is
    constructed is the parameter `constructThrows`. */
module DevServer {
  import opened Wrappers
  import opened Text
  import opened Paths
  import opened WebpackHelper
  import opened Build

  datatype UnitKind = Page | Script | Style

  /** A compilation unit: its kind and its key in `keys` (the source path of
      a page or script, the request path of the stylesheet). */
  datatype Unit = Unit(kind: UnitKind, key: string)

  const StylePath := "/style.scss"
  const StyleCss := "style.css"
  const AssetsPrefix := "/assets/"

  /** The request path with `index.html` added to a directory path. */
  function Template(pathname: string): (t: string)
    ensures EndsWith(pathname, "/") ==> t == pathname + "index.html" && EndsWith(t, ".html")
    ensures !EndsWith(pathname, "/") ==> t == pathname
  {
    if EndsWith(pathname, "/") then pathname + "index.html" else pathname
  }

  predicate IsPageRequest(t: string) {
    EndsWith(t, ".html")
  }

  predicate IsScriptRequest(t: string) {
    !EndsWith(t, ".html") && EndsWith(t, ".js") && !StartsWith(t, AssetsPrefix)
  }

  function PageKey(o: Options, t: string): string {
    Join([o.input, t])
  }

  function ScriptKey(o: Options, t: string): string {
    Join([o.input, ReplaceSuffix(t, ".js", ".ts")])
  }

  /** Which unit, if any, the middleware compiles for a request. */
  function Classify(o: Options, reqMethod: string, pathname: string, existing: set<string>): (r: Option<Unit>)
    ensures reqMethod != "GET" ==> r == None
    ensures r.Some? && r.value.kind == Page <==>
      reqMethod == "GET" && IsPageRequest(Template(pathname)) && PageKey(o, Template(pathname)) in existing
    ensures r.Some? && r.value.kind == Script <==>
      reqMethod == "GET" && IsScriptRequest(Template(pathname)) && ScriptKey(o, Template(pathname)) in existing
    ensures r.Some? && r.value.kind == Style <==> reqMethod == "GET" && pathname == StylePath
    ensures r.Some? && r.value.kind == Page ==> r.value.key == PageKey(o, Template(pathname))
    ensures r.Some? && r.value.kind == Script ==> r.value.key == ScriptKey(o, Template(pathname))
    ensures r.Some? && r.value.kind == Style ==> r.value.key == StylePath
  {
    if reqMethod != "GET" then None
    else
      var t := Template(pathname);
      if IsPageRequest(t) then
        var key := PageKey(o, t);
        if key in existing then Some(Unit(Page, key)) else None
      else if IsScriptRequest(t) then
        var key := ScriptKey(o, t);
        if key in existing then Some(Unit(Script, key)) else None
      else if t == StylePath then Some(Unit(Style, t))
      else None
  }

  /** The output file a unit's builder reads after compiling. */
  function OutputFile(o: Options, env: Env, u: Unit): string {
    match u.kind
    case Page => GetHtmlPath(o, env, u.key)
    case Script => GetEntryPath(o, env, u.key)
    case Style => GetCssPath(o, env, StyleCss)
  }

  function ContentType(kind: UnitKind): string {
    match kind
    case Page => "text/html; charset=utf-8"
    case Script => "application/javascript; charset=utf-8"
    case Style => "text/css; charset=utf-8"
  }

  /** A response body: compiled text, or the error page showing a failure's
      text (the page's HTML rendering and escaping are the template
      library's). */
  datatype Body = Text(text: string) | ErrorPage(message: string)

  datatype Response = Response(status: nat, contentType: string, body: Body)

  /** The response for a failure caught by the middleware. The body is an
      HTML string, for which Koa sets the HTML content type. */
  function FailureResponse(message: string): (r: Response)
    ensures r.status == 500 && r.body == ErrorPage(message)
  {
    Response(500, "text/html; charset=utf-8", ErrorPage(message))
  }

  /** The response once a unit's build has settled. */
  function Respond(kind: UnitKind, s: PromiseState): (r: Response)
    requires !s.Pending?
    ensures r.status == 200 <==> s.Fulfilled?
    ensures s.Fulfilled? ==> r.contentType == ContentType(kind) && r.body == Text(s.value)
    ensures s.Rejected? ==> r == FailureResponse(s.reason)
  {
    match s
    case Fulfilled(v) => Response(200, ContentType(kind), Text(v))
    case Rejected(e) => FailureResponse(e)
  }

  /** What the middleware does with one request before awaiting: pass it
      on, fail at once, or wait for a builder's promise. */
  datatype Dispatch =
    | PassThrough
    | Failed(response: Response)
    | Awaiting(unit: Unit, promise: Completer)

  class WebpackServer {
    const opts: Options
    const env: Env
    /** `keys`: the builder of every unit requested so far. */
    var keys: map<string, Builder>

    /** Distinct units have distinct builders. */
    ghost predicate Valid()
      reads this
    {
      forall k1, k2 :: k1 in keys && k2 in keys && k1 != k2 ==> keys[k1] != keys[k2]
    }

    constructor(opts: Options, env: Env)
      ensures this.opts == opts && this.env == env && keys == map[] && Valid()
    {
      this.opts := opts;
      this.env := env;
      keys := map[];
    }

    /** The middleware up to `await builder.build()`. The builder of the
        request's unit is looked up in `keys`; the first request for a unit
        constructs it and stores it, unless construction throws. */
    method Handle(reqMethod: string, pathname: string, existing: set<string>,
                  constructThrows: Option<string>, runThrows: Option<string>) returns (d: Dispatch)
      requires Valid()
      requires forall k :: k in keys ==> keys[k].Valid()
      modifies this, keys.Values
      ensures Valid()
      ensures forall k :: k in keys ==> keys[k].Valid()
      ensures var u := Classify(opts, reqMethod, pathname, existing);
        && (u.None? ==> d == PassThrough && keys == old(keys))
        && (u.Some? && u.value.key in old(keys) ==>
              && keys == old(keys)
              && d.Awaiting? && d.unit == u.value
              && var b := keys[u.value.key];
              && (old(b.c) != null ==>
                    d.promise == old(b.c) && b.c == old(b.c) && b.runs == old(b.runs) && d.promise.state.Pending?)
              && (old(b.c) == null ==> fresh(d.promise) && b.runs == old(b.runs) + 1)
              && (old(b.c) == null && runThrows.None? ==> b.c == d.promise && d.promise.state.Pending?)
              && (old(b.c) == null && runThrows.Some? ==>
                    b.c == null && d.promise.state == Rejected(runThrows.value)))
        && (u.Some? && u.value.key !in old(keys) && constructThrows.Some? ==>
              keys == old(keys) && d == Failed(FailureResponse(constructThrows.value)))
        && (u.Some? && u.value.key !in old(keys) && constructThrows.None? ==>
              && u.value.key in keys && fresh(keys[u.value.key])
              && keys == old(keys)[u.value.key := keys[u.value.key]]
              && keys[u.value.key].filename == OutputFile(opts, env, u.value)
              && keys[u.value.key].runs == 1
              && d.Awaiting? && d.unit == u.value && fresh(d.promise)
              && (runThrows.None? ==> keys[u.value.key].c == d.promise && d.promise.state.Pending?)
              && (runThrows.Some? ==>
                    keys[u.value.key].c == null && d.promise.state == Rejected(runThrows.value)))
      ensures var u := Classify(opts, reqMethod, pathname, existing);
        forall k :: k in old(keys) && (u.None? || k != u.value.key) ==> unchanged(old(keys)[k])
    {
      var u := Classify(opts, reqMethod, pathname, existing);
      if u.None? {
        return PassThrough;
      }
      var unit := u.value;
      var builder: Builder;
      if unit.key in keys {
        builder := keys[unit.key];
      } else {
        if constructThrows.Some? {
          return Failed(FailureResponse(constructThrows.value));
        }
        builder := new Builder(OutputFile(opts, env, unit));
        keys := keys[unit.key := builder];
      }
      var p := builder.Build(runThrows);
      d := Awaiting(unit, p);
    }
  }

  /** `n` requests for the same page arrive while nothing has been built;
      the build then succeeds. The compiler runs once and every request
      gets the same successful response. */
  method PageRequests(o: Options, env: Env, pathname: string, existing: set<string>, output: string, n: nat)
      returns (responses: seq<Response>, ghost runs: nat)
    requires n >= 1
    requires EndsWith(pathname, ".html") && PageKey(o, pathname) in existing
    ensures runs == 1
    ensures |responses| == n
    ensures forall i :: 0 <= i < n ==> responses[i] == Response(200, "text/html; charset=utf-8", Text(output))
  {
    assert !EndsWith(pathname, "/") by {
      assert pathname[|pathname| - 1] == 'l';
    }
    var key := PageKey(o, pathname);
    var server := new WebpackServer(o, env);
    var d := server.Handle("GET", pathname, existing, None, None);
    var b := server.keys[key];
    var first := d.promise;
    var waiting := [d];
    while |waiting| < n
      invariant 1 <= |waiting| <= n
      invariant server.Valid() && server.keys == map[key := b]
      invariant b.Valid() && b.c == first && b.runs == 1
      invariant forall i :: 0 <= i < |waiting| ==>
        waiting[i].Awaiting? && waiting[i].promise == first && waiting[i].unit.kind == Page
    {
      var next := server.Handle("GET", pathname, existing, None, None);
      waiting := waiting + [next];
    }
    b.RunFinished(first, Built(output));
    responses := [];
    while |responses| < n
      invariant |responses| <= n
      invariant forall i :: 0 <= i < |responses| ==>
        responses[i] == Response(200, "text/html; charset=utf-8", Text(output))
    {
      var w := waiting[|responses|];
      responses := responses + [Respond(w.unit.kind, w.promise.state)];
    }
    runs := b.runs;
  }

  /** A request whose `compiler.run` throws answers 500 with the error, and
      the next request for the same unit starts a new run. */
  method FailedRunIsRetried(o: Options, env: Env, pathname: string, existing: set<string>, err: string)
      returns (failed: Response, retried: PromiseState, ghost runs: nat)
    requires EndsWith(pathname, ".html") && PageKey(o, pathname) in existing
    ensures failed == FailureResponse(err)
    ensures retried == Pending && runs == 2
  {
    assert !EndsWith(pathname, "/") by {
      assert pathname[|pathname| - 1] == 'l';
    }
    var server := new WebpackServer(o, env);
    var d1 := server.Handle("GET", pathname, existing, None, Some(err));
    failed := Respond(d1.unit.kind, d1.promise.state);
    var d2 := server.Handle("GET", pathname, existing, None, None);
    retried := d2.promise.state;
    runs := server.keys[PageKey(o, pathname)].runs;
  }

  /** A request for the stylesheet is compiled whatever the file system
      holds. */
  lemma StyleIgnoresFileSystem(o: Options, existing: set<string>)
    ensures Classify(o, "GET", StylePath, existing) == Some(Unit(Style, StylePath))
  {
  }

  /** A directory request is served as the page `index.html` within it,
      when that page exists. */
  lemma DirectoryServesIndex(o: Options, dir: string, existing: set<string>)
    requires EndsWith(dir, "/")
    ensures var key := Join([o.input, dir + "index.html"]);
      Classify(o, "GET", dir, existing) == (if key in existing then Some(Unit(Page, key)) else None)
  {
  }
}
