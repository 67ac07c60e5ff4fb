/** The worker's `fetch` handler: read two headers, fingerprint and track the visitor, then
    dispatch on the path. */
module Router {
  import opened Wrappers
  import opened Hex
  import opened Kv
  import opened Fingerprint
  import opened Tracker
  import opened Statistics
  import opened JsNumber

  /** The pages the worker serves; their HTML is not modelled. */
  datatype Page = Index | Slime | Bounce | Fountain | Kaleidoscope | Breathing | Cube3 | Cube4 | Cube5

  const StatsPath: string := "/api/stats"

  /** The path each page is served at. */
  function PagePath(p: Page): string {
    match p
    case Index => "/"
    case Slime => "/slime"
    case Bounce => "/bounce"
    case Fountain => "/fountain"
    case Kaleidoscope => "/kaleidoscope"
    case Breathing => "/breathing"
    case Cube3 => "/cube3"
    case Cube4 => "/cube4"
    case Cube5 => "/cube5"
  }

  datatype Route = PageRoute(page: Page) | StatsRoute | NoRoute

  /** The chain of path comparisons, in the program's order. A path is a page route exactly when it
      is that page's path, the stats route exactly when it is `/api/stats`, and nothing otherwise. */
  function RouteOf(path: string): (r: Route)
    ensures r.PageRoute? ==> PagePath(r.page) == path
    ensures (exists p :: PagePath(p) == path) ==> r.PageRoute?
    ensures r == StatsRoute <==> path == StatsPath
  {
    if path == "/" then PageRoute(Index)
    else if path == "/slime" then PageRoute(Slime)
    else if path == "/bounce" then PageRoute(Bounce)
    else if path == "/fountain" then PageRoute(Fountain)
    else if path == "/kaleidoscope" then PageRoute(Kaleidoscope)
    else if path == "/breathing" then PageRoute(Breathing)
    else if path == "/cube3" then PageRoute(Cube3)
    else if path == "/cube4" then PageRoute(Cube4)
    else if path == "/cube5" then PageRoute(Cube5)
    else if path == StatsPath then StatsRoute
    else NoRoute
  }

  /** Each page is reached by its own path, and distinct pages have distinct paths. */
  lemma RoutePagePath(p: Page)
    ensures RouteOf(PagePath(p)) == PageRoute(p)
  {
  }

  /** What the worker needs from a request: the URL path and two optional headers. */
  datatype Request = Request(path: string, connectingIp: Option<string>, userAgent: Option<string>)

  /** `request.headers.get(name) || 'unknown'`. */
  function HeaderOr(h: Option<string>): (v: string)
    ensures h.None? || h.value == "" ==> v == "unknown"
    ensures h.Some? && h.value != "" ==> v == h.value
  {
    if h.Some? && h.value != "" then h.value else "unknown"
  }

  /** The response, without headers or page text. `Thrown` is a handler that threw. */
  datatype Response = Html(page: Page) | StatsJson(stats: Stats) | NotFound | Thrown(error: Error)

  /** The response, and the namespace after the request. */
  datatype Reply = Reply(response: Response, env: Env)

  /** The names `list()` returns for the namespace as it is at the time of the call. */
  function Listing(env: Env, list: Store -> seq<string>): seq<string> {
    match env
    case None => []
    case Some(st) => list(st)
  }

  /** The visitor's fingerprint as `fetch` computes it from the two headers. */
  function RequestFingerprint(req: Request, sha256: seq<byte> -> Digest): string {
    GenerateFingerprint(HeaderOr(req.connectingIp), HeaderOr(req.userAgent), sha256)
  }

  /** The tracking step of `fetch`, before any routing. */
  function TrackRequest(env: Env, req: Request, now: nat, sha256: seq<byte> -> Digest): Result<Env, Error> {
    TrackVisitor(env, HeaderOr(req.connectingIp), RequestFingerprint(req, sha256), HeaderOr(req.userAgent), now)
  }

  /** `fetch(request, env)` at time `now`. Every request is tracked first, whatever its path; a
      tracking step that throws ends the request. Then the path picks a page, the statistics of
      the namespace as tracking left it, or 404. */
  function Fetch(env: Env, req: Request, now: nat, sha256: seq<byte> -> Digest, list: Store -> seq<string>): (r: Reply)
    ensures TrackRequest(env, req, now, sha256).Failure? ==>
      r == Reply(Thrown(TrackRequest(env, req, now, sha256).error), env)
    ensures TrackRequest(env, req, now, sha256).Success? ==>
      && r.env == TrackRequest(env, req, now, sha256).value
      && (RouteOf(req.path).PageRoute? <==> r.response.Html?)
      && (r.response.Html? ==> PagePath(r.response.page) == req.path)
      && (RouteOf(req.path) == NoRoute <==> r.response == NotFound)
      && (req.path == StatsPath ==>
            var stats := GetStats(r.env, Listing(r.env, list));
            r.response == if stats.Success? then StatsJson(stats.value) else Thrown(stats.error))
  {
    match TrackRequest(env, req, now, sha256)
    case Failure(e) => Reply(Thrown(e), env)
    case Success(env') =>
      match RouteOf(req.path)
      case PageRoute(p) => Reply(Html(p), env')
      case NoRoute => Reply(NotFound, env')
      case StatsRoute =>
        match GetStats(env', Listing(env', list))
        case Success(s) => Reply(StatsJson(s), env')
        case Failure(e) => Reply(Thrown(e), env')
  }

  /** The path plays no part in tracking: two requests that differ only in their path leave the
      namespace in the same state, so a 404 counts as a visit like any page. */
  lemma TrackingIgnoresPath(env: Env, req: Request, other: string, now: nat, sha256: seq<byte> -> Digest, list: Store -> seq<string>)
    ensures Fetch(env, req, now, sha256, list).env == Fetch(env, req.(path := other), now, sha256, list).env
  {
    assert TrackRequest(env, req, now, sha256) == TrackRequest(env, req.(path := other), now, sha256);
  }

  /** Without a namespace nothing is stored, pages are served, and the statistics are all zero. */
  lemma UnboundNamespace(req: Request, now: nat, sha256: seq<byte> -> Digest, list: Store -> seq<string>)
    ensures Fetch(None, req, now, sha256, list).env == None
    ensures req.path == StatsPath ==>
      Fetch(None, req, now, sha256, list).response == StatsJson(Stats(Int(0), Int(0), []))
  {
  }
}
