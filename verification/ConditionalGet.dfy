/** The public crawl fixture and its conditional requests (sections 13.1.2 and 15.4.5 of RFC 9110), with a
    client that revalidates what it has stored. */
module ConditionalGet {
  import opened Counting
  import opened Options

  const ETAG := "\"sa16-l18-v1\""

  datatype Kind = Page | Json | Xhr | Document | Artifact | Versioned | Gone | Missing

  function Route(path: string): Kind {
    if path == "/robots.txt" || path == "/sitemap.xml" || path == "/sitemap-pages.xml" || path == "/feed.xml" then Page
    else if path == "/.well-known/security.txt" || path == "/manifest.webmanifest" then Page
    else if path == "/api/app.json" then Json
    else if path == "/api/xhr" then Xhr
    else if path == "/documents/report.txt" then Document
    else if path == "/artifact-download.txt" then Artifact
    else if path == "/artifact" then Page
    else if path == "/gone" then Gone
    else if path == "/" || path == "/static" || path == "/app" || path == "/feed-item" then Versioned
    else Missing
  }

  /** What the fixture sends for a path; the texts themselves do not matter here. */
  type Bodies = string -> string

  datatype Response = Response(status: nat, etag: Option<string>, body: string)

  datatype Counters = Counters(
    requests: nat, notModified: nat, jsonHits: nat, xhrHits: nat, documentHits: nat, artifactHits: nat)

  const ZERO := Counters(0, 0, 0, 0, 0, 0)

  // ----- the server -----

  predicate HasTag(k: Kind) { k.Versioned? || k.Document? }

  function Status(k: Kind): nat {
    if k.Gone? then 410 else if k.Missing? then 404 else 200
  }

  function Reply(bodies: Bodies, path: string, ifNoneMatch: Option<string>): Response {
    var k := Route(path);
    if !HasTag(k) then Response(Status(k), None, bodies(path))
    else if ifNoneMatch == Some(ETAG) then Response(304, Some(ETAG), "")
    else Response(200, Some(ETAG), bodies(path))
  }

  /** A conditional request for the document still counts as a document hit. */
  function Count(c: Counters, path: string, ifNoneMatch: Option<string>): Counters {
    var k := Route(path);
    Counters(
      c.requests + 1,
      c.notModified + One(HasTag(k) && ifNoneMatch == Some(ETAG)),
      c.jsonHits + One(k.Json?), c.xhrHits + One(k.Xhr?),
      c.documentHits + One(k.Document?), c.artifactHits + One(k.Artifact?))
  }

  class FixtureState {
    var requests: nat
    var notModified: nat
    var jsonHits: nat
    var xhrHits: nat
    var documentHits: nat
    var artifactHits: nat

    function View(): Counters
      reads this
    {
      Counters(requests, notModified, jsonHits, xhrHits, documentHits, artifactHits)
    }

    constructor ()
      ensures View() == ZERO
    {
      requests, notModified, jsonHits, xhrHits, documentHits, artifactHits := 0, 0, 0, 0, 0, 0;
    }

    method Reset()
      modifies this
      ensures View() == ZERO
    {
      requests := 0;
      notModified := 0;
      jsonHits := 0;
      xhrHits := 0;
      documentHits := 0;
      artifactHits := 0;
    }

    method SendVersioned(body: string, ifNoneMatch: Option<string>) returns (r: Response)
      modifies this`notModified
      ensures notModified == old(notModified) + One(ifNoneMatch == Some(ETAG))
      ensures r == if ifNoneMatch == Some(ETAG) then Response(304, Some(ETAG), "") else Response(200, Some(ETAG), body)
    {
      if ifNoneMatch == Some(ETAG) {
        notModified := notModified + 1;
        return Response(304, Some(ETAG), "");
      }
      r := Response(200, Some(ETAG), body);
    }

    method DoGet(bodies: Bodies, path: string, ifNoneMatch: Option<string>) returns (r: Response)
      modifies this
      ensures View() == Count(old(View()), path, ifNoneMatch)
      ensures r == Reply(bodies, path, ifNoneMatch)
    {
      hide Route, ETAG;
      requests := requests + 1;
      match Route(path)
      case Json =>
        jsonHits := jsonHits + 1;
        r := Response(200, None, bodies(path));
      case Xhr =>
        xhrHits := xhrHits + 1;
        r := Response(200, None, bodies(path));
      case Document =>
        documentHits := documentHits + 1;
        r := SendVersioned(bodies(path), ifNoneMatch);
      case Artifact =>
        artifactHits := artifactHits + 1;
        r := Response(200, None, bodies(path));
      case Page => r := Response(200, None, bodies(path));
      case Gone => r := Response(410, None, bodies(path));
      case Versioned => r := SendVersioned(bodies(path), ifNoneMatch);
      case Missing => r := Response(404, None, bodies(path));
    }
  }

  // ----- clients -----

  /** The fixture routes on the path alone, but a client stores per URL. */
  datatype Url = Url(path: string, query: string)

  datatype Stored = Stored(etag: string, body: string)

  type Cache = map<Url, Stored>

  /** What a client makes of a response for its user. */
  datatype Shown = Shown(status: nat, body: string)

  datatype Session = Session(counters: Counters, cache: Cache, shown: seq<Shown>)

  const START := Session(ZERO, map[], [])

  /** A client that never sends If-None-Match. */
  function FetchPlain(bodies: Bodies, s: Session, u: Url): Session {
    var r := Reply(bodies, u.path, None);
    Session(Count(s.counters, u.path, None), s.cache, s.shown + [Shown(r.status, r.body)])
  }

  /** A client that stores body and ETag per URL, revalidates, and on 304 shows what it stored. */
  function FetchCached(bodies: Bodies, s: Session, u: Url): Session {
    var header := if u in s.cache then Some(s.cache[u].etag) else None;
    var r := Reply(bodies, u.path, header);
    var counters := Count(s.counters, u.path, header);
    if r.status == 304 then
      Session(counters, s.cache, s.shown + [Shown(200, if u in s.cache then s.cache[u].body else "")])
    else
      Session(
        counters,
        if r.status == 200 && r.etag.Some? then s.cache[u := Stored(r.etag.value, r.body)] else s.cache,
        s.shown + [Shown(r.status, r.body)])
  }

  function RunPlain(bodies: Bodies, urls: seq<Url>): Session {
    if urls == [] then START else FetchPlain(bodies, RunPlain(bodies, urls[..|urls| - 1]), urls[|urls| - 1])
  }

  function RunCached(bodies: Bodies, urls: seq<Url>): Session {
    if urls == [] then START else FetchCached(bodies, RunCached(bodies, urls[..|urls| - 1]), urls[|urls| - 1])
  }

  predicate IsTagged(u: Url) { HasTag(Route(u.path)) }

  function TaggedRequests(urls: seq<Url>): nat {
    if urls == [] then 0 else TaggedRequests(urls[..|urls| - 1]) + One(IsTagged(urls[|urls| - 1]))
  }

  function TaggedUrls(urls: seq<Url>): set<Url> { set u | u in urls && IsTagged(u) }

  /** The client has stored exactly the versioned URLs it asked for, as the fixture serves them. */
  ghost predicate CacheInv(bodies: Bodies, urls: seq<Url>, cache: Cache) {
    && cache.Keys == TaggedUrls(urls)
    && forall u | u in cache :: cache[u] == Stored(ETAG, bodies(u.path))
  }

  lemma TaggedUrlsStep(urls: seq<Url>)
    requires urls != []
    ensures var last := urls[|urls| - 1];
            TaggedUrls(urls) == TaggedUrls(urls[..|urls| - 1]) + if IsTagged(last) then {last} else {}
  {
    hide IsTagged;
    assert urls == urls[..|urls| - 1] + [urls[|urls| - 1]];
  }

  /** On every request sequence the revalidating client shows the same representations as one that never
      sends If-None-Match; the fixture answers 304 to exactly the repeated requests for a versioned URL,
      and its other counters do not tell the two clients apart. */
  lemma {:induction false} CachingIsTransparent(bodies: Bodies, urls: seq<Url>)
    ensures var cached, plain := RunCached(bodies, urls), RunPlain(bodies, urls);
            && cached.shown == plain.shown
            && CacheInv(bodies, urls, cached.cache)
            && cached.counters.notModified == TaggedRequests(urls) - |TaggedUrls(urls)|
            && plain.counters.notModified == 0
            && cached.counters.(notModified := 0) == plain.counters
  {
    if urls != [] {
      var before, last := urls[..|urls| - 1], urls[|urls| - 1];
      CachingIsTransparent(bodies, before);
      TaggedUrlsStep(urls);
      FetchStep(bodies, RunCached(bodies, before), RunPlain(bodies, before), before, last);
      hide IsTagged, FetchPlain, FetchCached, TaggedUrls;
    }
  }

  lemma FetchStep(bodies: Bodies, cached: Session, plain: Session, urls: seq<Url>, u: Url)
    requires CacheInv(bodies, urls, cached.cache) && cached.shown == plain.shown
    requires plain.counters == cached.counters.(notModified := 0)
    ensures var c, p := FetchCached(bodies, cached, u), FetchPlain(bodies, plain, u);
            && c.shown == p.shown
            && c.counters.notModified == cached.counters.notModified + One(IsTagged(u) && u in TaggedUrls(urls))
            && p.counters == c.counters.(notModified := 0)
            && c.cache.Keys == TaggedUrls(urls) + (if IsTagged(u) then {u} else {})
            && forall v | v in c.cache :: c.cache[v] == Stored(ETAG, bodies(v.path))
  {
    hide Route, ETAG, TaggedUrls;
    assert u in cached.cache ==> IsTagged(u) by { CachedIsTagged(urls, u); }
  }

  lemma CachedIsTagged(urls: seq<Url>, u: Url)
    ensures u in TaggedUrls(urls) ==> IsTagged(u)
  {
    hide IsTagged;
  }

  // ----- exactly which paths are what -----

  predicate IsVersioned(path: string) {
    path == "/" || path == "/static" || path == "/app" || path == "/feed-item" || path == "/documents/report.txt"
  }

  predicate IsPlain(path: string) {
    || path == "/robots.txt" || path == "/sitemap.xml" || path == "/sitemap-pages.xml" || path == "/feed.xml"
    || path == "/.well-known/security.txt" || path == "/manifest.webmanifest"
    || path == "/api/app.json" || path == "/api/xhr" || path == "/artifact-download.txt" || path == "/artifact"
  }

  lemma RouteMeaning(path: string)
    ensures var k := Route(path);
            && (HasTag(k) <==> IsVersioned(path))
            && (k == Gone <==> path == "/gone")
            && (k == Missing <==> !IsVersioned(path) && !IsPlain(path) && path != "/gone")
  {}

  lemma RouteCounts(path: string)
    ensures var k := Route(path);
            && (k == Json <==> path == "/api/app.json")
            && (k == Xhr <==> path == "/api/xhr")
            && (k == Document <==> path == "/documents/report.txt")
            && (k == Artifact <==> path == "/artifact-download.txt")
  {}

  /** Not modified is answered exactly to a request for a versioned path that carries the current tag, without a
      body; gone and not found depend on the path alone, and everything else is served. */
  lemma RepliesIff(bodies: Bodies, path: string, ifNoneMatch: Option<string>)
    ensures var r := Reply(bodies, path, ifNoneMatch);
            var tag := "\"sa16-l18-v1\"";
            && (r.status == 304 <==> IsVersioned(path) && ifNoneMatch == Some(tag))
            && (r.status == 410 <==> path == "/gone")
            && (r.status == 404 <==> !IsVersioned(path) && !IsPlain(path) && path != "/gone")
            && (r.status == 200 || r.status == 304 || r.status == 404 || r.status == 410)
            && r.etag == (if IsVersioned(path) then Some(tag) else None)
            && r.body == (if r.status == 304 then "" else bodies(path))
  {
    RouteMeaning(path);
    hide Route, IsPlain, IsVersioned;
  }

  function Visits(urls: seq<Url>, path: string): nat {
    if urls == [] then 0 else Visits(urls[..|urls| - 1], path) + One(urls[|urls| - 1].path == path)
  }

  /** What both clients make the fixture count: each path has its own counter. */
  ghost predicate Counted(c: Counters, urls: seq<Url>) {
    && c.requests == |urls|
    && c.jsonHits == Visits(urls, "/api/app.json")
    && c.xhrHits == Visits(urls, "/api/xhr")
    && c.documentHits == Visits(urls, "/documents/report.txt")
    && c.artifactHits == Visits(urls, "/artifact-download.txt")
  }

  lemma CountedStep(c: Counters, urls: seq<Url>, u: Url, ifNoneMatch: Option<string>)
    requires Counted(c, urls)
    ensures Counted(Count(c, u.path, ifNoneMatch), urls + [u])
  {
    RouteCounts(u.path);
    VisitsStep(urls, u, "/api/app.json");
    VisitsStep(urls, u, "/api/xhr");
    VisitsStep(urls, u, "/documents/report.txt");
    VisitsStep(urls, u, "/artifact-download.txt");
    hide Route, ETAG, Visits;
  }

  lemma VisitsStep(urls: seq<Url>, u: Url, path: string)
    ensures Visits(urls + [u], path) == Visits(urls, path) + One(u.path == path)
  {
    assert (urls + [u])[..|urls|] == urls;
  }

  lemma {:induction false} CountersCount(bodies: Bodies, urls: seq<Url>)
    ensures Counted(RunPlain(bodies, urls).counters, urls) && Counted(RunCached(bodies, urls).counters, urls)
  {
    if urls != [] {
      hide Counted, Count, Reply, ETAG;
      var before, last := urls[..|urls| - 1], urls[|urls| - 1];
      assert urls == before + [last];
      CountersCount(bodies, before);
      var plain, cached := RunPlain(bodies, before), RunCached(bodies, before);
      CountedStep(plain.counters, before, last, None);
      var header := if last in cached.cache then Some(cached.cache[last].etag) else None;
      CountedStep(cached.counters, before, last, header);
    } else {
      hide Count, Reply, ETAG;
    }
  }

  /** A URL is versioned exactly when its path is. */
  lemma TaggedMeaning(u: Url)
    ensures IsTagged(u) <==> IsVersioned(u.path)
  {
    RouteMeaning(u.path);
    hide Route, IsVersioned;
  }
}
