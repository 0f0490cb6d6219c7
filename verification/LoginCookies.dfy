/** The controlled login server and a browser that keeps a cookie jar (sections 5.2.2, 5.3 and 5.4 of
    RFC 6265). */
module LoginCookies {
  import opened Counting
  import opened Forms
  import opened Options

  const SESSION := "sa16-l16-controlled-session"

  /** What the private page looks for anywhere in the Cookie header. */
  const PATTERN := "sid=" + SESSION

  predicate OccursAt(s: string, pattern: string, i: int) {
    0 <= i <= |s| - |pattern| && s[i..i + |pattern|] == pattern
  }

  predicate Contains(s: string, pattern: string) {
    exists i | 0 <= i <= |s| :: OccursAt(s, pattern, i)
  }

  // ----- the server -----

  datatype SetCookie = SetCookie(name: string, value: string, maxAge: Option<int>)

  datatype Page = LoginForm | Private | ToLogin | LoggedOut | ToPrivate | Refused | NotFound

  datatype Response = Response(page: Page, cookie: Option<SetCookie>)

  datatype Counters = Counters(loginSubmissions: nat, privateHits: nat, logoutHits: nat)

  const ZERO := Counters(0, 0, 0)

  /** The target up to its first question mark. */
  function PathOf(target: string): string {
    if target == "" || target[0] == '?' then "" else [target[0]] + PathOf(target[1..])
  }

  datatype Place = LoginPlace | PrivatePlace | LogoutPlace | NoPlace

  function Route(target: string): Place {
    var path := PathOf(target);
    if path == "/login" then LoginPlace
    else if path == "/private" then PrivatePlace
    else if path == "/logout" then LogoutPlace
    else NoPlace
  }

  datatype Request = Get(target: string) | Post(target: string, form: Fields)

  /** `expected` is the secret from the environment. */
  predicate Correct(form: Fields, expected: string) {
    First(form, "username") == "controlled-user" && First(form, "password") == expected
  }

  function Reply(expected: string, r: Request, cookies: string): Response {
    match r
    case Get(target) =>
      (match Route(target)
       case LoginPlace => Response(LoginForm, None)
       case PrivatePlace => Response(if Contains(cookies, PATTERN) then Private else ToLogin, None)
       case LogoutPlace => Response(LoggedOut, Some(SetCookie("sid", "", Some(0))))
       case NoPlace => Response(NotFound, None))
    case Post(target, form) =>
      if Route(target) != LoginPlace then Response(NotFound, None)
      else if !Correct(form, expected) then Response(Refused, None)
      else Response(ToPrivate, Some(SetCookie("sid", SESSION, None)))
  }

  function Count(c: Counters, r: Request, reply: Response): Counters {
    Counters(
      c.loginSubmissions + One(r.Post? && Route(r.target) == LoginPlace),
      c.privateHits + One(reply.page == Private),
      c.logoutHits + One(reply.page == LoggedOut))
  }

  class FixtureState {
    var loginSubmissions: nat
    var privateHits: nat
    var logoutHits: nat

    function View(): Counters
      reads this
    {
      Counters(loginSubmissions, privateHits, logoutHits)
    }

    constructor ()
      ensures View() == ZERO
    {
      loginSubmissions, privateHits, logoutHits := 0, 0, 0;
    }

    method PrivatePage(cookies: string) returns (r: Response)
      modifies this`privateHits
      ensures privateHits == old(privateHits) + One(r.page == Private)
      ensures r == Response(if Contains(cookies, PATTERN) then Private else ToLogin, None)
    {
      if !Contains(cookies, PATTERN) { return Response(ToLogin, None); }
      privateHits := privateHits + 1;
      r := Response(Private, None);
    }

    method DoGet(expected: string, target: string, cookies: string) returns (r: Response)
      modifies this
      ensures r == Reply(expected, Get(target), cookies)
      ensures View() == Count(old(View()), Get(target), r)
    {
      hide Route, Contains;
      match Route(target)
      case LoginPlace => r := Response(LoginForm, None);
      case PrivatePlace => r := PrivatePage(cookies);
      case LogoutPlace =>
        logoutHits := logoutHits + 1;
        r := Response(LoggedOut, Some(SetCookie("sid", "", Some(0))));
      case NoPlace => r := Response(NotFound, None);
    }

    method DoPost(expected: string, target: string, form: Fields, cookies: string) returns (r: Response)
      modifies this
      ensures r == Reply(expected, Post(target, form), cookies)
      ensures View() == Count(old(View()), Post(target, form), r)
    {
      hide Route, Correct;
      if Route(target) != LoginPlace { return Response(NotFound, None); }
      loginSubmissions := loginSubmissions + 1;
      if !Correct(form, expected) { return Response(Refused, None); }
      r := Response(ToPrivate, Some(SetCookie("sid", SESSION, None)));
    }
  }

  // ----- the browser -----

  datatype Cookie = Cookie(name: string, value: string)

  type Jar = seq<Cookie>

  function Text(c: Cookie): string { c.name + "=" + c.value }

  function Header(jar: Jar): string {
    if jar == [] then ""
    else if |jar| == 1 then Text(jar[0])
    else Text(jar[0]) + "; " + Header(jar[1..])
  }

  /** A cookie of the same name is replaced where it stands. */
  function Put(jar: Jar, c: Cookie): Jar {
    if jar == [] then [c]
    else if jar[0].name == c.name then [c] + jar[1..]
    else [jar[0]] + Put(jar[1..], c)
  }

  function Without(jar: Jar, name: string): Jar {
    if jar == [] then []
    else if jar[0].name == name then Without(jar[1..], name)
    else [jar[0]] + Without(jar[1..], name)
  }

  /** A Max-Age of zero or less expires the cookie at once. */
  function Receive(jar: Jar, c: SetCookie): Jar {
    if c.maxAge.Some? && c.maxAge.value <= 0 then Without(jar, c.name) else Put(jar, Cookie(c.name, c.value))
  }

  datatype World = World(counters: Counters, jar: Jar)

  function Visit(expected: string, w: World, r: Request): (World, Response) {
    var reply := Reply(expected, r, Header(w.jar));
    var jar := if reply.cookie.Some? then Receive(w.jar, reply.cookie.value) else w.jar;
    (World(Count(w.counters, r, reply), jar), reply)
  }

  function After(expected: string, jar: Jar, requests: seq<Request>): World {
    if requests == [] then World(ZERO, jar)
    else Visit(expected, After(expected, jar, requests[..|requests| - 1]), requests[|requests| - 1]).0
  }

  // ----- finding a cookie in the header -----

  lemma OccursInFirst(a: string, b: string, pattern: string, i: int)
    requires i + |pattern| <= |a|
    ensures OccursAt(a + "; " + b, pattern, i) <==> OccursAt(a, pattern, i)
  {
    if 0 <= i { assert (a + "; " + b)[i..i + |pattern|] == a[i..i + |pattern|]; }
  }

  lemma OccursInRest(a: string, b: string, pattern: string, i: int)
    requires i >= |a| + 2
    ensures OccursAt(a + "; " + b, pattern, i) <==> OccursAt(b, pattern, i - |a| - 2)
  {
    var j := i - |a| - 2;
    if j + |pattern| <= |b| { assert (a + "; " + b)[i..i + |pattern|] == b[j..j + |pattern|]; }
  }

  lemma OccursLetter(s: string, pattern: string, i: int, m: nat)
    requires OccursAt(s, pattern, i) && m < |pattern|
    ensures s[i + m] in pattern
  {
    assert s[i..i + |pattern|][m] == s[i + m];
  }

  /** The pattern cannot overlap the separator. */
  lemma NoStraddle(a: string, b: string, pattern: string, i: int)
    requires pattern != "" && ';' !in pattern && ' ' !in pattern && OccursAt(a + "; " + b, pattern, i)
    ensures i + |pattern| <= |a| || i >= |a| + 2
  {
    var s := a + "; " + b;
    assert s[|a|] == ';' && s[|a| + 1] == ' ';
    if i <= |a| < i + |pattern| { OccursLetter(s, pattern, i, |a| - i); }
    if i == |a| + 1 { OccursLetter(s, pattern, i, 0); }
  }

  lemma ContainsJoined(a: string, b: string, pattern: string)
    requires pattern != "" && ';' !in pattern && ' ' !in pattern
    ensures Contains(a + "; " + b, pattern) <==> Contains(a, pattern) || Contains(b, pattern)
  {
    var s := a + "; " + b;
    if Contains(a, pattern) {
      var i :| 0 <= i <= |a| && OccursAt(a, pattern, i);
      OccursInFirst(a, b, pattern, i);
    }
    if Contains(b, pattern) {
      var i :| 0 <= i <= |b| && OccursAt(b, pattern, i);
      OccursInRest(a, b, pattern, i + |a| + 2);
    }
    if Contains(s, pattern) {
      var i :| 0 <= i <= |s| && OccursAt(s, pattern, i);
      NoStraddle(a, b, pattern, i);
      if i + |pattern| <= |a| { OccursInFirst(a, b, pattern, i); } else { OccursInRest(a, b, pattern, i); }
    }
  }

  /** The header contains the pattern exactly when the text of some cookie does. */
  lemma {:induction false} HeaderContains(jar: Jar, pattern: string)
    requires pattern != "" && ';' !in pattern && ' ' !in pattern
    ensures Contains(Header(jar), pattern) <==> exists c :: c in jar && Contains(Text(c), pattern)
  {
    hide Contains, Text;
    if jar == [] {
      EmptyContains(pattern);
    } else if |jar| == 1 {
      assert jar[0] in jar;
      assert forall c | c in jar :: c == jar[0];
    } else {
      HeaderContains(jar[1..], pattern);
      ContainsJoined(Text(jar[0]), Header(jar[1..]), pattern);
      assert forall c :: c in jar <==> c == jar[0] || c in jar[1..];
    }
  }

  lemma EmptyContains(pattern: string)
    requires pattern != ""
    ensures !Contains("", pattern)
  {}

  lemma PatternPlain()
    ensures PATTERN != "" && ';' !in PATTERN && ' ' !in PATTERN
  {}

  /** The session cookie itself. */
  lemma SessionCookieContains()
    ensures Contains(Text(Cookie("sid", SESSION)), PATTERN)
  {
    assert Text(Cookie("sid", SESSION)) == PATTERN;
    assert OccursAt(PATTERN, PATTERN, 0);
  }

  /** In the header the cookies stand one after the other, with a semicolon and a blank between each two. */
  lemma {:induction false} HeaderJoin(a: Jar, b: Jar)
    requires a != [] && b != []
    ensures Header(a + b) == Header(a) + "; " + Header(b)
  {
    if |a| == 1 {
      assert (a + b)[1..] == b;
    } else {
      assert (a + b)[1..] == a[1..] + b;
      HeaderJoin(a[1..], b);
    }
  }

  // ----- runs -----

  predicate LogsIn(expected: string, r: Request) {
    r.Post? && Route(r.target) == LoginPlace && Correct(r.form, expected)
  }

  predicate LogsOut(r: Request) { r.Get? && Route(r.target) == LogoutPlace }

  /** A login has succeeded and no logout has come after it. */
  predicate LoggedIn(expected: string, requests: seq<Request>) {
    if requests == [] then false
    else
      var last := requests[|requests| - 1];
      LogsIn(expected, last) || (!LogsOut(last) && LoggedIn(expected, requests[..|requests| - 1]))
  }

  /** Some session cookie of the jar passes for logged in. */
  ghost predicate HoldsSession(jar: Jar) {
    exists c :: c in jar && c.name == "sid" && Contains(Text(c), PATTERN)
  }

  /** No other cookie passes for one. */
  ghost predicate OthersClean(jar: Jar) {
    forall c | c in jar && Contains(Text(c), PATTERN) :: c.name == "sid"
  }

  lemma {:induction false} PutContents(jar: Jar, c: Cookie)
    ensures c in Put(jar, c)
    ensures forall d | d in Put(jar, c) :: d == c || d in jar
  {
    if jar != [] && jar[0].name != c.name {
      PutContents(jar[1..], c);
      assert Put(jar, c)[1..] == Put(jar[1..], c);
    }
  }

  lemma {:induction false} WithoutContents(jar: Jar, name: string)
    ensures forall d :: d in Without(jar, name) <==> d in jar && d.name != name
  {
    if jar != [] { WithoutContents(jar[1..], name); }
  }

  /** No two cookies of the jar share a name. */
  predicate NamesDiffer(jar: Jar) { forall i, j | 0 <= i < j < |jar| :: jar[i].name != jar[j].name }

  lemma {:induction false} PutKeepsOthers(jar: Jar, c: Cookie)
    ensures Without(Put(jar, c), c.name) == Without(jar, c.name)
    ensures NamesDiffer(jar) ==> NamesDiffer(Put(jar, c))
  {
    if jar == [] {
      assert [c][1..] == [];
    } else if jar[0].name == c.name {
      assert Put(jar, c)[1..] == jar[1..];
    } else {
      PutKeepsOthers(jar[1..], c);
      PutContents(jar[1..], c);
      assert Put(jar, c)[1..] == Put(jar[1..], c);
      if NamesDiffer(jar) {
        assert NamesDiffer(jar[1..]);
        forall j | 1 <= j < |Put(jar, c)| ensures Put(jar, c)[j].name != jar[0].name {
          assert Put(jar, c)[j] in Put(jar[1..], c);
        }
      }
    }
  }

  lemma {:induction false} WithoutKeepsOthers(jar: Jar, name: string)
    ensures Without(Without(jar, name), name) == Without(jar, name)
    ensures NamesDiffer(jar) ==> NamesDiffer(Without(jar, name))
  {
    if jar != [] {
      WithoutKeepsOthers(jar[1..], name);
      if jar[0].name != name {
        WithoutContents(jar[1..], name);
        var w := Without(jar, name);
        assert w[1..] == Without(jar[1..], name);
        if NamesDiffer(jar) {
          assert NamesDiffer(jar[1..]);
          forall j | 1 <= j < |w| ensures w[j].name != jar[0].name { assert w[j] in Without(jar[1..], name); }
        }
      } else {
        assert NamesDiffer(jar) ==> NamesDiffer(jar[1..]);
      }
    }
  }

  lemma VisitKeepsOthers(expected: string, w: World, r: Request)
    ensures var jar := Visit(expected, w, r).0.jar;
            Without(jar, "sid") == Without(w.jar, "sid") && (NamesDiffer(w.jar) ==> NamesDiffer(jar))
  {
    PutKeepsOthers(w.jar, Cookie("sid", SESSION));
    WithoutKeepsOthers(w.jar, "sid");
    hide Put, Without, NamesDiffer, Route, Correct, Contains, Header, SESSION, PATTERN;
  }

  /** In every run the cookies of other names stay as they are, and there is at most one session cookie. */
  lemma {:induction false} OtherCookiesKept(expected: string, jar: Jar, requests: seq<Request>)
    requires NamesDiffer(jar)
    ensures var w := After(expected, jar, requests);
            Without(w.jar, "sid") == Without(jar, "sid") && NamesDiffer(w.jar)
  {
    hide Visit, Without, NamesDiffer;
    if requests != [] {
      OtherCookiesKept(expected, jar, requests[..|requests| - 1]);
      VisitKeepsOthers(expected, After(expected, jar, requests[..|requests| - 1]), requests[|requests| - 1]);
    }
  }

  lemma LoginKeeps(expected: string, w: World, r: Request)
    requires OthersClean(w.jar) && LogsIn(expected, r)
    ensures var (n, reply) := Visit(expected, w, r); OthersClean(n.jar) && HoldsSession(n.jar)
  {
    SessionCookieContains();
    PutContents(w.jar, Cookie("sid", SESSION));
    hide Contains, Text, Put, Route, PATTERN, SESSION;
  }

  lemma LogoutKeeps(expected: string, w: World, r: Request)
    requires OthersClean(w.jar) && LogsOut(r)
    ensures var (n, reply) := Visit(expected, w, r); OthersClean(n.jar) && !HoldsSession(n.jar)
  {
    WithoutContents(w.jar, "sid");
    hide Contains, Text, Without, Route, PATTERN, SESSION;
  }

  lemma OtherRequestKeeps(expected: string, w: World, r: Request)
    requires !LogsIn(expected, r) && !LogsOut(r)
    ensures Visit(expected, w, r).0.jar == w.jar
  {
    hide Contains, Route, Correct, Header;
  }

  lemma {:induction false} JarFollowsLogin(expected: string, jar: Jar, requests: seq<Request>)
    requires forall c | c in jar :: !Contains(Text(c), PATTERN)
    ensures var w := After(expected, jar, requests);
            OthersClean(w.jar) && (HoldsSession(w.jar) <==> LoggedIn(expected, requests))
  {
    if requests != [] {
      var before, last := requests[..|requests| - 1], requests[|requests| - 1];
      JarFollowsLogin(expected, jar, before);
      var w := After(expected, jar, before);
      hide Visit, LogsIn, LogsOut, OthersClean, HoldsSession, Contains, Text;
      if LogsIn(expected, last) {
        LoginKeeps(expected, w, last);
      } else if LogsOut(last) {
        LogoutKeeps(expected, w, last);
      } else {
        OtherRequestKeeps(expected, w, last);
      }
    }
  }

  lemma PrivateIff(expected: string, r: Request, jar: Jar)
    requires OthersClean(jar)
    ensures Reply(expected, r, Header(jar)).page == Private <==>
            r.Get? && Route(r.target) == PrivatePlace && HoldsSession(jar)
  {
    PatternPlain();
    HeaderContains(jar, PATTERN);
    hide Contains, Text, Route, PATTERN, SESSION, Header, Correct;
  }

  /** From a jar in which no cookie passes for a session, the private page is served exactly to the requests
      for it between a successful login and the next logout. */
  lemma PrivateOnlyWhenLoggedIn(expected: string, jar: Jar, requests: seq<Request>, r: Request)
    requires forall c | c in jar :: !Contains(Text(c), PATTERN)
    ensures Visit(expected, After(expected, jar, requests), r).1.page == Private <==>
            r.Get? && Route(r.target) == PrivatePlace && LoggedIn(expected, requests)
  {
    JarFollowsLogin(expected, jar, requests);
    PrivateIff(expected, r, After(expected, jar, requests).jar);
    hide Reply, Header, HoldsSession, OthersClean, Contains, Text, Route, After, LoggedIn;
  }

  /** The server searches the whole header, so where some cookie passes for a session the private page is
      served at once. */
  lemma PassingCookieServed(expected: string, jar: Jar, c: Cookie)
    requires c in jar && Contains(Text(c), PATTERN)
    ensures Reply(expected, Get("/private"), Header(jar)).page == Private
  {
    PatternPlain();
    HeaderContains(jar, PATTERN);
    PrivateRoute();
    hide Contains, Route, PATTERN, SESSION, Text, Header;
  }

  /** After the given requests, r gets the private page precisely if it asks for it between a successful login
      and the next logout. */
  predicate ServedRight(expected: string, jar: Jar, requests: seq<Request>, r: Request) {
    Visit(expected, After(expected, jar, requests), r).1.page == Private <==>
    r.Get? && Route(r.target) == PrivatePlace && LoggedIn(expected, requests)
  }

  /** The condition on the jar is exact: every request of every run is served right if and only if no cookie of
      the jar passes for a session beforehand. */
  lemma PrivateOnlyIff(expected: string, jar: Jar)
    ensures (forall c | c in jar :: !Contains(Text(c), PATTERN)) <==>
            (forall requests, r :: ServedRight(expected, jar, requests, r))
  {
    hide Contains, Text, Route, Reply, Header, PATTERN, SESSION;
    if forall c | c in jar :: !Contains(Text(c), PATTERN) {
      forall requests, r ensures ServedRight(expected, jar, requests, r) {
        PrivateOnlyWhenLoggedIn(expected, jar, requests, r);
      }
    } else {
      var c :| c in jar && Contains(Text(c), PATTERN);
      PassingCookieServed(expected, jar, c);
      assert After(expected, jar, []) == World(ZERO, jar) && !LoggedIn(expected, []);
      assert !ServedRight(expected, jar, [], Get("/private"));
    }
  }

  /** Such a cookie can have another name. */
  lemma OtherCookieServed(expected: string)
    ensures var jar := [Cookie("xsid", SESSION)];
            Reply(expected, Get("/private"), Header(jar)).page == Private
  {
    var header := Text(Cookie("xsid", SESSION));
    assert header[1..] == PATTERN;
    assert OccursAt(header, PATTERN, 1);
    assert Route("/private") == PrivatePlace by { PrivateRoute(); }
    hide Contains, Route, PATTERN, SESSION, Text;
  }

  lemma PrivateRoute()
    ensures Route("/private") == PrivatePlace
  {
    var path := "/private";
    NoQuery(path);
  }

  lemma {:induction false} NoQuery(target: string)
    requires '?' !in target
    ensures PathOf(target) == target
  {
    if target != "" { NoQuery(target[1..]); }
  }

  function Successes(expected: string, requests: seq<Request>): nat {
    if requests == [] then 0
    else Successes(expected, requests[..|requests| - 1]) + One(LogsIn(expected, requests[|requests| - 1]))
  }

  /** Successful logins never exceed the submissions the server has counted. */
  lemma {:induction false} SuccessesCounted(expected: string, jar: Jar, requests: seq<Request>)
    ensures Successes(expected, requests) <= After(expected, jar, requests).counters.loginSubmissions
  {
    if requests != [] {
      SuccessesCounted(expected, jar, requests[..|requests| - 1]);
      hide Correct, Route, Reply, Header;
    }
  }

  // ----- exactly which requests log in and out -----

  /** A text contains another where it is that text with something before and after it. */
  lemma ContainsMeaning(s: string, pattern: string)
    ensures Contains(s, pattern) <==> exists u, v :: s == u + pattern + v
  {
    if Contains(s, pattern) {
      var i :| 0 <= i <= |s| && OccursAt(s, pattern, i);
      assert s == s[..i] + pattern + s[i + |pattern|..];
    }
    if u, v :| s == u + pattern + v {
      assert s[|u|..|u| + |pattern|] == pattern;
      assert OccursAt(s, pattern, |u|);
    }
  }

  /** The path is the target without its query. */
  lemma {:induction false} PathMeaning(path: string, query: string)
    requires '?' !in path
    ensures PathOf(path) == path && PathOf(path + "?" + query) == path
  {
    NoQuery(path);
    if path != "" {
      assert path[0] in path && (path + "?" + query)[1..] == path[1..] + "?" + query;
      PathMeaning(path[1..], query);
    }
  }

  predicate IsGet(r: Request, path: string) { r.Get? && PathOf(r.target) == path }

  predicate IsPost(r: Request, path: string) { r.Post? && PathOf(r.target) == path }

  /** A submission of the right name and password. */
  predicate SubmitsSecret(expected: string, r: Request) {
    && IsPost(r, "/login")
    && First(r.form, "username") == "controlled-user" && First(r.form, "password") == expected
  }

  /** Which request gets which page, whatever cookies come with it. */
  lemma PagesIff(expected: string, r: Request, cookies: string)
    ensures var page := Reply(expected, r, cookies).page;
            && (page == LoginForm <==> IsGet(r, "/login"))
            && (page == Private || page == ToLogin <==> IsGet(r, "/private"))
            && (page == LoggedOut <==> IsGet(r, "/logout"))
            && (page == ToPrivate <==> SubmitsSecret(expected, r))
            && (page == Refused <==> IsPost(r, "/login") && !SubmitsSecret(expected, r))
  {
    hide PathOf, Contains, First, SESSION, PATTERN;
  }

  /** Only these two requests set a cookie: the right submission the session, the logout an expired one. */
  lemma CookiesIff(expected: string, r: Request, cookies: string)
    ensures var cookie := Reply(expected, r, cookies).cookie;
            && (cookie.Some? <==> SubmitsSecret(expected, r) || IsGet(r, "/logout"))
            && (SubmitsSecret(expected, r) ==>
                  cookie == Some(SetCookie("sid", "sa16-l16-controlled-session", None)))
            && (IsGet(r, "/logout") ==> cookie == Some(SetCookie("sid", "", Some(0))))
  {
    hide PathOf, Contains, First, PATTERN;
  }

  lemma LogsMeaning(expected: string, r: Request)
    ensures LogsIn(expected, r) <==> SubmitsSecret(expected, r)
    ensures LogsOut(r) <==> IsGet(r, "/logout")
    ensures r.Get? && Route(r.target) == PrivatePlace <==> IsGet(r, "/private")
  {
    hide PathOf, First;
  }

  /** Request i submits the secret, and there is no logout after it. */
  ghost predicate LastLogin(expected: string, requests: seq<Request>, i: nat) {
    i < |requests| && SubmitsSecret(expected, requests[i]) &&
    forall j | i < j < |requests| :: !IsGet(requests[j], "/logout")
  }

  lemma LastLoginStep(expected: string, requests: seq<Request>, last: Request, i: nat)
    ensures LastLogin(expected, requests + [last], i) <==>
            if i == |requests| then SubmitsSecret(expected, last)
            else LastLogin(expected, requests, i) && !IsGet(last, "/logout")
  {
    hide SubmitsSecret, IsGet;
    var all := requests + [last];
    assert forall j | 0 <= j < |requests| :: all[j] == requests[j];
    if i < |requests| { assert all[|requests|] == last; }
  }

  /** Being logged in is having submitted the right name and password with no logout since. */
  lemma {:induction false} LoggedInMeaning(expected: string, requests: seq<Request>)
    ensures LoggedIn(expected, requests) <==> exists i :: LastLogin(expected, requests, i)
  {
    hide LogsIn, LogsOut, SubmitsSecret, IsGet;
    if requests != [] {
      var before, last := requests[..|requests| - 1], requests[|requests| - 1];
      assert requests == before + [last];
      LoggedInMeaning(expected, before);
      LogsMeaning(expected, last);
      DifferentRequests(expected, last);
      forall i: nat
        ensures LastLogin(expected, requests, i) <==>
                if i == |before| then SubmitsSecret(expected, last)
                else LastLogin(expected, before, i) && !IsGet(last, "/logout")
      {
        LastLoginStep(expected, before, last, i);
      }
      hide LastLogin;
      if SubmitsSecret(expected, last) { assert LastLogin(expected, requests, |before|); }
      if LoggedIn(expected, before) && !IsGet(last, "/logout") {
        var i: nat :| LastLogin(expected, before, i);
        assert i != |before| by { LastLoginBound(expected, before, i); }
        assert LastLogin(expected, requests, i);
      }
    }
  }

  lemma LastLoginBound(expected: string, requests: seq<Request>, i: nat)
    requires LastLogin(expected, requests, i)
    ensures i < |requests|
  {}

  lemma DifferentRequests(expected: string, r: Request)
    ensures SubmitsSecret(expected, r) ==> !IsGet(r, "/logout")
  {}

  function Submissions(requests: seq<Request>): nat {
    if requests == [] then 0
    else Submissions(requests[..|requests| - 1]) + One(IsPost(requests[|requests| - 1], "/login"))
  }

  function Logouts(requests: seq<Request>): nat {
    if requests == [] then 0
    else Logouts(requests[..|requests| - 1]) + One(IsGet(requests[|requests| - 1], "/logout"))
  }

  /** The requests for the private page that come while logged in. */
  function Hits(expected: string, requests: seq<Request>): nat {
    if requests == [] then 0
    else
      var before, last := requests[..|requests| - 1], requests[|requests| - 1];
      Hits(expected, before) + One(IsGet(last, "/private") && LoggedIn(expected, before))
  }

  /** In every run the counters count the submissions, the private pages served to who is logged in, and the
      logouts. */
  lemma {:induction false} CountersCount(expected: string, jar: Jar, requests: seq<Request>)
    requires forall c | c in jar :: !Contains(Text(c), PATTERN)
    ensures After(expected, jar, requests).counters ==
            Counters(Submissions(requests), Hits(expected, requests), Logouts(requests))
  {
    hide Contains, Text, PATTERN, SESSION, Reply, LoggedIn, IsGet, IsPost, Route, Put, Without, Header;
    if requests != [] {
      var before, last := requests[..|requests| - 1], requests[|requests| - 1];
      CountersCount(expected, jar, before);
      var w := After(expected, jar, before);
      PrivateOnlyWhenLoggedIn(expected, jar, before, last);
      PagesIff(expected, last, Header(w.jar));
      LogsMeaning(expected, last);
      LoginRoute(last);
    }
  }

  lemma LoginRoute(r: Request)
    ensures r.Post? && Route(r.target) == LoginPlace <==> IsPost(r, "/login")
  {
    hide PathOf;
  }
}
