/** The controlled OAuth provider: authorization code with PKCE (sections 4.1 of RFC 6749, 4.2 and 4.6 of
    RFC 7636).  One HTTP request is one step; the S256 hash is a parameter that raises on some verifiers. */
module OAuthFixture {
  import opened Counting
  import opened Forms
  import opened Options

  const CALLBACK := "http://127.0.0.1:18777/oauth/callback"
  const CLIENT_ID := "cip-controlled-public-client"
  const AUTH_CODE := "controlled-one-time-authorization-code"
  const ACCESS_TOKEN := "controlled-l17-access-token"

  type Hash = string -> Option<string>

  /** No challenge is empty. */
  ghost predicate Proper(hash: Hash) { forall v :: hash(v) != Some("") }

  datatype Request =
    | Get(path: string, query: Fields, authorization: Option<string>)
    | Post(path: string, form: Fields)

  datatype Event = Request(request: Request) | Reset

  datatype Response =
    | Consent | InvalidRequest
    | Redirect(uri: string, code: string, state: string) | ContextMissing
    | Complete
    | Authorized | Unauthorized
    | Granted(token: string) | InvalidGrant
    | NotFound
    | Raised
    | Silence

  datatype State = State(
    state: string, redirectUri: string, challenge: string,
    approvals: nat, tokenPosts: nat, privateHits: nat, consumed: bool)

  const INIT := State("", "", "", 0, 0, 0, false)

  // ----- the handlers -----

  datatype Page = AuthorizePage | ApprovePage | CallbackPage | PrivatePage | TokenPage | NoPage

  function GetPage(path: string): Page {
    if path == "/oauth/authorize" then AuthorizePage
    else if path == "/oauth/approve" then ApprovePage
    else if path == "/oauth/callback" then CallbackPage
    else if path == "/private" then PrivatePage
    else NoPage
  }

  function PostPage(path: string): Page { if path == "/oauth/token" then TokenPage else NoPage }

  predicate Acceptable(values: Fields) {
    && First(values, "response_type") == "code"
    && First(values, "client_id") == CLIENT_ID
    && First(values, "scope") == "read"
    && First(values, "code_challenge_method") == "S256"
    && First(values, "redirect_uri") == CALLBACK
    && |First(values, "state")| >= 16
    && First(values, "code_challenge") != ""
  }

  /** The part of the token check that comes before the hash is computed. */
  predicate Presentable(s: State, form: Fields) {
    && First(form, "grant_type") == "authorization_code"
    && First(form, "code") == AUTH_CODE
    && First(form, "client_id") == CLIENT_ID
    && First(form, "redirect_uri") == s.redirectUri
  }

  function Authorize(s: State, values: Fields): (State, Response) {
    if !Acceptable(values) then (s, InvalidRequest)
    else
      (s.(state := First(values, "state"), redirectUri := First(values, "redirect_uri"),
          challenge := First(values, "code_challenge")),
       Consent)
  }

  function Approve(s: State): (State, Response) {
    if s.state == "" || s.redirectUri == "" then (s, ContextMissing)
    else (s.(approvals := s.approvals + 1), Redirect(s.redirectUri, AUTH_CODE, s.state))
  }

  function Private(s: State, authorization: Option<string>): (State, Response) {
    if authorization != Some("Bearer " + ACCESS_TOKEN) then (s, Unauthorized)
    else (s.(privateHits := s.privateHits + 1), Authorized)
  }

  function Token(hash: Hash, s: State, form: Fields): (State, Response) {
    var next := s.(tokenPosts := s.tokenPosts + 1);
    if !Presentable(s, form) then (next, InvalidGrant)
    else
      match hash(First(form, "code_verifier"))
      case None => (next, Raised)
      case Some(challenge) =>
        if challenge == s.challenge && !s.consumed then (next.(consumed := true), Granted(ACCESS_TOKEN))
        else (next, InvalidGrant)
  }

  function Handle(hash: Hash, s: State, r: Request): (State, Response) {
    match r
    case Get(path, query, authorization) =>
      (match GetPage(path)
       case AuthorizePage => Authorize(s, query)
       case ApprovePage => Approve(s)
       case CallbackPage => (s, Complete)
       case PrivatePage => Private(s, authorization)
       case _ => (s, NotFound))
    case Post(path, form) =>
      (match PostPage(path)
       case TokenPage => Token(hash, s, form)
       case _ => (s, NotFound))
  }

  function Next(hash: Hash, s: State, e: Event): (State, Response) {
    match e
    case Reset => (INIT, Silence)
    case Request(r) => Handle(hash, s, r)
  }

  // ----- the handlers as they run -----

  class FixtureState {
    var state: string
    var redirectUri: string
    var challenge: string
    var approvals: nat
    var tokenPosts: nat
    var privateHits: nat
    var consumed: bool

    function View(): State
      reads this
    {
      State(state, redirectUri, challenge, approvals, tokenPosts, privateHits, consumed)
    }

    constructor ()
      ensures View() == INIT
    {
      state, redirectUri, challenge := "", "", "";
      approvals, tokenPosts, privateHits, consumed := 0, 0, 0, false;
    }

    method ResetFixture()
      modifies this
      ensures View() == INIT
    {
      state := "";
      redirectUri := "";
      challenge := "";
      approvals := 0;
      tokenPosts := 0;
      privateHits := 0;
      consumed := false;
    }

    method DoAuthorize(values: Fields) returns (r: Response)
      modifies this
      ensures (View(), r) == Authorize(old(View()), values)
    {
      if !Acceptable(values) { return InvalidRequest; }
      state := First(values, "state");
      redirectUri := First(values, "redirect_uri");
      challenge := First(values, "code_challenge");
      r := Consent;
    }

    method DoApprove() returns (r: Response)
      modifies this
      ensures (View(), r) == Approve(old(View()))
    {
      if state == "" || redirectUri == "" { return ContextMissing; }
      approvals := approvals + 1;
      r := Redirect(redirectUri, AUTH_CODE, state);
    }

    method DoPrivate(authorization: Option<string>) returns (r: Response)
      modifies this
      ensures (View(), r) == Private(old(View()), authorization)
    {
      if authorization != Some("Bearer " + ACCESS_TOKEN) { return Unauthorized; }
      privateHits := privateHits + 1;
      r := Authorized;
    }

    method DoToken(hash: Hash, form: Fields) returns (r: Response)
      modifies this
      ensures (View(), r) == Token(hash, old(View()), form)
    {
      hide Presentable;
      ghost var before := View();
      tokenPosts := tokenPosts + 1;
      PresentableSame(before, View(), form);
      var valid := Presentable(View(), form);
      if valid {
        match hash(First(form, "code_verifier"))
        case None => return Raised;
        case Some(hashed) => valid := hashed == challenge && !consumed;
      }
      if !valid { return InvalidGrant; }
      consumed := true;
      r := Granted(ACCESS_TOKEN);
    }

    method DoGet(hash: Hash, path: string, query: Fields, authorization: Option<string>) returns (r: Response)
      modifies this
      ensures (View(), r) == Handle(hash, old(View()), Get(path, query, authorization))
    {
      hide GetPage, Authorize, Approve, Private;
      match GetPage(path)
      case AuthorizePage => r := DoAuthorize(query);
      case ApprovePage => r := DoApprove();
      case CallbackPage => r := Complete;
      case PrivatePage => r := DoPrivate(authorization);
      case _ => r := NotFound;
    }

    method DoPost(hash: Hash, path: string, form: Fields) returns (r: Response)
      modifies this
      ensures (View(), r) == Handle(hash, old(View()), Post(path, form))
    {
      hide PostPage, Token;
      match PostPage(path)
      case TokenPage => r := DoToken(hash, form);
      case _ => r := NotFound;
    }
  }

  lemma PresentableSame(s: State, n: State, form: Fields)
    requires s.redirectUri == n.redirectUri
    ensures Presentable(s, form) <==> Presentable(n, form)
  {}

  // ----- runs -----

  function After(hash: Hash, events: seq<Event>): State {
    if events == [] then INIT
    else Next(hash, After(hash, events[..|events| - 1]), events[|events| - 1]).0
  }

  function ResponseAt(hash: Hash, events: seq<Event>, i: nat): Response
    requires i < |events|
  {
    Next(hash, After(hash, events[..i]), events[i]).1
  }

  lemma AfterStep(hash: Hash, events: seq<Event>, i: nat)
    requires i < |events|
    ensures After(hash, events[..i + 1]) == Next(hash, After(hash, events[..i]), events[i]).0
  {
    assert events[..i + 1][..i] == events[..i];
  }

  /** Event i is an authorization request that is accepted. */
  predicate Accepted(e: Event) {
    e.Request? && e.request.Get? && GetPage(e.request.path) == AuthorizePage && Acceptable(e.request.query)
  }

  /** Event k is the latest accepted authorization before event i, with no reset after it. */
  ghost predicate Latest(events: seq<Event>, k: nat, i: nat)
    requires i <= |events|
  {
    k < i && Accepted(events[k]) && forall j | k < j < i :: !Accepted(events[j]) && events[j] != Reset
  }

  /** The latest accepted authorization before event i since the last reset, if any. */
  function LatestAccepted(events: seq<Event>, i: nat): Option<nat>
    requires i <= |events|
  {
    if i == 0 then None
    else if Accepted(events[i - 1]) then Some(i - 1)
    else if events[i - 1] == Reset then None
    else LatestAccepted(events, i - 1)
  }

  lemma {:induction false} LatestMeaning(events: seq<Event>, i: nat, k: nat)
    requires i <= |events|
    ensures LatestAccepted(events, i) == Some(k) <==> Latest(events, k, i)
    ensures LatestAccepted(events, i).Some? ==> LatestAccepted(events, i).value < i
    ensures LatestAccepted(events, i).Some? ==> Accepted(events[LatestAccepted(events, i).value])
  {
    hide Accepted;
    if i > 0 {
      LatestMeaning(events, i - 1, k);
      if Accepted(events[i - 1]) || events[i - 1] == Reset {
        assert Latest(events, k, i) ==> k == i - 1;
      } else {
        assert Latest(events, k, i) <==> Latest(events, k, i - 1);
      }
    }
  }

  function Field(e: Event, key: string): string
    requires Accepted(e)
  {
    First(e.request.query, key)
  }

  /** State, redirect URI and challenge are those of the latest accepted authorization, or all empty. */
  ghost predicate ContextOf(s: State, e: Event)
    requires Accepted(e)
  {
    && s.state == Field(e, "state") && |s.state| >= 16
    && s.redirectUri == CALLBACK
    && s.challenge == Field(e, "code_challenge") && s.challenge != ""
  }

  predicate NoContext(s: State) { s.state == "" && s.redirectUri == "" && s.challenge == "" }

  /** A step that neither accepts an authorization nor resets leaves the context alone. */
  lemma ContextKept(hash: Hash, s: State, e: Event)
    requires !Accepted(e) && e != Reset
    ensures var n := Next(hash, s, e).0;
            n.state == s.state && n.redirectUri == s.redirectUri && n.challenge == s.challenge
  {
    hide GetPage, PostPage, Acceptable, Presentable;
  }

  lemma ContextSet(hash: Hash, s: State, e: Event)
    requires Accepted(e)
    ensures ContextOf(Next(hash, s, e).0, e)
    ensures Next(hash, s, e).1 == Consent
  {
    hide GetPage;
  }

  lemma {:induction false} ContextIsLatest(hash: Hash, events: seq<Event>, i: nat)
    requires i <= |events|
    ensures match LatestAccepted(events, i)
            case None => NoContext(After(hash, events[..i]))
            case Some(k) => k < i && Accepted(events[k]) && ContextOf(After(hash, events[..i]), events[k])
  {
    if i > 0 {
      ContextIsLatest(hash, events, i - 1);
      AfterStep(hash, events, i - 1);
      var s, e := After(hash, events[..i - 1]), events[i - 1];
      hide Accepted, ContextOf, NoContext, Next, After, Latest;
      if Accepted(e) {
        ContextSet(hash, s, e);
      } else if e == Reset {
        ResetForgets(hash, s);
      } else {
        ContextKept(hash, s, e);
        SameContext(s, Next(hash, s, e).0);
      }
    }
  }

  lemma ResetForgets(hash: Hash, s: State)
    ensures NoContext(Next(hash, s, Reset).0)
  {}

  lemma SameContext(s: State, n: State)
    requires n.state == s.state && n.redirectUri == s.redirectUri && n.challenge == s.challenge
    ensures NoContext(s) <==> NoContext(n)
    ensures forall e | Accepted(e) :: ContextOf(s, e) <==> ContextOf(n, e)
  {
    hide Accepted, Field;
  }

  /** In every run the three context fields are all empty or all set. */
  lemma ContextAllOrNothing(hash: Hash, events: seq<Event>, i: nat)
    requires i <= |events|
    ensures var s := After(hash, events[..i]);
            (s.state == "" <==> s.redirectUri == "") && (s.redirectUri == "" <==> s.challenge == "")
  {
    ContextIsLatest(hash, events, i);
    assert CALLBACK[0] == 'h';
    hide Accepted, Next, After, Latest;
  }

  lemma ApprovalIsEcho(hash: Hash, s: State, e: Event)
    requires Next(hash, s, e).1.Redirect?
    ensures s.state != "" && s.redirectUri != ""
    ensures Next(hash, s, e).1 == Redirect(s.redirectUri, AUTH_CODE, s.state)
  {
    hide GetPage, PostPage, Acceptable, Presentable, AUTH_CODE;
  }

  /** Every approval echoes the state of the latest accepted authorization, to the registered callback. */
  lemma ApprovalEchoesLatest(hash: Hash, events: seq<Event>, i: nat)
    requires i < |events| && ResponseAt(hash, events, i).Redirect?
    ensures var k := LatestAccepted(events, i);
            && k.Some? && k.value < i && Accepted(events[k.value])
            && ResponseAt(hash, events, i) == Redirect(CALLBACK, AUTH_CODE, Field(events[k.value], "state"))
  {
    ContextIsLatest(hash, events, i);
    ApprovalIsEcho(hash, After(hash, events[..i]), events[i]);
    hide Accepted, After, Next, Field, CALLBACK, AUTH_CODE, LatestAccepted;
  }

  lemma GrantIsToken(hash: Hash, s: State, e: Event)
    requires Next(hash, s, e).1.Granted?
    ensures e.Request? && e.request.Post? && Presentable(s, e.request.form)
    ensures hash(First(e.request.form, "code_verifier")) == Some(s.challenge)
    ensures !s.consumed && Next(hash, s, e).0.consumed && Next(hash, s, e).1 == Granted(ACCESS_TOKEN)
  {
    hide GetPage, PostPage, Acceptable, Presentable, ACCESS_TOKEN;
  }

  /** At issue time the verifier hashes to the challenge of the latest accepted authorization, and the
      client, the redirect URI and the code are the right ones. */
  lemma GrantMatchesChallenge(hash: Hash, events: seq<Event>, i: nat)
    requires Proper(hash) && i < |events| && ResponseAt(hash, events, i).Granted?
    ensures var k := LatestAccepted(events, i);
            && events[i].Request? && events[i].request.Post?
            && k.Some? && k.value < i && Accepted(events[k.value])
            && var form := events[i].request.form;
               && hash(First(form, "code_verifier")) == Some(Field(events[k.value], "code_challenge"))
               && First(form, "redirect_uri") == CALLBACK
               && First(form, "client_id") == CLIENT_ID && First(form, "code") == AUTH_CODE
               && First(form, "grant_type") == "authorization_code"
  {
    ContextIsLatest(hash, events, i);
    GrantIsToken(hash, After(hash, events[..i]), events[i]);
    hide Accepted, After, Next, Field, CALLBACK, CLIENT_ID, AUTH_CODE, First, LatestAccepted;
  }

  // ----- what the counters count -----

  /** Approvals, token requests, private hits and issued tokens. */
  datatype Tally = Tally(approvals: nat, tokenPosts: nat, privateHits: nat, grants: nat)

  predicate IsTokenPost(e: Event) {
    e.Request? && e.request.Post? && PostPage(e.request.path) == TokenPage
  }

  /** What happened since the last reset before event i, read off the responses. */
  function TallySince(hash: Hash, events: seq<Event>, i: nat): Tally
    requires i <= |events|
  {
    if i == 0 || events[i - 1] == Reset then Tally(0, 0, 0, 0)
    else
      var t, r := TallySince(hash, events, i - 1), ResponseAt(hash, events, i - 1);
      Tally(t.approvals + One(r.Redirect?), t.tokenPosts + One(IsTokenPost(events[i - 1])),
            t.privateHits + One(r.Authorized?), t.grants + One(r.Granted?))
  }

  lemma StepCounts(hash: Hash, s: State, e: Event)
    requires e != Reset
    ensures var (n, r) := Next(hash, s, e);
            && n.approvals == s.approvals + One(r.Redirect?)
            && n.tokenPosts == s.tokenPosts + One(IsTokenPost(e))
            && n.privateHits == s.privateHits + One(r.Authorized?)
            && One(n.consumed) == One(s.consumed) + One(r.Granted?)
  {
    hide GetPage, PostPage, Acceptable, Presentable;
  }

  /** Between resets at most one token is ever issued, `consumed` holds exactly when one was, and the three
      counters count what they are named after. */
  lemma {:induction false} CountersCount(hash: Hash, events: seq<Event>, i: nat)
    requires i <= |events|
    ensures var s, t := After(hash, events[..i]), TallySince(hash, events, i);
            && s.approvals == t.approvals && s.tokenPosts == t.tokenPosts && s.privateHits == t.privateHits
            && t.grants == One(s.consumed) && t.grants <= 1
  {
    if i > 0 {
      CountersCount(hash, events, i - 1);
      AfterStep(hash, events, i - 1);
      if events[i - 1] != Reset {
        StepCounts(hash, After(hash, events[..i - 1]), events[i - 1]);
        hide Next, After, IsTokenPost;
      }
    }
  }

  /** Two issued tokens always have a reset between them. */
  lemma {:induction false} OneTokenPerReset(hash: Hash, events: seq<Event>, i: nat, j: nat)
    requires i < j < |events|
    ensures ResponseAt(hash, events, i).Granted? && ResponseAt(hash, events, j).Granted? ==>
              exists k :: i < k < j && events[k] == Reset
  {
    var both := ResponseAt(hash, events, i).Granted? && ResponseAt(hash, events, j).Granted?;
    if both && forall k | i < k < j :: events[k] != Reset {
      AfterStep(hash, events, i);
      GrantIsToken(hash, After(hash, events[..i]), events[i]);
      ConsumedStays(hash, events, i + 1, j);
      GrantIsToken(hash, After(hash, events[..j]), events[j]);
    }
  }

  lemma {:induction false} ConsumedStays(hash: Hash, events: seq<Event>, i: nat, j: nat)
    requires i <= j <= |events| && After(hash, events[..i]).consumed
    requires forall k | i <= k < j :: events[k] != Reset
    ensures After(hash, events[..j]).consumed
    decreases j - i
  {
    if i < j {
      AfterStep(hash, events, i);
      StepCounts(hash, After(hash, events[..i]), events[i]);
      hide Next, After;
      ConsumedStays(hash, events, i + 1, j);
    }
  }

  // ----- clients that only send what they have received -----

  ghost predicate ReceivedCode(hash: Hash, events: seq<Event>, i: nat, code: string)
    requires i <= |events|
  {
    exists j | 0 <= j < i :: ResponseAt(hash, events, j).Redirect? && ResponseAt(hash, events, j).code == code
  }

  ghost predicate ReceivedBearer(hash: Hash, events: seq<Event>, i: nat, authorization: string)
    requires i <= |events|
  {
    exists j | 0 <= j < i ::
      ResponseAt(hash, events, j).Granted? && authorization == "Bearer " + ResponseAt(hash, events, j).token
  }

  /** The code a token request carries or the token a page request carries came in an earlier response. */
  ghost predicate HonestAt(hash: Hash, events: seq<Event>, i: nat)
    requires i < |events|
  {
    events[i].Request? ==>
      match events[i].request
      case Get(_, _, authorization) =>
        authorization.Some? ==> ReceivedBearer(hash, events, i, authorization.value)
      case Post(_, form) =>
        First(form, "code") != "" ==> ReceivedCode(hash, events, i, First(form, "code"))
  }

  ghost predicate Honest(hash: Hash, events: seq<Event>) {
    forall i | 0 <= i < |events| :: HonestAt(hash, events, i)
  }

  lemma HitCarriesToken(hash: Hash, s: State, e: Event)
    requires Next(hash, s, e).1.Authorized?
    ensures e.Request? && e.request.Get? && e.request.authorization.Some?
  {
    hide GetPage, PostPage, Acceptable, Presentable;
  }

  lemma GrantAfterApproval(hash: Hash, events: seq<Event>, j: nat) returns (k: nat)
    requires Honest(hash, events) && j < |events| && ResponseAt(hash, events, j).Granted?
    ensures k < j && ResponseAt(hash, events, k).Redirect?
  {
    GrantIsToken(hash, After(hash, events[..j]), events[j]);
    var code := First(events[j].request.form, "code");
    assert code != "" by { assert AUTH_CODE[0] == 'c'; }
    hide Next, After, First;
    assert HonestAt(hash, events, j);
    assert ReceivedCode(hash, events, j, code);
    k :| 0 <= k < j && ResponseAt(hash, events, k).Redirect? && ResponseAt(hash, events, k).code == code;
  }

  /** In every run of an honest client each private hit is preceded by a successful token exchange, that by
      an approval, and that by an accepted authorization request. */
  lemma HitIsEarned(hash: Hash, events: seq<Event>, i: nat) returns (l: nat, k: nat, j: nat)
    requires Honest(hash, events) && i < |events| && ResponseAt(hash, events, i).Authorized?
    ensures l < k < j < i
    ensures ResponseAt(hash, events, j).Granted? && ResponseAt(hash, events, k).Redirect? && Accepted(events[l])
  {
    HitCarriesToken(hash, After(hash, events[..i]), events[i]);
    hide Next, After, Accepted;
    assert HonestAt(hash, events, i);
    var authorization := events[i].request.authorization.value;
    assert ReceivedBearer(hash, events, i, authorization);
    j :| 0 <= j < i && ResponseAt(hash, events, j).Granted?;
    k := GrantAfterApproval(hash, events, j);
    ApprovalEchoesLatest(hash, events, k);
    l := LatestAccepted(events, k).value;
  }

  // ----- exactly which requests succeed -----

  lemma GetPages(path: string)
    ensures GetPage(path) == AuthorizePage <==> path == "/oauth/authorize"
    ensures GetPage(path) == ApprovePage <==> path == "/oauth/approve"
    ensures GetPage(path) == CallbackPage <==> path == "/oauth/callback"
    ensures GetPage(path) == PrivatePage <==> path == "/private"
    ensures GetPage(path) != TokenPage
  {}

  predicate IsGet(e: Event, path: string) { e.Request? && e.request.Get? && e.request.path == path }

  predicate IsPost(e: Event, path: string) { e.Request? && e.request.Post? && e.request.path == path }

  /** An authorization request is accepted exactly with the registered client and callback, the one scope and
      method there are, a state of at least sixteen characters and some challenge. */
  lemma ConsentIff(hash: Hash, events: seq<Event>, i: nat)
    requires i < |events|
    ensures Accepted(events[i]) <==> ResponseAt(hash, events, i) == Consent
    ensures ResponseAt(hash, events, i) == Consent <==>
            && IsGet(events[i], "/oauth/authorize")
            && var q := events[i].request.query;
               && First(q, "response_type") == "code"
               && First(q, "client_id") == "cip-controlled-public-client"
               && First(q, "redirect_uri") == "http://127.0.0.1:18777/oauth/callback"
               && First(q, "scope") == "read"
               && First(q, "code_challenge_method") == "S256"
               && |First(q, "state")| >= 16
               && First(q, "code_challenge") != ""
  {
    if events[i].Request? { GetPages(events[i].request.path); }
    hide After, First, GetPage, PostPage, Presentable;
  }

  lemma RedirectStep(hash: Hash, s: State, e: Event)
    ensures Next(hash, s, e).1.Redirect? <==> IsGet(e, "/oauth/approve") && s.state != "" && s.redirectUri != ""
  {
    if e.Request? { GetPages(e.request.path); }
    hide GetPage, PostPage, Presentable, Acceptable;
  }

  /** An approval redirects exactly when some authorization has been accepted since the last reset. */
  lemma RedirectIff(hash: Hash, events: seq<Event>, i: nat)
    requires i < |events|
    ensures ResponseAt(hash, events, i).Redirect? <==>
            IsGet(events[i], "/oauth/approve") && LatestAccepted(events, i).Some?
  {
    hide After, Accepted, Next, IsGet, Field, LatestAccepted, CALLBACK;
    ContextIsLatest(hash, events, i);
    RedirectStep(hash, After(hash, events[..i]), events[i]);
    CallbackPlain();
  }

  lemma CallbackPlain()
    ensures CALLBACK != ""
  {
    assert CALLBACK[0] == 'h';
  }

  lemma TokenStep(hash: Hash, s: State, e: Event)
    ensures var r := Next(hash, s, e).1;
            && (r.Granted? <==>
                  && IsPost(e, "/oauth/token") && Presentable(s, e.request.form)
                  && hash(First(e.request.form, "code_verifier")) == Some(s.challenge) && !s.consumed)
            && (r.Raised? <==>
                  && IsPost(e, "/oauth/token") && Presentable(s, e.request.form)
                  && hash(First(e.request.form, "code_verifier")) == None)
            && (r.InvalidGrant? ==> IsPost(e, "/oauth/token"))
            && (IsPost(e, "/oauth/token") ==> r.Granted? || r.Raised? || r.InvalidGrant?)
  {
    hide GetPage, Presentable, Acceptable;
  }

  /** The four fields a token request has to carry besides the verifier. */
  lemma PresentableMeaning(s: State, form: Fields)
    ensures Presentable(s, form) <==>
            && First(form, "grant_type") == "authorization_code"
            && First(form, "code") == "controlled-one-time-authorization-code"
            && First(form, "client_id") == "cip-controlled-public-client"
            && First(form, "redirect_uri") == s.redirectUri
  {
    hide First;
  }

  /** A token is issued exactly to a request with the right grant type, code, client and redirect URI whose
      verifier hashes to the challenge of the latest accepted authorization since the last reset, unless one
      has been issued since then. */
  lemma GrantedIff(hash: Hash, events: seq<Event>, i: nat)
    requires Proper(hash) && i < |events|
    ensures ResponseAt(hash, events, i).Granted? <==>
            && IsPost(events[i], "/oauth/token")
            && LatestAccepted(events, i).Some?
            && LatestAccepted(events, i).value < i && Accepted(events[LatestAccepted(events, i).value])
            && var form := events[i].request.form;
               && First(form, "grant_type") == "authorization_code"
               && First(form, "code") == "controlled-one-time-authorization-code"
               && First(form, "client_id") == "cip-controlled-public-client"
               && First(form, "redirect_uri") == "http://127.0.0.1:18777/oauth/callback"
               && hash(First(form, "code_verifier")) ==
                  Some(Field(events[LatestAccepted(events, i).value], "code_challenge"))
               && TallySince(hash, events, i).grants == 0
  {
    hide After, Accepted, Next, IsPost, Field, LatestAccepted, First, Presentable, TallySince;
    var s := After(hash, events[..i]);
    ContextIsLatest(hash, events, i);
    CountersCount(hash, events, i);
    TokenStep(hash, s, events[i]);
    if IsPost(events[i], "/oauth/token") { TokenForm(s, events[i]); }
  }

  lemma TokenForm(s: State, e: Event)
    requires IsPost(e, "/oauth/token")
    ensures e.Request? && e.request.Post?
    ensures Presentable(s, e.request.form) <==>
            && First(e.request.form, "grant_type") == "authorization_code"
            && First(e.request.form, "code") == "controlled-one-time-authorization-code"
            && First(e.request.form, "client_id") == "cip-controlled-public-client"
            && First(e.request.form, "redirect_uri") == s.redirectUri
  {
    PresentableMeaning(s, e.request.form);
  }

  lemma PrivateStep(hash: Hash, s: State, e: Event)
    ensures var right := e.Request? && e.request.Get? &&
                         e.request.authorization == Some("Bearer " + "controlled-l17-access-token");
            && (Next(hash, s, e).1 == Authorized <==> IsGet(e, "/private") && right)
            && (Next(hash, s, e).1 == Unauthorized <==> IsGet(e, "/private") && !right)
            && (Next(hash, s, e).1 == Authorized ==> Next(hash, s, e).0 == s.(privateHits := s.privateHits + 1))
            && (Next(hash, s, e).1 == Unauthorized ==> Next(hash, s, e).0 == s)
  {
    if e.Request? { GetPages(e.request.path); }
    hide GetPage, PostPage, Presentable, Acceptable;
  }

  /** In every run, whatever its clients do, the private page is served exactly with the one right header; any
      other header, or none, is refused and leaves the state alone. */
  lemma AuthorizedIff(hash: Hash, events: seq<Event>, i: nat)
    requires i < |events|
    ensures ResponseAt(hash, events, i) == Authorized <==>
            && IsGet(events[i], "/private")
            && events[i].request.authorization == Some("Bearer " + "controlled-l17-access-token")
    ensures IsGet(events[i], "/private") && ResponseAt(hash, events, i) != Authorized ==>
            && ResponseAt(hash, events, i) == Unauthorized
            && After(hash, events[..i + 1]) == After(hash, events[..i])
  {
    hide Next, After;
    PrivateStep(hash, After(hash, events[..i]), events[i]);
    AfterStep(hash, events, i);
  }

  /** Every token that was issued opens the private page from then on. */
  lemma TokenOpens(hash: Hash, events: seq<Event>, j: nat, i: nat)
    requires j < i < |events| && ResponseAt(hash, events, j).Granted?
    requires IsGet(events[i], "/private")
    requires events[i].request.authorization == Some("Bearer " + ResponseAt(hash, events, j).token)
    ensures ResponseAt(hash, events, i) == Authorized
    ensures After(hash, events[..i + 1]).privateHits == After(hash, events[..i]).privateHits + 1
  {
    GrantIsToken(hash, After(hash, events[..j]), events[j]);
    hide Next, After;
    PrivateStep(hash, After(hash, events[..i]), events[i]);
    AfterStep(hash, events, i);
  }

  /** The callback page is always there, every path but these five is missing, and neither changes anything. */
  lemma OtherPages(hash: Hash, events: seq<Event>, i: nat)
    requires i < |events|
    ensures ResponseAt(hash, events, i) == Complete <==> IsGet(events[i], "/oauth/callback")
    ensures ResponseAt(hash, events, i) == NotFound <==>
            && events[i].Request?
            && !IsGet(events[i], "/oauth/authorize") && !IsGet(events[i], "/oauth/approve")
            && !IsGet(events[i], "/oauth/callback") && !IsGet(events[i], "/private")
            && !IsPost(events[i], "/oauth/token")
    ensures ResponseAt(hash, events, i) == Complete || ResponseAt(hash, events, i) == NotFound ==>
              After(hash, events[..i + 1]) == After(hash, events[..i])
  {
    if events[i].Request? { GetPages(events[i].request.path); }
    AfterStep(hash, events, i);
    hide After, GetPage, Presentable, Acceptable;
  }

  /** After any events, a client that keeps to the protocol from a reset on is redirected with the code it then
      sends, gets a token, and with it the private page. */
  lemma ProtocolServes(hash: Hash, events: seq<Event>, n: nat)
    requires Proper(hash) && n + 5 == |events| && events[n] == Reset
    requires Accepted(events[n + 1]) && IsGet(events[n + 2], "/oauth/approve")
    requires IsPost(events[n + 3], "/oauth/token")
    requires var form := events[n + 3].request.form;
             && First(form, "grant_type") == "authorization_code" && First(form, "client_id") == CLIENT_ID
             && First(form, "code") == AUTH_CODE && First(form, "redirect_uri") == CALLBACK
             && hash(First(form, "code_verifier")) == Some(Field(events[n + 1], "code_challenge"))
    requires IsGet(events[n + 4], "/private")
    requires events[n + 4].request.authorization == Some("Bearer " + ACCESS_TOKEN)
    ensures ResponseAt(hash, events, n + 1) == Consent
    ensures ResponseAt(hash, events, n + 2) == Redirect(CALLBACK, AUTH_CODE, Field(events[n + 1], "state"))
    ensures ResponseAt(hash, events, n + 3) == Granted(ACCESS_TOKEN)
    ensures ResponseAt(hash, events, n + 4) == Authorized
  {
    var form := events[n + 3].request.form;
    hide After, Accepted, Next, IsGet, IsPost, Field, First, ResponseAt, Presentable, GetPage, PostPage;
    ConsentIff(hash, events, n + 1);
    NotAccepted(events[n + 2], "/oauth/approve");
    assert LatestAccepted(events, n + 2) == Some(n + 1) == LatestAccepted(events, n + 3);
    RedirectIff(hash, events, n + 2);
    ApprovalEchoesLatest(hash, events, n + 2);
    NoneGranted(hash, events, n);
    hide LatestAccepted, TallySince;
    GrantedIff(hash, events, n + 3);
    GrantedToken(hash, events, n + 3);
    AuthorizedIff(hash, events, n + 4);
  }

  lemma NoneGranted(hash: Hash, events: seq<Event>, n: nat)
    requires n + 3 <= |events| && events[n] == Reset
    requires !ResponseAt(hash, events, n + 1).Granted? && !ResponseAt(hash, events, n + 2).Granted?
    ensures TallySince(hash, events, n + 3).grants == 0
  {
    hide ResponseAt, IsTokenPost;
    assert TallySince(hash, events, n + 1).grants == 0;
    assert TallySince(hash, events, n + 2).grants == 0;
  }

  lemma NotAccepted(e: Event, path: string)
    requires IsGet(e, path) && path == "/oauth/approve"
    ensures !Accepted(e) && e != Reset
  {
    hide Acceptable;
  }

  lemma GrantedToken(hash: Hash, events: seq<Event>, i: nat)
    requires i < |events| && ResponseAt(hash, events, i).Granted?
    ensures ResponseAt(hash, events, i) == Granted(ACCESS_TOKEN)
  {
    GrantIsToken(hash, After(hash, events[..i]), events[i]);
    hide After, Next;
  }
}
