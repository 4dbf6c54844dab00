/**
 * The server actions behind the playback panel: an OAuth 2.0 client of the
 * authorization-code grant. The code exchange is section 4.1.3 of RFC 6749, the
 * refresh is section 6, the client authenticates to the token endpoint with
 * HTTP Basic (section 2.3.1), and calls to the player API carry the access
 * token as a Bearer credential (section 2.1 of RFC 6750).
 *
 * The cookie jar is a map from cookie name to value. The remote service is a
 * script: each request the client sends consumes the next scripted reply, and
 * a request sent when the script is exhausted fails as a rejected `fetch`
 * does. Every request sent is logged, so "no request was sent" is a statement
 * about the log. Because a retry can only follow a consumed reply, the length
 * of the script bounds the recursion of the 401 retry.
 */
module SpotifyActions {
  import opened Wrappers

  const AccessCookie: string := "spotify_access_token"
  const RefreshCookie: string := "spotify_refresh_token"
  const TokenUrl: string := "https://accounts.spotify.com/api/token"
  const PlayerUrl: string := "https://api.spotify.com/v1/me/player/"
  const CurrentlyPlayingUrl: string := "https://api.spotify.com/v1/me/player/currently-playing"
  const DefaultRedirectUri: string := "http://127.0.0.1:3000"

  /**
   * A response body as `response.json()` sees it: a token response (its
   * `access_token` and `refresh_token` members, when present), any other JSON
   * document, or text that is not JSON (reading it throws).
   */
  datatype Body =
    | TokenBody(accessToken: Option<string>, refreshToken: Option<string>)
    | DataBody(data: string)
    | Unparsable

  /** A reply to one request: an HTTP response, or a rejected `fetch`. */
  datatype Reply = Response(status: int, body: Body) | NetworkError

  /**
   * The credentials a request carries: the client's own, Base64-encoded for
   * HTTP Basic (the encoding is not modelled), or a Bearer access token.
   */
  datatype Auth = BasicClient | Bearer(token: string)

  /** A request as sent: verb, URL, credentials and the form fields of the body. */
  datatype Request = Request(verb: Verb, url: string, auth: Auth, form: seq<(string, string)>)

  /** The cookie jar, the replies still to come, the requests sent so far, and the redirect URI in use. */
  datatype World = World(cookies: map<string, string>, replies: seq<Reply>, sent: seq<Request>, redirectUri: string)

  /** `{ success: true }` or `{ success: false, error }`. */
  datatype Outcome = Ok | Err(error: string)

  /** The result of `fetchCurrentTrack`: `data` is `null` for "nothing playing". */
  datatype TrackOutcome = TrackOk(data: Option<Body>) | TrackErr(error: string)

  /** The four transport commands `controlPlayback` accepts. */
  datatype Action = Play | Pause | Next | Previous

  function ActionName(a: Action): string {
    match a
    case Play => "play"
    case Pause => "pause"
    case Next => "next"
    case Previous => "previous"
  }

  datatype Verb = GET | POST | PUT

  /** Skipping is a POST, play and pause are a PUT. */
  function ActionVerb(a: Action): (v: Verb)
    ensures v == POST <==> a == Next || a == Previous
    ensures v == PUT <==> a == Play || a == Pause
  {
    match a
    case Next | Previous => POST
    case Play | Pause => PUT
  }

  /** `NEXT_PUBLIC_SPOTIFY_REDIRECT_URI || 'http://127.0.0.1:3000'`. */
  function RedirectUri(configured: Option<string>): (uri: string)
    ensures uri != ""
    ensures Truthy(configured) ==> uri == configured.value
  {
    if Truthy(configured) then configured.value else DefaultRedirectUri
  }

  // ---------------------------------------------------------------------------
  // The transport

  /** The reply the next request will get. */
  function NextReply(w: World): Reply {
    if w.replies == [] then NetworkError else w.replies[0]
  }

  /** `fetch`: log the request and consume one scripted reply. */
  function Fetch(w: World, req: Request): (result: (Reply, World))
    ensures result.0 == NextReply(w)
    ensures result.1.sent == w.sent + [req] && result.1.cookies == w.cookies
    ensures result.1.redirectUri == w.redirectUri
    ensures |result.1.replies| == if w.replies == [] then 0 else |w.replies| - 1
  {
    if w.replies == [] then (NetworkError, w.(sent := w.sent + [req]))
    else (w.replies[0], w.(replies := w.replies[1..], sent := w.sent + [req]))
  }

  /** The `access_token` member of a reply's JSON body, when the body can be read. */
  function AccessTokenIn(r: Reply): Option<string> {
    if r.Response? && r.body.TokenBody? then r.body.accessToken else None
  }

  /** The `refresh_token` member of a reply's JSON body, when the body can be read. */
  function RefreshTokenIn(r: Reply): Option<string> {
    if r.Response? && r.body.TokenBody? then r.body.refreshToken else None
  }

  /** Reading the reply's body throws: the request was rejected or the body is not JSON. */
  predicate Throws(r: Reply) {
    r.NetworkError? || r.body.Unparsable?
  }

  // ---------------------------------------------------------------------------
  // Tokens in the cookie jar

  /** `getSpotifyAccessToken`: the access cookie's value, `null` when missing or empty. */
  function AccessToken(cookies: map<string, string>): (t: Option<string>)
    ensures t.Some? <==> AccessCookie in cookies && cookies[AccessCookie] != ""
    ensures t.Some? ==> t.value == cookies[AccessCookie] && Truthy(t)
  {
    if AccessCookie in cookies && cookies[AccessCookie] != "" then Some(cookies[AccessCookie]) else None
  }

  /** `checkSpotifyConnection`: connected exactly when there is a usable access token. */
  function IsConnected(cookies: map<string, string>): (b: bool)
    ensures b <==> AccessCookie in cookies && cookies[AccessCookie] != ""
  {
    AccessToken(cookies).Some?
  }

  /** `clearSpotifyTokens`: both token cookies deleted. */
  function ClearTokens(cookies: map<string, string>): (c: map<string, string>)
    ensures AccessCookie !in c && RefreshCookie !in c
    ensures forall k :: k in c <==> k in cookies && k != AccessCookie && k != RefreshCookie
    ensures forall k :: k in c ==> c[k] == cookies[k]
  {
    cookies - {AccessCookie, RefreshCookie}
  }

  /** After clearing, the client is not connected and has no refresh token left. */
  lemma ClearDisconnects(cookies: map<string, string>)
    ensures !IsConnected(ClearTokens(cookies))
    ensures AccessToken(ClearTokens(cookies)) == None
    ensures RefreshCookie !in ClearTokens(cookies)
  {
  }

  /** The form of the authorization-code grant (section 4.1.3 of RFC 6749). */
  function ExchangeForm(code: string, redirectUri: string): seq<(string, string)> {
    [("grant_type", "authorization_code"), ("code", code), ("redirect_uri", redirectUri)]
  }

  /** The form of a refresh (section 6 of RFC 6749). */
  function RefreshForm(refreshToken: string): seq<(string, string)> {
    [("grant_type", "refresh_token"), ("refresh_token", refreshToken)]
  }

  // ---------------------------------------------------------------------------
  // exchangeSpotifyCode and refreshSpotifyToken

  /**
   * `exchangeSpotifyCode(code)`: one POST to the token endpoint. A readable
   * body with an access token stores it, and stores the refresh token only when
   * the body has one; the status code is not looked at. A body without an
   * access token is "Failed to exchange code"; a rejected request or an
   * unreadable body is "Exchange failed". Failures leave the cookie jar as it was.
   */
  function Exchange(w: World, code: string): (result: (Outcome, World))
    ensures var (o, w') := result; var r := NextReply(w);
      && w'.sent == w.sent + [Request(POST, TokenUrl, BasicClient, ExchangeForm(code, w.redirectUri))]
      && (o.Ok? <==> !Throws(r) && Truthy(AccessTokenIn(r)))
      && (o.Err? ==> w'.cookies == w.cookies)
      && (o.Err? ==> o.error == if Throws(r) then "Exchange failed" else "Failed to exchange code")
      && (o.Ok? ==> AccessToken(w'.cookies) == AccessTokenIn(r))
      && (o.Ok? && Truthy(RefreshTokenIn(r)) ==>
            w'.cookies == w.cookies[AccessCookie := AccessTokenIn(r).value][RefreshCookie := RefreshTokenIn(r).value])
      && (o.Ok? && !Truthy(RefreshTokenIn(r)) ==> w'.cookies == w.cookies[AccessCookie := AccessTokenIn(r).value])
      && (forall k :: k != AccessCookie && k != RefreshCookie ==> (k in w'.cookies <==> k in w.cookies))
      && |w'.replies| <= |w.replies| && w'.redirectUri == w.redirectUri
  {
    var (r, w1) := Fetch(w, Request(POST, TokenUrl, BasicClient, ExchangeForm(code, w.redirectUri)));
    if Throws(r) then (Err("Exchange failed"), w1)
    else
      var access, refresh := AccessTokenIn(r), RefreshTokenIn(r);
      if Truthy(access) then
        var withAccess := w1.cookies[AccessCookie := access.value];
        var jar := if Truthy(refresh) then withAccess[RefreshCookie := refresh.value] else withAccess;
        (Ok, w1.(cookies := jar))
      else (Err("Failed to exchange code"), w1)
  }

  /** The refresh token in the jar, as `cookieStore.get(...)?.value` reads it. */
  function StoredRefreshToken(cookies: map<string, string>): Option<string> {
    if RefreshCookie in cookies then Some(cookies[RefreshCookie]) else None
  }

  /**
   * `refreshSpotifyToken`: without a stored refresh token, "No refresh token"
   * and nothing is sent. Otherwise one POST to the token endpoint; a readable
   * body with an access token overwrites the access cookie and nothing else
   * (a new refresh token in the body is ignored). A body without one is "Failed
   * to refresh token"; a rejected request or unreadable body is "Refresh
   * failed". Failures leave the cookie jar as it was.
   */
  function Refresh(w: World): (result: (Outcome, World))
    ensures var (o, w') := result; var rt := StoredRefreshToken(w.cookies); var r := NextReply(w);
      && (!Truthy(rt) ==> result == (Err("No refresh token"), w))
      && (Truthy(rt) ==> w'.sent == w.sent + [Request(POST, TokenUrl, BasicClient, RefreshForm(rt.value))])
      && (o.Ok? <==> Truthy(rt) && !Throws(r) && Truthy(AccessTokenIn(r)))
      && (o.Ok? ==> w'.cookies == w.cookies[AccessCookie := AccessTokenIn(r).value])
      && (o.Err? ==> w'.cookies == w.cookies)
      && (o.Err? && Truthy(rt) ==> o.error == if Throws(r) then "Refresh failed" else "Failed to refresh token")
      && w.sent <= w'.sent && |w'.replies| <= |w.replies| && w'.redirectUri == w.redirectUri
      && (o.Ok? ==> |w'.replies| < |w.replies|)
  {
    var rt := StoredRefreshToken(w.cookies);
    if !Truthy(rt) then (Err("No refresh token"), w)
    else
      var (r, w1) := Fetch(w, Request(POST, TokenUrl, BasicClient, RefreshForm(rt.value)));
      if Throws(r) then (Err("Refresh failed"), w1)
      else if Truthy(AccessTokenIn(r)) then (Ok, w1.(cookies := w1.cookies[AccessCookie := AccessTokenIn(r).value]))
      else (Err("Failed to refresh token"), w1)
  }

  /** A successful refresh keeps the refresh token and leaves the client connected. */
  lemma RefreshKeepsRefreshToken(w: World)
    requires Refresh(w).0.Ok?
    ensures StoredRefreshToken(Refresh(w).1.cookies) == StoredRefreshToken(w.cookies)
    ensures IsConnected(Refresh(w).1.cookies)
  {
  }

  // ---------------------------------------------------------------------------
  // fetchCurrentTrack and controlPlayback

  /**
   * `fetchCurrentTrack`: with an access token, a GET of the currently playing
   * item. 200 is the parsed body (unreadable: "Fetch failed"), 204 is "nothing
   * playing", 401 refreshes and, when that succeeds, starts over; any other
   * status is "Failed to fetch track", a rejected request "Fetch failed".
   */
  function CurrentTrack(w: World): (result: (TrackOutcome, World))
    ensures w.sent <= result.1.sent && |result.1.replies| <= |w.replies|
    ensures result.1.redirectUri == w.redirectUri
    decreases |w.replies|
  {
    var token := AccessToken(w.cookies);
    if token.None? then (TrackErr("No access token"), w)
    else
      var (r, w1) := Fetch(w, Request(GET, CurrentlyPlayingUrl, Bearer(token.value), []));
      match r
      case NetworkError => (TrackErr("Fetch failed"), w1)
      case Response(status, body) =>
        if status == 200 then
          (if body.Unparsable? then (TrackErr("Fetch failed"), w1) else (TrackOk(Some(body)), w1))
        else if status == 204 then (TrackOk(None), w1)
        else if status == 401 then
          var (refreshed, w2) := Refresh(w1);
          if refreshed.Ok? then CurrentTrack(w2) else (TrackErr("Authentication failed"), w2)
        else (TrackErr("Failed to fetch track"), w1)
  }

  /** The request `controlPlayback(action)` sends with access token `token`. */
  function ControlRequest(a: Action, token: string): Request {
    Request(ActionVerb(a), PlayerUrl + ActionName(a), Bearer(token), [])
  }

  /**
   * `controlPlayback(action)`: with an access token, one request to
   * `/me/player/{action}`. 200 and 204 are success, 401 refreshes and, when
   * that succeeds, starts over; any other status is "Control action failed",
   * a rejected request "Control failed". The body is never read.
   */
  function Control(w: World, a: Action): (result: (Outcome, World))
    ensures w.sent <= result.1.sent && |result.1.replies| <= |w.replies|
    ensures result.1.redirectUri == w.redirectUri
    decreases |w.replies|
  {
    var token := AccessToken(w.cookies);
    if token.None? then (Err("No access token"), w)
    else
      var (r, w1) := Fetch(w, ControlRequest(a, token.value));
      match r
      case NetworkError => (Err("Control failed"), w1)
      case Response(status, _) =>
        if status == 204 || status == 200 then (Ok, w1)
        else if status == 401 then
          var (refreshed, w2) := Refresh(w1);
          if refreshed.Ok? then Control(w2, a) else (Err("Authentication failed"), w2)
        else (Err("Control action failed"), w1)
  }

  /** Without an access token neither call sends anything: the world is unchanged. */
  lemma NoTokenNoRequest(w: World, a: Action)
    requires !IsConnected(w.cookies)
    ensures Control(w, a) == (Err("No access token"), w)
    ensures CurrentTrack(w) == (TrackErr("No access token"), w)
  {
  }

  /** With an access token, the first request is the action's verb on its endpoint, with the token as Bearer. */
  lemma ControlFirstRequest(w: World, a: Action)
    requires IsConnected(w.cookies)
    ensures var w' := Control(w, a).1;
      |w'.sent| > |w.sent| && w'.sent[|w.sent|] == ControlRequest(a, w.cookies[AccessCookie])
    ensures ControlRequest(a, w.cookies[AccessCookie]).url == PlayerUrl + ActionName(a)
  {
    var w1 := Fetch(w, ControlRequest(a, w.cookies[AccessCookie])).1;
    assert w1.sent[|w.sent|] == ControlRequest(a, w.cookies[AccessCookie]);
    var w' := Control(w, a).1;
    assert w1.sent <= w'.sent by {
      if NextReply(w).Response? && NextReply(w).status == 401 {
        var w2 := Refresh(w1).1;
        assert w1.sent <= w2.sent;
        if Refresh(w1).0.Ok? {
          assert w2.sent <= Control(w2, a).1.sent;
        }
      }
    }
  }

  /**
   * Every status but 401 is settled by the first reply and nothing more is
   * sent: 200 and 204 succeed, any other status is "Control action failed",
   * and a rejected request is "Control failed".
   */
  lemma ControlClassification(w: World, a: Action)
    requires IsConnected(w.cookies)
    requires NextReply(w).NetworkError? || NextReply(w).status != 401
    ensures var (o, w') := Control(w, a);
      && w' == Fetch(w, ControlRequest(a, w.cookies[AccessCookie])).1
      && o == match NextReply(w)
        case NetworkError => Err("Control failed")
        case Response(s, _) => if s == 200 || s == 204 then Ok else Err("Control action failed")
  {
  }

  /**
   * A 401 triggers exactly one refresh before anything else: if the refresh
   * fails the result is "Authentication failed" and nothing further is sent;
   * if it succeeds the whole call runs again on the refreshed jar.
   */
  lemma ControlUnauthorized(w: World, a: Action)
    requires IsConnected(w.cookies)
    requires NextReply(w).Response? && NextReply(w).status == 401
    ensures var w1 := Fetch(w, ControlRequest(a, w.cookies[AccessCookie])).1;
      var (refreshed, w2) := Refresh(w1);
      && (refreshed.Err? ==> Control(w, a) == (Err("Authentication failed"), w2) && |w2.sent| <= |w.sent| + 2)
      && (refreshed.Ok? ==> Control(w, a) == Control(w2, a) && |w2.sent| == |w.sent| + 2)
  {
  }

  /** The same classification for `fetchCurrentTrack`. */
  lemma TrackClassification(w: World)
    requires IsConnected(w.cookies)
    requires NextReply(w).NetworkError? || NextReply(w).status != 401
    ensures var (o, w') := CurrentTrack(w);
      && w' == Fetch(w, Request(GET, CurrentlyPlayingUrl, Bearer(w.cookies[AccessCookie]), [])).1
      && o == match NextReply(w)
        case NetworkError => TrackErr("Fetch failed")
        case Response(s, body) =>
          if s == 200 then (if body.Unparsable? then TrackErr("Fetch failed") else TrackOk(Some(body)))
          else if s == 204 then TrackOk(None)
          else TrackErr("Failed to fetch track")
  {
  }

  /** A 401 on `fetchCurrentTrack` refreshes once, then gives up or starts over. */
  lemma TrackUnauthorized(w: World)
    requires IsConnected(w.cookies)
    requires NextReply(w).Response? && NextReply(w).status == 401
    ensures var w1 := Fetch(w, Request(GET, CurrentlyPlayingUrl, Bearer(w.cookies[AccessCookie]), [])).1;
      var (refreshed, w2) := Refresh(w1);
      && (refreshed.Err? ==> CurrentTrack(w) == (TrackErr("Authentication failed"), w2))
      && (refreshed.Ok? ==> CurrentTrack(w) == CurrentTrack(w2))
  {
  }

  // ---------------------------------------------------------------------------
  // The retry is not bounded

  /**
   * The service's answers in a run of `k` rejections: `k` rounds of a 401
   * answered by a successful refresh handing out `token`, then a 204.
   */
  function RetryScript(k: nat, token: string): (s: seq<Reply>)
    ensures |s| == 2 * k + 1
    ensures s[|s| - 1] == Response(204, DataBody(""))
  {
    if k == 0 then [Response(204, DataBody(""))]
    else [Response(401, Unparsable), Response(200, TokenBody(Some(token), None))] + RetryScript(k - 1, token)
  }

  /**
   * Nothing caps the 401 retry: however many times in a row the service
   * answers 401 and the refresh succeeds, the call keeps going, and when the
   * service finally answers 204 it succeeds after 2k + 1 requests.
   */
  lemma {:induction false} ControlRetriesWithoutBound(w: World, a: Action, k: nat, token: string)
    requires IsConnected(w.cookies) && token != ""
    requires Truthy(StoredRefreshToken(w.cookies))
    requires w.replies == RetryScript(k, token)
    ensures Control(w, a).0 == Ok
    ensures |Control(w, a).1.sent| == |w.sent| + 2 * k + 1
    decreases k
  {
    if k > 0 {
      var w2 := RejectedRound(w, a, token, RetryScript(k - 1, token));
      ControlRetriesWithoutBound(w2, a, k - 1, token);
    } else {
      ControlAccepted(w, a);
    }
  }

  /** A 204 to the first request is success after that one request. */
  lemma ControlAccepted(w: World, a: Action)
    requires IsConnected(w.cookies)
    requires w.replies != [] && w.replies[0] == Response(204, DataBody(""))
    ensures Control(w, a).0 == Ok && |Control(w, a).1.sent| == |w.sent| + 1
  {
    assert NextReply(w) == Response(204, DataBody(""));
  }

  /** One 401 followed by a successful refresh: two requests sent, then the call starts over. */
  lemma RejectedRound(w: World, a: Action, token: string, rest: seq<Reply>) returns (w2: World)
    requires IsConnected(w.cookies) && token != ""
    requires Truthy(StoredRefreshToken(w.cookies))
    requires w.replies == [Response(401, Unparsable), Response(200, TokenBody(Some(token), None))] + rest
    ensures Control(w, a) == Control(w2, a)
    ensures w2.replies == rest && |w2.sent| == |w.sent| + 2
    ensures IsConnected(w2.cookies) && StoredRefreshToken(w2.cookies) == StoredRefreshToken(w.cookies)
  {
    var w1 := Fetch(w, ControlRequest(a, w.cookies[AccessCookie])).1;
    assert NextReply(w) == Response(401, Unparsable);
    assert w1.replies == [Response(200, TokenBody(Some(token), None))] + rest;
    assert NextReply(w1) == Response(200, TokenBody(Some(token), None));
    w2 := Refresh(w1).1;
    RefreshKeepsRefreshToken(w1);
  }

  // ---------------------------------------------------------------------------
  // The server side as a stateful object

  /** The cookie jar of the request, the remote service and the log of what was sent. */
  class SpotifyServer {
    var cookies: map<string, string>
    var replies: seq<Reply>
    var sent: seq<Request>
    const redirectUri: string

    function State(): World
      reads this
    {
      World(cookies, replies, sent, redirectUri)
    }

    /** The redirect URI comes from configuration, with the local default. */
    constructor (jar: map<string, string>, script: seq<Reply>, configuredRedirect: Option<string>)
      ensures State() == World(jar, script, [], RedirectUri(configuredRedirect))
    {
      cookies := jar;
      replies := script;
      sent := [];
      redirectUri := RedirectUri(configuredRedirect);
    }

    method SendRequest(req: Request) returns (reply: Reply)
      modifies this
      ensures (reply, State()) == Fetch(old(State()), req)
    {
      sent := sent + [req];
      if replies == [] {
        reply := NetworkError;
      } else {
        reply := replies[0];
        replies := replies[1..];
      }
    }

    method GetSpotifyAccessToken() returns (token: Option<string>)
      ensures token == AccessToken(cookies)
    {
      if AccessCookie in cookies && cookies[AccessCookie] != "" {
        token := Some(cookies[AccessCookie]);
      } else {
        token := None;
      }
    }

    method ClearSpotifyTokens() returns (o: Outcome)
      modifies this`cookies
      ensures cookies == ClearTokens(old(cookies)) && o == Ok
    {
      cookies := cookies - {AccessCookie};
      cookies := cookies - {RefreshCookie};
      o := Ok;
    }

    method CheckSpotifyConnection() returns (isConnected: bool)
      ensures isConnected == IsConnected(cookies)
    {
      var token := GetSpotifyAccessToken();
      isConnected := token.Some?;
    }

    method ExchangeSpotifyCode(code: string) returns (o: Outcome)
      modifies this
      ensures (o, State()) == Exchange(old(State()), code)
    {
      var r := SendRequest(Request(POST, TokenUrl, BasicClient, ExchangeForm(code, redirectUri)));
      if Throws(r) {
        return Err("Exchange failed");
      }
      var access, refresh := AccessTokenIn(r), RefreshTokenIn(r);
      if Truthy(access) {
        cookies := cookies[AccessCookie := access.value];
        if Truthy(refresh) {
          cookies := cookies[RefreshCookie := refresh.value];
        }
        return Ok;
      }
      return Err("Failed to exchange code");
    }

    method RefreshSpotifyToken() returns (o: Outcome)
      modifies this
      ensures (o, State()) == Refresh(old(State()))
    {
      var rt := StoredRefreshToken(cookies);
      if !Truthy(rt) {
        return Err("No refresh token");
      }
      var r := SendRequest(Request(POST, TokenUrl, BasicClient, RefreshForm(rt.value)));
      if Throws(r) {
        return Err("Refresh failed");
      }
      if Truthy(AccessTokenIn(r)) {
        cookies := cookies[AccessCookie := AccessTokenIn(r).value];
        return Ok;
      }
      return Err("Failed to refresh token");
    }

    method FetchCurrentTrack() returns (o: TrackOutcome)
      modifies this
      ensures (o, State()) == CurrentTrack(old(State()))
      decreases |replies|
    {
      var token := GetSpotifyAccessToken();
      if token.None? {
        return TrackErr("No access token");
      }
      var r := SendRequest(Request(GET, CurrentlyPlayingUrl, Bearer(token.value), []));
      if r.NetworkError? {
        return TrackErr("Fetch failed");
      }
      if r.status == 200 {
        if r.body.Unparsable? {
          return TrackErr("Fetch failed");
        }
        return TrackOk(Some(r.body));
      } else if r.status == 204 {
        return TrackOk(None);
      } else if r.status == 401 {
        ghost var afterFetch := State();
        var refreshed := RefreshSpotifyToken();
        if refreshed.Ok? {
          assert |replies| < |afterFetch.replies| + 1;
          o := FetchCurrentTrack();
          return;
        }
        return TrackErr("Authentication failed");
      }
      return TrackErr("Failed to fetch track");
    }

    method ControlPlayback(a: Action) returns (o: Outcome)
      modifies this
      ensures (o, State()) == Control(old(State()), a)
      decreases |replies|
    {
      var token := GetSpotifyAccessToken();
      if token.None? {
        return Err("No access token");
      }
      var endpoint := PlayerUrl + ActionName(a);
      var verb := if a == Next || a == Previous then POST else PUT;
      var r := SendRequest(Request(verb, endpoint, Bearer(token.value), []));
      if r.NetworkError? {
        return Err("Control failed");
      }
      if r.status == 204 || r.status == 200 {
        return Ok;
      } else if r.status == 401 {
        var refreshed := RefreshSpotifyToken();
        if refreshed.Ok? {
          o := ControlPlayback(a);
          return;
        }
        return Err("Authentication failed");
      }
      return Err("Control action failed");
    }
  }
}
