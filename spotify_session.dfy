/**
 * The client-side session of the playback panel (the `useSpotify` hook): its
 * state cells, the connection bootstrap, the OAuth callback, playlist loading,
 * logout, starting a playlist and the transport buttons.
 *
 * The server actions this hook calls are those of `SpotifyActions`, run on a
 * `SpotifyServer`. Every awaited server action may also reject on the way (a
 * failed round trip to the server); a handler's `callThrows` input says that it
 * did, and such a call leaves the server as it was. Three server functions it imports are not defined in the
 * code modelled here (`getUserPlaylists`, `playPlaylist` and
 * `getSpotifyAccessTokenForClient`): what they return, or that they throw, is
 * a parameter of the handler that calls them.
 */
module SpotifySession {
  import opened Wrappers
  import opened SpotifyActions

  /** What an awaited call that is not modelled did: returned a value, or threw. */
  datatype Remote<T> = Returned(value: T) | Threw

  datatype Playlist = Playlist(id: string, name: string, uri: string, trackTotal: nat)

  /** The result of `getUserPlaylists`. */
  datatype PlaylistsReply = PlaylistsOk(data: seq<Playlist>) | PlaylistsErr(error: string)

  /** The playback state the web player would report; only `is_playing` is read. */
  datatype PlayerState = PlayerState(isPlaying: bool, progressMs: nat)

  /** Where the window is sent: nowhere, back to `/`, or to the page at `url` with these query parameters. */
  datatype Navigation = Stay | Home | Authorize(url: string, query: seq<(string, string)>)

  const AuthFailed: string := "Authentication failed"
  const AuthorizeUrl: string := "https://accounts.spotify.com/authorize"
  const Scopes: string := "user-read-playback-state user-modify-playback-state user-read-currently-playing playlist-read-private playlist-read-collaborative streaming user-read-email user-read-private"

  /**
   * Whether the session stays connected after a call: only the literal
   * "Authentication failed" error disconnects it; success and every other
   * error leave the flag as it was.
   */
  function ConnectedAfter(connected: bool, o: Outcome): (c: bool)
    ensures c <==> connected && o != Err(AuthFailed)
    ensures o.Ok? ==> c == connected
  {
    if o.Err? && o.error == AuthFailed then false else connected
  }

  /**
   * `startPlaylist`'s answer: "Not connected" first, then "Web player not
   * ready" without a ready player and a device id; otherwise success or the
   * remote's own error string, and "Network error" when the call throws.
   */
  function StartResult(isConnected: bool, isReady: bool, deviceId: Option<string>, reply: Remote<Outcome>): (o: Outcome)
    ensures !isConnected ==> o == Err("Not connected")
    ensures isConnected && !(isReady && Truthy(deviceId)) ==> o == Err("Web player not ready")
    ensures isConnected && isReady && Truthy(deviceId) ==>
      o == (if reply.Threw? then Err("Network error") else reply.value)
  {
    if !isConnected then Err("Not connected")
    else if !isReady || !Truthy(deviceId) then Err("Web player not ready")
    else match reply
      case Threw => Err("Network error")
      case Returned(r) => if r.Ok? then Ok else Err(r.error)
  }

  /** The action the play/pause button sends: pause while playing, play otherwise. */
  function ToggleAction(s: PlayerState): (a: Action)
    ensures a == Pause <==> s.isPlaying
    ensures a == Play <==> !s.isPlaying
  {
    if s.isPlaying then Pause else Play
  }

  /** The query of the authorization request (section 4.1.1 of RFC 6749), in order. */
  function LoginQuery(clientId: Option<string>, redirectUri: Option<string>): (q: seq<(string, string)>)
    ensures |q| == 5 && q[0] == ("response_type", "code") && q[4] == ("show_dialog", "true")
    ensures q[1].0 == "client_id" && q[2] == ("scope", Scopes) && q[3].0 == "redirect_uri"
    ensures Truthy(clientId) ==> q[1].1 == clientId.value
    ensures !Truthy(clientId) ==> q[1].1 == ""
    ensures Truthy(redirectUri) ==> q[3].1 == redirectUri.value
    ensures !Truthy(redirectUri) ==> q[3].1 == ""
  {
    [ ("response_type", "code"),
      ("client_id", if Truthy(clientId) then clientId.value else ""),
      ("scope", Scopes),
      ("redirect_uri", if Truthy(redirectUri) then redirectUri.value else ""),
      ("show_dialog", "true") ]
  }

  /** The hook's state cells, the cells it reads from the web player, and the window's location. */
  class SpotifySession {
    var isConnected: bool
    var isLoading: bool
    var playlists: seq<Playlist>
    var playlistsLoading: bool
    var accessToken: Option<string>
    var playlistsFetched: bool
    /** Read from the web player hook. */
    var deviceId: Option<string>
    var isReady: bool
    /** Destructured from the web player hook, which never returns it: always absent. */
    var currentTrack: Option<PlayerState>
    /** The `code` parameter of the page's query string. */
    var callbackCode: Option<string>
    var navigation: Navigation
    /** The `(uri, deviceId)` of every `playPlaylist` call made. */
    var playCalls: seq<(string, string)>

    ghost predicate Valid()
      reads this
    {
      currentTrack == None
    }

    constructor (code: Option<string>)
      ensures Valid()
      ensures !isConnected && isLoading && playlists == [] && !playlistsLoading
      ensures accessToken == None && !playlistsFetched
      ensures deviceId == None && !isReady && callbackCode == code
      ensures navigation == Stay && playCalls == []
    {
      isConnected := false;
      isLoading := true;
      playlists := [];
      playlistsLoading := false;
      accessToken := None;
      playlistsFetched := false;
      deviceId := None;
      isReady := false;
      currentTrack := None;
      callbackCode := code;
      navigation := Stay;
      playCalls := [];
    }

    /**
     * The mount effect: ask the server whether a token is stored; if so, fetch
     * the client token. A throw of either call marks the session disconnected;
     * loading ends either way.
     */
    method CheckConnection(server: SpotifyServer, callThrows: bool, clientToken: Remote<Option<string>>)
      requires Valid()
      modifies this`isConnected, this`isLoading, this`accessToken
      ensures Valid() && !isLoading
      ensures callThrows ==> !isConnected && accessToken == old(accessToken)
      ensures !IsConnected(server.cookies) ==> !isConnected && accessToken == old(accessToken)
      ensures !callThrows && IsConnected(server.cookies) && clientToken.Returned? ==>
        isConnected && accessToken == clientToken.value
      ensures IsConnected(server.cookies) && clientToken.Threw? ==> !isConnected && accessToken == old(accessToken)
    {
      if callThrows {
        isConnected := false;
        isLoading := false;
        return;
      }
      var connected := server.CheckSpotifyConnection();
      isConnected := connected;
      if connected {
        match clientToken
        case Returned(token) => accessToken := token;
        case Threw => isConnected := false;
      }
      isLoading := false;
    }

    /**
     * The callback effect, once loading is over: with a `code` in the URL and
     * no connection yet, strip the query from the URL, then exchange the code.
     * On success the session is connected, the client token fetched and the
     * window sent home; a throw of the token fetch leaves the session connected
     * and the window where it is. When the exchange call itself rejects, only
     * the stripped query remains of the attempt.
     */
    method HandleCallback(server: SpotifyServer, callThrows: bool, clientToken: Remote<Option<string>>)
      requires Valid()
      modifies this`isConnected, this`accessToken, this`callbackCode, this`navigation, server
      ensures Valid()
      ensures isLoading || !Truthy(old(callbackCode)) || old(isConnected) ==>
        && isConnected == old(isConnected) && accessToken == old(accessToken)
        && callbackCode == old(callbackCode) && navigation == old(navigation)
        && server.State() == old(server.State())
      ensures !isLoading && Truthy(old(callbackCode)) && !old(isConnected) && callThrows ==>
        && callbackCode == None && !isConnected && accessToken == old(accessToken)
        && navigation == old(navigation) && server.State() == old(server.State())
      ensures !isLoading && Truthy(old(callbackCode)) && !old(isConnected) && !callThrows ==>
        var (o, w) := Exchange(old(server.State()), old(callbackCode).value);
        && callbackCode == None && server.State() == w
        && (o.Err? ==> !isConnected && accessToken == old(accessToken) && navigation == old(navigation))
        && (o.Ok? ==> isConnected)
        && (o.Ok? && clientToken.Returned? ==> accessToken == clientToken.value && navigation == Home)
        && (o.Ok? && clientToken.Threw? ==> accessToken == old(accessToken) && navigation == old(navigation))
    {
      if isLoading {
        return;
      }
      var code := callbackCode;
      if Truthy(code) && !isConnected {
        callbackCode := None;
        if callThrows {
          return;
        }
        var result := server.ExchangeSpotifyCode(code.value);
        if result.Ok? {
          isConnected := true;
          match clientToken
          case Returned(token) =>
            accessToken := token;
            navigation := Home;
          case Threw =>
        }
      }
    }

    /**
     * `fetchPlaylists`: nothing when disconnected. Otherwise the list is
     * stored and marked fetched on success, "Authentication failed"
     * disconnects, other failures and throws change nothing; the loading flag
     * is down again at the end.
     */
    method FetchPlaylists(reply: Remote<PlaylistsReply>)
      requires Valid()
      modifies this`playlists, this`playlistsFetched, this`isConnected, this`playlistsLoading
      ensures Valid()
      ensures !old(isConnected) ==>
        && playlists == old(playlists) && playlistsFetched == old(playlistsFetched)
        && !isConnected && playlistsLoading == old(playlistsLoading)
      ensures old(isConnected) ==> !playlistsLoading
      ensures old(isConnected) && reply.Returned? && reply.value.PlaylistsOk? ==>
        playlists == reply.value.data && playlistsFetched && isConnected
      ensures old(isConnected) && reply.Returned? && reply.value.PlaylistsErr? ==>
        && playlists == old(playlists) && playlistsFetched == old(playlistsFetched)
        && isConnected == ConnectedAfter(true, Err(reply.value.error))
      ensures old(isConnected) && reply.Threw? ==>
        playlists == old(playlists) && playlistsFetched == old(playlistsFetched) && isConnected
    {
      if !isConnected {
        return;
      }
      playlistsLoading := true;
      match reply {
        case Returned(PlaylistsOk(data)) =>
          playlists := data;
          playlistsFetched := true;
        case Returned(PlaylistsErr(error)) =>
          if error == AuthFailed {
            isConnected := false;
          }
        case Threw =>
      }
      playlistsLoading := false;
    }

    /** The effect that loads the playlists once per connection. */
    method AutoFetchPlaylists(reply: Remote<PlaylistsReply>)
      requires Valid()
      modifies this`playlists, this`playlistsFetched, this`isConnected, this`playlistsLoading
      ensures Valid()
      ensures !(old(isConnected) && !old(playlistsFetched)) ==>
        && playlists == old(playlists) && playlistsFetched == old(playlistsFetched)
        && isConnected == old(isConnected) && playlistsLoading == old(playlistsLoading)
      ensures old(isConnected) && !old(playlistsFetched) ==> !playlistsLoading
      ensures old(isConnected) && !old(playlistsFetched) && reply.Returned? && reply.value.PlaylistsOk? ==>
        playlists == reply.value.data && playlistsFetched && isConnected
      ensures old(isConnected) && !old(playlistsFetched) && reply.Returned? && reply.value.PlaylistsErr? ==>
        && playlists == old(playlists) && !playlistsFetched
        && isConnected == ConnectedAfter(true, Err(reply.value.error))
      ensures old(isConnected) && !old(playlistsFetched) && reply.Threw? ==>
        playlists == old(playlists) && !playlistsFetched && isConnected
    {
      if isConnected && !playlistsFetched {
        FetchPlaylists(reply);
      }
    }

    /**
     * `logout`: once the server has cleared both tokens the session is
     * disconnected, the list emptied, the token dropped and the fetched mark
     * cleared; when clearing throws nothing changes.
     */
    method Logout(server: SpotifyServer, clearThrows: bool)
      requires Valid()
      modifies this`isConnected, this`playlists, this`accessToken, this`playlistsFetched, server`cookies
      ensures Valid()
      ensures clearThrows ==>
        && isConnected == old(isConnected) && playlists == old(playlists)
        && accessToken == old(accessToken) && playlistsFetched == old(playlistsFetched)
        && server.cookies == old(server.cookies)
      ensures !clearThrows ==>
        && !isConnected && playlists == [] && accessToken == None && !playlistsFetched
        && server.cookies == ClearTokens(old(server.cookies)) && !IsConnected(server.cookies)
    {
      if clearThrows {
        return;
      }
      var _ := server.ClearSpotifyTokens();
      ClearDisconnects(old(server.cookies));
      isConnected := false;
      playlists := [];
      accessToken := None;
      playlistsFetched := false;
    }

    /**
     * `startPlaylist(uri)`: refused without a connection or a ready player with
     * a device id, without calling the remote; otherwise `playPlaylist` is
     * called once with the device id.
     */
    method StartPlaylist(uri: string, reply: Remote<Outcome>) returns (o: Outcome)
      requires Valid()
      modifies this`playCalls
      ensures o == StartResult(isConnected, isReady, deviceId, reply)
      ensures !(isConnected && isReady && Truthy(deviceId)) ==> playCalls == old(playCalls)
      ensures isConnected && isReady && Truthy(deviceId) ==> playCalls == old(playCalls) + [(uri, deviceId.value)]
    {
      if !isConnected {
        return Err("Not connected");
      }
      if !isReady || !Truthy(deviceId) {
        return Err("Web player not ready");
      }
      playCalls := playCalls + [(uri, deviceId.value)];
      match reply
      case Threw =>
        o := Err("Network error");
      case Returned(r) =>
        o := if r.Ok? then Ok else Err(r.error);
    }

    /**
     * `togglePlayPause`: without a connection or a current track it does
     * nothing; otherwise it sends pause or play and disconnects on
     * "Authentication failed"; a rejected call changes nothing. In a valid
     * session there is never a current track, so the button does nothing at all.
     */
    method TogglePlayPause(server: SpotifyServer, callThrows: bool)
      modifies this`isConnected, server
      ensures old(Valid()) ==> isConnected == old(isConnected) && server.State() == old(server.State())
      ensures !old(isConnected) || old(currentTrack).None? || callThrows ==>
        isConnected == old(isConnected) && server.State() == old(server.State())
      ensures old(isConnected) && old(currentTrack).Some? && !callThrows ==>
        var (o, w) := Control(old(server.State()), ToggleAction(old(currentTrack).value));
        server.State() == w && isConnected == ConnectedAfter(true, o)
    {
      if !isConnected || currentTrack.None? {
        return;
      }
      var action := if currentTrack.value.isPlaying then Pause else Play;
      if callThrows {
        return;
      }
      var result := server.ControlPlayback(action);
      if !result.Ok? && result.error == AuthFailed {
        isConnected := false;
      }
    }

    /**
     * `skipTrack(direction)`: nothing when disconnected or when the call
     * rejects; otherwise the skip, disconnecting on "Authentication failed".
     */
    method SkipTrack(server: SpotifyServer, direction: Action, callThrows: bool)
      requires Valid() && (direction == Next || direction == Previous)
      modifies this`isConnected, server
      ensures Valid()
      ensures !old(isConnected) ==> !isConnected && server.State() == old(server.State())
      ensures old(isConnected) && callThrows ==> isConnected && server.State() == old(server.State())
      ensures old(isConnected) && !callThrows ==>
        var (o, w) := Control(old(server.State()), direction);
        server.State() == w && isConnected == ConnectedAfter(true, o)
    {
      if !isConnected || callThrows {
        return;
      }
      var result := server.ControlPlayback(direction);
      if !result.Ok? && result.error == AuthFailed {
        isConnected := false;
      }
    }

    /** `login`: send the window to the authorization page. */
    method Login(clientId: Option<string>, redirectUri: Option<string>)
      modifies this`navigation
      ensures navigation == Authorize(AuthorizeUrl, LoginQuery(clientId, redirectUri))
    {
      navigation := Authorize(AuthorizeUrl, LoginQuery(clientId, redirectUri));
    }
  }
}
