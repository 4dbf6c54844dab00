/**
 * The in-browser playback device (the `useSpotifyWebPlayer` hook): loading the
 * Web Playback SDK script once, creating at most one player, and the state the
 * player's event listeners maintain (device id, readiness, last error, and
 * whether the account needs Premium).
 */
module WebPlayer {
  import opened Wrappers
  import opened Text

  const PremiumOnly: string := "premium users only"

  /** The cells the listeners write. */
  datatype DeviceState = DeviceState(deviceId: Option<string>, isReady: bool, error: Option<string>, isPremiumRequired: bool)

  const InitialDevice: DeviceState := DeviceState(None, false, None, false)

  /** The events the player reports, with their payloads. */
  datatype PlayerEvent =
    | Ready(deviceId: string)
    | NotReady(deviceId: string)
    | InitializationError(message: string)
    | AuthenticationError(message: string)
    | AccountError(message: string)
    | PlaybackError(message: string)

  /**
   * What one listener does. `ready` records the device, marks it ready and
   * clears the error and the Premium flag; `not_ready` only clears readiness
   * (the device id stays); each error event records its message, and an
   * account error also raises the Premium flag when the message mentions
   * "premium users only".
   */
  function Apply(s: DeviceState, e: PlayerEvent): (t: DeviceState)
    ensures e.Ready? ==> t == DeviceState(Some(e.deviceId), true, None, false)
    ensures e.NotReady? ==> t == s.(isReady := false)
    ensures !e.Ready? && !e.NotReady? ==>
      t.error == Some(e.message) && t.deviceId == s.deviceId && t.isReady == s.isReady
    ensures !e.Ready? && !e.AccountError? ==> t.isPremiumRequired == s.isPremiumRequired
    ensures e.AccountError? ==> (t.isPremiumRequired <==> s.isPremiumRequired || exists i :: OccursAt(e.message, PremiumOnly, i))
  {
    match e
    case Ready(id) => DeviceState(Some(id), true, None, false)
    case NotReady(_) => s.(isReady := false)
    case InitializationError(m) => s.(error := Some(m))
    case AuthenticationError(m) => s.(error := Some(m))
    case AccountError(m) => s.(error := Some(m), isPremiumRequired := s.isPremiumRequired || Includes(m, PremiumOnly))
    case PlaybackError(m) => s.(error := Some(m))
  }

  /** The state after the events arrive in order. */
  function Replay(s: DeviceState, events: seq<PlayerEvent>): DeviceState
    decreases |events|
  {
    if events == [] then s else Replay(Apply(s, events[0]), events[1..])
  }

  /** An account error whose message contains "premium users only" anywhere raises the Premium flag. */
  lemma PremiumMessage(s: DeviceState, before: string, after: string)
    ensures Apply(s, AccountError(before + PremiumOnly + after)).isPremiumRequired
  {
    IncludesInfix(before, PremiumOnly, after);
  }

  /**
   * Only `ready` clears the Premium flag: once raised, it stays raised through
   * any events without a `ready`.
   */
  lemma {:induction false} PremiumSticky(s: DeviceState, events: seq<PlayerEvent>)
    requires s.isPremiumRequired
    requires forall i :: 0 <= i < |events| ==> !events[i].Ready?
    ensures Replay(s, events).isPremiumRequired
    decreases |events|
  {
    if events != [] {
      PremiumSticky(Apply(s, events[0]), events[1..]);
    }
  }

  /**
   * Only `ready` changes the device id: after a run of events the id is that
   * of the last `ready`, or the one it had when no `ready` came.
   */
  lemma {:induction false} DeviceIdFromLastReady(s: DeviceState, events: seq<PlayerEvent>)
    ensures (forall i :: 0 <= i < |events| ==> !events[i].Ready?) ==> Replay(s, events).deviceId == s.deviceId
    ensures forall k :: 0 <= k < |events| && events[k].Ready? && (forall j :: k < j < |events| ==> !events[j].Ready?) ==>
      Replay(s, events).deviceId == Some(events[k].deviceId)
    decreases |events|
  {
    if events != [] {
      var t := Apply(s, events[0]);
      DeviceIdFromLastReady(t, events[1..]);
      forall k | 0 <= k < |events| && events[k].Ready? && (forall j :: k < j < |events| ==> !events[j].Ready?)
        ensures Replay(s, events).deviceId == Some(events[k].deviceId)
      {
        if k > 0 {
          assert events[1..][k - 1] == events[k];
          assert forall j :: k - 1 < j < |events| - 1 ==> !events[1..][j].Ready? by {
            forall j | k - 1 < j < |events| - 1 ensures !events[1..][j].Ready? {
              assert events[1..][j] == events[j + 1];
            }
          }
        } else {
          assert forall j :: 0 <= j < |events| - 1 ==> !events[1..][j].Ready? by {
            forall j | 0 <= j < |events| - 1 ensures !events[1..][j].Ready? {
              assert events[1..][j] == events[j + 1];
            }
          }
        }
      }
    }
  }

  // ---------------------------------------------------------------------------
  // The hook's state cells

  /** The hook's cells, the SDK scripts present in the document and what was done to the player. */
  class WebPlayerHook {
    var deviceId: Option<string>
    var isReady: bool
    var error: Option<string>
    var isPremiumRequired: bool
    var isSDKLoaded: bool
    /** `player !== null`. */
    var hasPlayer: bool
    /** Players constructed so far. */
    var playersCreated: nat
    /** The token the player hands to the SDK. */
    var playerToken: string
    var playerConnected: bool
    var playerDisconnected: bool
    /** Script elements with the SDK's URL in the document. */
    var sdkScripts: nat
    /** `window.onSpotifyWebPlaybackSDKReady` has been installed. */
    var readyCallbackInstalled: bool

    function Device(): DeviceState
      reads this
    {
      DeviceState(deviceId, isReady, error, isPremiumRequired)
    }

    /** At most one player is ever constructed, and there is one exactly when one was. */
    ghost predicate Valid()
      reads this
    {
      playersCreated <= 1 && (hasPlayer <==> playersCreated == 1)
      && (playerConnected ==> hasPlayer)
    }

    constructor (scriptsInDocument: nat)
      ensures Valid() && Device() == InitialDevice
      ensures !isSDKLoaded && !hasPlayer && playersCreated == 0 && !playerConnected && !playerDisconnected
      ensures sdkScripts == scriptsInDocument && !readyCallbackInstalled
    {
      deviceId := None;
      isReady := false;
      error := None;
      isPremiumRequired := false;
      isSDKLoaded := false;
      hasPlayer := false;
      playersCreated := 0;
      playerToken := "";
      playerConnected := false;
      playerDisconnected := false;
      sdkScripts := scriptsInDocument;
      readyCallbackInstalled := false;
    }

    /**
     * `loadSDK`: when the SDK is already loaded or its script is already in the
     * document, only the loaded flag is set; otherwise one script is appended
     * and the ready callback installed.
     */
    method LoadSDK()
      modifies this`isSDKLoaded, this`sdkScripts, this`readyCallbackInstalled
      ensures old(isSDKLoaded) || old(sdkScripts) > 0 ==>
        isSDKLoaded && sdkScripts == old(sdkScripts) && readyCallbackInstalled == old(readyCallbackInstalled)
      ensures !old(isSDKLoaded) && old(sdkScripts) == 0 ==>
        !isSDKLoaded && sdkScripts == 1 && readyCallbackInstalled
      ensures sdkScripts <= 1 || sdkScripts == old(sdkScripts)
    {
      if isSDKLoaded || sdkScripts > 0 {
        isSDKLoaded := true;
        return;
      }
      sdkScripts := sdkScripts + 1;
      readyCallbackInstalled := true;
    }

    /** The SDK calls the installed ready callback once it has loaded. */
    method SdkReady()
      requires readyCallbackInstalled
      modifies this`isSDKLoaded
      ensures isSDKLoaded
    {
      isSDKLoaded := true;
    }

    /**
     * `initializePlayer`: without the SDK on the window, without a token, or
     * with a player already there it does nothing; otherwise it constructs the
     * player with the token, connects it and keeps it.
     */
    method InitializePlayer(sdkOnWindow: bool, accessToken: Option<string>)
      requires Valid()
      modifies this`hasPlayer, this`playersCreated, this`playerToken, this`playerConnected
      ensures Valid()
      ensures !sdkOnWindow || !Truthy(accessToken) || old(hasPlayer) ==>
        hasPlayer == old(hasPlayer) && playersCreated == old(playersCreated)
        && playerToken == old(playerToken) && playerConnected == old(playerConnected)
      ensures sdkOnWindow && Truthy(accessToken) && !old(hasPlayer) ==>
        hasPlayer && playersCreated == 1 && playerToken == accessToken.value && playerConnected
    {
      if !sdkOnWindow || !Truthy(accessToken) || hasPlayer {
        return;
      }
      playersCreated := playersCreated + 1;
      playerToken := accessToken.value;
      playerConnected := true;
      hasPlayer := true;
    }

    /** The effect that initializes the player once the SDK is loaded and a token is known. */
    method InitEffect(sdkOnWindow: bool, accessToken: Option<string>)
      requires Valid()
      modifies this`hasPlayer, this`playersCreated, this`playerToken, this`playerConnected
      ensures Valid()
      ensures !(isSDKLoaded && sdkOnWindow && Truthy(accessToken) && !old(hasPlayer)) ==>
        hasPlayer == old(hasPlayer) && playersCreated == old(playersCreated)
        && playerToken == old(playerToken) && playerConnected == old(playerConnected)
      ensures isSDKLoaded && sdkOnWindow && Truthy(accessToken) && !old(hasPlayer) ==>
        hasPlayer && playersCreated == 1 && playerToken == accessToken.value && playerConnected
    {
      if isSDKLoaded && Truthy(accessToken) && !hasPlayer {
        InitializePlayer(sdkOnWindow, accessToken);
      }
    }

    /** One event from the player, handled by its listener; with no player there is no listener. */
    method HandleEvent(e: PlayerEvent)
      modifies this`deviceId, this`isReady, this`error, this`isPremiumRequired
      ensures old(hasPlayer) ==> Device() == Apply(old(Device()), e)
      ensures !old(hasPlayer) ==> Device() == old(Device())
    {
      if !hasPlayer {
        return;
      }
      match e {
        case Ready(id) =>
          deviceId := Some(id);
          isReady := true;
          error := None;
          isPremiumRequired := false;
        case NotReady(_) =>
          isReady := false;
        case InitializationError(m) =>
          error := Some(m);
        case AuthenticationError(m) =>
          error := Some(m);
        case AccountError(m) =>
          error := Some(m);
          if Includes(m, PremiumOnly) {
            isPremiumRequired := true;
          }
        case PlaybackError(m) =>
          error := Some(m);
      }
    }

    /** The cleanup of the player effect: disconnect the player if there is one. */
    method Cleanup()
      modifies this`playerDisconnected
      ensures playerDisconnected == (old(playerDisconnected) || hasPlayer)
    {
      if hasPlayer {
        playerDisconnected := true;
      }
    }
  }
}
