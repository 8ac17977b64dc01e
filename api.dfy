/**
 * The token store and the response handling of api.ts. `localStorage` is a
 * class whose one field maps keys to strings; `Date.now()` is the parameter
 * `now` (milliseconds since the epoch); the HTTP responses of the token
 * endpoint and of the Web API are inputs. A stored item counts as present
 * when JavaScript would find it truthy: the key is there and the value is
 * not the empty string.
 */
module Api {
  import opened Wrappers
  import Text
  import Utils
  import LegacyUtils

  const ExpiresInKey: string := "expires_in"
  const AccessTokenKey: string := "access_token"
  const RefreshTokenKey: string := "refresh_token"
  const CodeVerifierKey: string := "code_verifier"

  const ConnectMessage: string := "Please connect your spotify account"
  const NoPlaybackMessage: string := "Playback not available or active"

  /** `localStorage.getItem(key)`: None is null. */
  function GetItem(items: map<string, string>, key: string): Option<string> {
    if key in items then Some(items[key]) else None
  }

  /** `localStorage.getItem(key)` is truthy. */
  predicate Stored(items: map<string, string>, key: string) {
    key in items && items[key] != ""
  }

  class LocalStorage {
    var items: map<string, string>

    constructor(items: map<string, string>)
      ensures this.items == items
    {
      this.items := items;
    }

    /** `localStorage.setItem(key, value)`. */
    method SetItem(key: string, value: string)
      modifies this
      ensures items == old(items)[key := value]
    {
      items := items[key := value];
    }
  }

  /**
   * A token endpoint response (section 5.1 of RFC 6749). `expires_in` is
   * recommended and `refresh_token` optional there; a missing refresh token
   * is the empty string, as JavaScript tests it for truthiness.
   */
  datatype TokenResponse = TokenResponse(accessToken: string, expiresIn: Option<nat>, refreshToken: string)

  /**
   * `Date.now() + expiresIn * 1000` as `toString` prints it; without
   * `expires_in` the sum is NaN.
   */
  function ExpiryString(now: nat, expiresIn: Option<nat>): (r: string)
    ensures expiresIn.Some? ==> Text.ParseInt(r) == Some(now + expiresIn.value * 1000)
    ensures expiresIn.None? ==> r != "" && Text.ParseInt(r) == None
  {
    match expiresIn
    case Some(e) =>
      Text.ParseIntOfNatToString(now + e * 1000);
      Text.NatToString(now + e * 1000)
    case None => "NaN"
  }

  /**
   * The store after `setTokens`: the expiry is the response's lifetime
   * from now, the access token is always replaced, the refresh token only
   * when the response carries one, and no other key changes.
   */
  function SetTokensSpec(items: map<string, string>, now: nat, response: TokenResponse): (r: map<string, string>)
    ensures ExpiresInKey in r && Text.ParseInt(r[ExpiresInKey]) == (
      if response.expiresIn.Some? then Some(now + response.expiresIn.value * 1000) else None)
    ensures GetItem(r, AccessTokenKey) == Some(response.accessToken)
    ensures response.refreshToken != "" ==> GetItem(r, RefreshTokenKey) == Some(response.refreshToken)
    ensures response.refreshToken == "" ==> GetItem(r, RefreshTokenKey) == GetItem(items, RefreshTokenKey)
    ensures forall k :: k != ExpiresInKey && k != AccessTokenKey && k != RefreshTokenKey ==>
      GetItem(r, k) == GetItem(items, k)
  {
    var withExpiry := items[ExpiresInKey := ExpiryString(now, response.expiresIn)];
    var withAccess := withExpiry[AccessTokenKey := response.accessToken];
    if response.refreshToken != "" then withAccess[RefreshTokenKey := response.refreshToken] else withAccess
  }

  /** `setTokens`: three `setItem` calls, the last one only for a truthy refresh token. */
  method SetTokens(store: LocalStorage, now: nat, response: TokenResponse)
    modifies store
    ensures store.items == SetTokensSpec(old(store.items), now, response)
  {
    store.SetItem(ExpiresInKey, ExpiryString(now, response.expiresIn));
    store.SetItem(AccessTokenKey, response.accessToken);
    if response.refreshToken != "" {
      store.SetItem(RefreshTokenKey, response.refreshToken);
    }
  }

  /**
   * `refreshTokens`: without a stored refresh token nothing is requested and
   * nothing changes; otherwise the endpoint's response is stored. `requested`
   * says whether a request went out.
   */
  method RefreshTokens(store: LocalStorage, now: nat, response: TokenResponse) returns (requested: bool)
    modifies store
    ensures requested == Stored(old(store.items), RefreshTokenKey)
    ensures store.items == if requested then SetTokensSpec(old(store.items), now, response) else old(store.items)
  {
    var refreshToken := GetItem(store.items, RefreshTokenKey);
    if refreshToken.None? || refreshToken.value == "" {
      return false;
    }
    SetTokens(store, now, response);
    return true;
  }

  /**
   * `requestToken`: without a stored code verifier nothing is requested;
   * otherwise the endpoint's response to the authorization code is stored.
   */
  method RequestToken(store: LocalStorage, now: nat, response: TokenResponse) returns (requested: bool)
    modifies store
    ensures requested == Stored(old(store.items), CodeVerifierKey)
    ensures store.items == if requested then SetTokensSpec(old(store.items), now, response) else old(store.items)
  {
    var codeVerifier := GetItem(store.items, CodeVerifierKey);
    if codeVerifier.None? || codeVerifier.value == "" {
      return false;
    }
    SetTokens(store, now, response);
    return true;
  }

  /**
   * The module's start-up: a 64-character verifier made from 64 random
   * bytes is stored under "code_verifier".
   */
  method StoreCodeVerifier(store: LocalStorage, values: seq<Utils.Byte>) returns (verifier: string)
    requires |values| == 64
    modifies store
    ensures Utils.IsCodeVerifier(verifier)
    ensures store.items == old(store.items)[CodeVerifierKey := verifier]
  {
    verifier := Utils.GenerateRandomString(values);
    Utils.RandomStringIsCodeVerifier(values);
    store.SetItem(CodeVerifierKey, verifier);
  }

  /** The staleness rule of `getAccessToken`: an expiry is stored, parses, and now has reached it. */
  predicate NeedsRefresh(items: map<string, string>, now: nat) {
    Stored(items, ExpiresInKey)
    && var expiry := Text.ParseInt(items[ExpiresInKey]);
       expiry.Some? && now >= expiry.value
  }

  /** The store after `getAccessToken`: refreshed exactly when the token is stale and a refresh token is stored. */
  function StoreAfterAccess(items: map<string, string>, now: nat, response: TokenResponse): map<string, string> {
    if NeedsRefresh(items, now) && Stored(items, RefreshTokenKey) then SetTokensSpec(items, now, response) else items
  }

  /**
   * `getAccessToken`: null without a stored expiry; a refresh exactly when
   * the expiry has passed; then whatever access token the store holds.
   */
  method GetAccessToken(store: LocalStorage, now: nat, response: TokenResponse)
    returns (token: Option<string>, refreshed: bool)
    modifies store
    ensures !Stored(old(store.items), ExpiresInKey) ==> token.None? && !refreshed && store.items == old(store.items)
    ensures Stored(old(store.items), ExpiresInKey) ==> refreshed == NeedsRefresh(old(store.items), now)
    ensures !refreshed ==> store.items == old(store.items)
    ensures refreshed ==> (store.items ==
      if Stored(old(store.items), RefreshTokenKey) then SetTokensSpec(old(store.items), now, response) else old(store.items))
    ensures Stored(old(store.items), ExpiresInKey) ==> token == GetItem(store.items, AccessTokenKey)
    ensures store.items == StoreAfterAccess(old(store.items), now, response)
  {
    var expirationString := GetItem(store.items, ExpiresInKey);
    if expirationString.None? || expirationString.value == "" {
      return None, false;
    }
    var expiration := Text.ParseInt(expirationString.value);
    refreshed := false;
    if expiration.Some? && now >= expiration.value {
      var _ := RefreshTokens(store, now, response);
      refreshed := true;
    }
    token := GetItem(store.items, AccessTokenKey);
  }

  /** `isAuthenticated`: both tokens are stored; no request is made. */
  predicate IsAuthenticated(items: map<string, string>) {
    Stored(items, AccessTokenKey) && Stored(items, RefreshTokenKey)
  }

  /**
   * The expiry `setTokens` stores makes a token stale exactly from
   * `expires_in` seconds after it was stored; an expiry that is NaN never
   * makes it stale.
   */
  lemma StaleExactlyAfterLifetime(items: map<string, string>, stored: nat, response: TokenResponse, now: nat)
    ensures NeedsRefresh(SetTokensSpec(items, stored, response), now) <==>
      response.expiresIn.Some? && now >= stored + response.expiresIn.value * 1000
  {
    var r := SetTokensSpec(items, stored, response);
    var e := ExpiryString(stored, response.expiresIn);
    assert r[ExpiresInKey] == e;
    if response.expiresIn.Some? {
      Text.ParseIntOfNatToString(stored + response.expiresIn.value * 1000);
      assert e != "";
    }
  }

  /**
   * A response without a refresh token keeps the stored one, so a session
   * that was authenticated stays authenticated when the new access token is
   * not empty; a response with both tokens authenticates any session.
   */
  lemma SetTokensKeepsSession(items: map<string, string>, now: nat, response: TokenResponse)
    requires response.accessToken != ""
    ensures IsAuthenticated(SetTokensSpec(items, now, response)) <==>
      response.refreshToken != "" || Stored(items, RefreshTokenKey)
  {
    var r := SetTokensSpec(items, now, response);
    assert GetItem(r, AccessTokenKey) == Some(response.accessToken);
    assert GetItem(r, RefreshTokenKey) == (if response.refreshToken != "" then Some(response.refreshToken) else GetItem(items, RefreshTokenKey));
  }

  /**
   * Right after tokens are stored with a lifetime, `getAccessToken` before
   * the expiry returns the new access token without a refresh.
   */
  lemma FreshTokenIsServed(items: map<string, string>, stored: nat, response: TokenResponse, now: nat)
    requires response.expiresIn.Some? && now < stored + response.expiresIn.value * 1000
    ensures Stored(SetTokensSpec(items, stored, response), ExpiresInKey)
    ensures !NeedsRefresh(SetTokensSpec(items, stored, response), now)
    ensures GetItem(SetTokensSpec(items, stored, response), AccessTokenKey) == Some(response.accessToken)
  {
    StaleExactlyAfterLifetime(items, stored, response, now);
    var e := ExpiryString(stored, response.expiresIn);
    Text.ParseIntOfNatToString(stored + response.expiresIn.value * 1000);
    assert e != "";
  }

  // ---------------------------------------------------------------- Web API responses

  /** What `response.json()` yields: an `error` object or the data. */
  datatype ApiBody<T> = ApiError(errorStatus: int, message: string) | ApiData(data: T)

  datatype ApiResponse<T> = ApiResponse(status: int, body: ApiBody<T>)

  /** The error mapping shared by both requests: 400 asks to reconnect, any other error passes its message on. */
  function ClassifyBody<T>(body: ApiBody<T>): (r: Result<T>)
    ensures r.Success? <==> body.ApiData?
    ensures r.Success? ==> r.value == body.data
    ensures body.ApiError? && body.errorStatus == 400 ==> r == Failure(ConnectMessage)
    ensures body.ApiError? && body.errorStatus != 400 ==> r == Failure(body.message)
  {
    match body
    case ApiError(status, message) => if status == 400 then Failure(ConnectMessage) else Failure(message)
    case ApiData(data) => Success(data)
  }

  /** The outcome of `getCurrentlyPlayingTrack` once the request is made: 204 comes before the body. */
  function ClassifyPlayback<T>(response: ApiResponse<T>): (r: Result<T>)
    ensures response.status == 204 ==> r == Failure(NoPlaybackMessage)
    ensures response.status != 204 ==> r == ClassifyBody(response.body)
  {
    if response.status == 204 then Failure(NoPlaybackMessage) else ClassifyBody(response.body)
  }

  /**
   * `getCurrentlyPlayingTrack`: an unauthenticated store throws before any
   * request or token access; otherwise the token is fetched (and refreshed
   * when stale) and the response classified.
   */
  method GetCurrentlyPlayingTrack<T>(store: LocalStorage, now: nat, tokenResponse: TokenResponse, response: ApiResponse<T>)
    returns (r: Result<T>, requested: bool)
    modifies store
    ensures !IsAuthenticated(old(store.items)) ==> r == Failure(ConnectMessage) && !requested && store.items == old(store.items)
    ensures IsAuthenticated(old(store.items)) ==> requested && r == ClassifyPlayback(response)
    ensures IsAuthenticated(old(store.items)) ==> store.items == StoreAfterAccess(old(store.items), now, tokenResponse)
  {
    if !IsAuthenticated(store.items) {
      return Failure(ConnectMessage), false;
    }
    var _, _ := GetAccessToken(store, now, tokenResponse);
    r := ClassifyPlayback(response);
    requested := true;
  }

  /**
   * `searchTrack`: unauthenticated throws; an empty query is null with no
   * request and no token access; otherwise the same error mapping without
   * the 204 case.
   */
  method SearchTrack<T>(store: LocalStorage, query: string, now: nat, tokenResponse: TokenResponse, response: ApiResponse<T>)
    returns (r: Result<Option<T>>, requested: bool)
    modifies store
    ensures !IsAuthenticated(old(store.items)) ==> r == Failure(ConnectMessage) && !requested && store.items == old(store.items)
    ensures IsAuthenticated(old(store.items)) && query == "" ==> r == Success(None) && !requested && store.items == old(store.items)
    ensures IsAuthenticated(old(store.items)) && query != "" ==> (requested &&
      r == match ClassifyBody(response.body) case Success(v) => Success(Some(v)) case Failure(m) => Failure(m))
    ensures IsAuthenticated(old(store.items)) && query != "" ==> store.items == StoreAfterAccess(old(store.items), now, tokenResponse)
  {
    if !IsAuthenticated(store.items) {
      return Failure(ConnectMessage), false;
    }
    if query == "" {
      return Success(None), false;
    }
    var _, _ := GetAccessToken(store, now, tokenResponse);
    requested := true;
    match ClassifyBody(response.body)
    case Success(v) => r := Success(Some(v));
    case Failure(m) => r := Failure(m);
  }

  /** A search and a playback request fail with the same message on every body unless the status is 204. */
  lemma SameErrorMapping<T>(response: ApiResponse<T>)
    requires response.status != 204
    ensures ClassifyPlayback(response).Failure? <==> response.body.ApiError?
    ensures ClassifyPlayback(response) == ClassifyBody(response.body)
  {
  }

  // ---------------------------------------------------------------- track processing

  datatype Image = Image(url: string, width: nat, height: nat)

  datatype ApiAlbum = ApiAlbum(id: string, name: string, images: seq<Image>)

  datatype ApiTrack = ApiTrack(id: string, name: string, artistNames: seq<string>, album: ApiAlbum, durationMs: nat)

  datatype PlayingItem = TrackPlaying(track: ApiTrack) | EpisodePlaying

  datatype PlaybackState = PlaybackState(item: PlayingItem, progressMs: nat)

  /**
   * A duration handed to moment.js: the milliseconds and the pattern the
   * older `formatMs` picks for them (the formatting itself is not modelled).
   */
  datatype MomentText = MomentText(ms: nat, pattern: string)

  function FormatMsLegacy(ms: nat): (r: MomentText)
    ensures r.ms == ms
    ensures r.pattern == "HH:mm:ss" <==> ms >= 3600000
  {
    Text.ParseIntOfNatToString(ms);
    MomentText(ms, LegacyUtils.FormatMsPattern(Text.NatToString(ms)))
  }

  /** The older `TrackFormatted`. */
  datatype TrackFormatted = TrackFormatted(
    album: string,
    albumId: string,
    artists: string,
    id: string,
    name: string,
    image: Option<Image>,
    duration: MomentText,
    progress: Option<MomentText>)

  /** `images[images.length - 1]`: the last image, undefined when there is none. */
  function LastImage(images: seq<Image>): (r: Option<Image>)
    ensures r.None? <==> images == []
    ensures r.Some? ==> r.value == images[|images| - 1]
  {
    if images == [] then None else Some(images[|images| - 1])
  }

  /** `processTrack`. */
  function ProcessTrack(track: ApiTrack): (r: TrackFormatted)
    ensures r.id == track.id && r.name == track.name
    ensures r.album == track.album.name && r.albumId == track.album.id
    ensures r.artists == Text.Join(track.artistNames, ", ")
    ensures r.image == LastImage(track.album.images)
    ensures r.duration.ms == track.durationMs && r.progress.None?
  {
    TrackFormatted(
      track.album.name, track.album.id, Text.Join(track.artistNames, ", "),
      track.id, track.name, LastImage(track.album.images), FormatMsLegacy(track.durationMs), None)
  }

  /**
   * The artists string of `processTrack` lists every artist name, in order,
   * with ", " between consecutive names.
   */
  lemma ProcessTrackArtists(track: ApiTrack, i: nat)
    requires i < |track.artistNames|
    ensures var s := ProcessTrack(track).artists; var o := Text.JoinOffset(track.artistNames, ", ", i);
      && o + |track.artistNames[i]| <= |s|
      && s[o..o + |track.artistNames[i]|] == track.artistNames[i]
      && (i + 1 < |track.artistNames| ==> Text.JoinOffset(track.artistNames, ", ", i + 1) <= |s|)
      && (i + 1 < |track.artistNames| ==> s[o + |track.artistNames[i]|..Text.JoinOffset(track.artistNames, ", ", i + 1)] == ", ")
  {
    Text.JoinElement(track.artistNames, ", ", i);
    if i + 1 < |track.artistNames| {
      Text.JoinSeparator(track.artistNames, ", ", i);
    }
  }

  /** `processCurrentlyPlayingResponse`: null for an episode, otherwise the track with its progress. */
  function ProcessCurrentlyPlayingResponse(state: PlaybackState): (r: Option<TrackFormatted>)
    ensures r.None? <==> state.item.EpisodePlaying?
    ensures r.Some? ==> (r.value.progress == Some(FormatMsLegacy(state.progressMs))
      && r.value == ProcessTrack(state.item.track).(progress := r.value.progress))
  {
    match state.item
    case EpisodePlaying => None
    case TrackPlaying(track) => Some(ProcessTrack(track).(progress := Some(FormatMsLegacy(state.progressMs))))
  }
}
