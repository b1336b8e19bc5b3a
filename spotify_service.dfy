/**
 * The authorization gate and the playback operations of the service that wraps
 * the provider client. The provider is the `account` snapshot it reads; every
 * call it issues is appended to the ghost log `calls`, and every login request
 * it opens in the browser to the ghost log `logins`.
 */
module Services {
  import opened Outcomes
  import opened Provider

  /** The two settings the service reads at construction. */
  datatype KernelSettings = KernelSettings(spotifyDeviceId: Option<string>, spotifyClientId: string)

  /** An authenticated provider client, built from an access token. */
  datatype Client = SpotifyClient(accessToken: string)

  /** The implicit-grant login request opened in the browser (response type: token). */
  datatype LoginRequest = LoginRequest(redirectUri: string, clientId: string)

  /** Base address of the local callback server, which listens on port 5000. */
  const CallbackBaseUri: string := "http://localhost:5000"

  /**
   * What the local callback server receives while the authorization step waits:
   * an implicit grant carrying a token, an error, or nothing in time.
   */
  datatype GrantOutcome =
    | Granted(accessToken: string)
    | ErrorReceived(error: string, state: Option<string>)
    | NoCallback

  /** The exception every public operation throws when no client exists after the gate. */
  const NotAuthorized: Exception := InvalidOperation("Spotify is not authorized")

  const TrackUriPrefix: string := "spotify:track:"

  /** The provider URI of a track id. */
  function TrackUri(trackId: string): (uri: string)
    ensures |uri| == |TrackUriPrefix| + |trackId|
    ensures uri[..|TrackUriPrefix|] == TrackUriPrefix
    ensures uri[|TrackUriPrefix|..] == trackId
  {
    TrackUriPrefix + trackId
  }

  /** Reads a track id back from a track URI. */
  function ParseTrackUri(uri: string): Option<string> {
    if |TrackUriPrefix| <= |uri| && uri[..|TrackUriPrefix|] == TrackUriPrefix
    then Some(uri[|TrackUriPrefix|..])
    else None
  }

  lemma TrackUriRoundTrip(trackId: string)
    ensures ParseTrackUri(TrackUri(trackId)) == Some(trackId)
  {
  }

  /** Every URI that parses is the URI of the id it parses to. */
  lemma ParseTrackUriSound(uri: string, trackId: string)
    requires ParseTrackUri(uri) == Some(trackId)
    ensures TrackUri(trackId) == uri
  {
  }

  /** Distinct track ids give distinct URIs, so the URI names exactly one track. */
  lemma TrackUriInjective(a: string, b: string)
    requires TrackUri(a) == TrackUri(b)
    ensures a == b
  {
    TrackUriRoundTrip(a);
    TrackUriRoundTrip(b);
  }

  /** C#'s `response?.Items ?? Enumerable.Empty()`: a null response becomes the empty sequence. */
  function ItemsOrEmpty<T>(response: Option<seq<T>>): (items: seq<T>)
    ensures response.Some? ==> items == response.value
    ensures response.None? ==> items == []
  {
    response.GetOr([])
  }

  /** LINQ's `FirstOrDefault`: the first element, or null for an empty sequence. */
  function FirstOrDefault<T>(s: seq<T>): (r: Option<T>)
    ensures r.None? <==> s == []
    ensures r.Some? ==> r.value == s[0]
  {
    if |s| == 0 then None else Some(s[0])
  }

  /** C#'s `cur?.IsPlaying == true`. */
  predicate ReportsPlaying(cur: Option<CurrentlyPlaying>)
    ensures ReportsPlaying(cur) <==> cur == Some(CurrentlyPlaying(true))
  {
    cur.Some? && cur.value.isPlaying
  }

  /**
   * The resume request `PlayTrack` issues, or `None` when it issues none: with no
   * track id it resumes only when something is reported as playing.
   */
  function ResumeRequestFor(trackId: Option<string>, cur: Option<CurrentlyPlaying>, deviceId: Option<string>)
    : (req: Option<ResumeRequest>)
    ensures req.None? <==> trackId.None? && !ReportsPlaying(cur)
    ensures req.Some? ==> req.value.deviceId == deviceId
    ensures req.Some? ==> (req.value.uris.None? <==> trackId.None?)
    ensures req.Some? && trackId.Some? ==> req.value.uris == Some([TrackUri(trackId.value)])
  {
    if trackId.None? && !ReportsPlaying(cur) then None
    else
      var uris := if trackId.None? then None else Some([TrackUri(trackId.value)]);
      Some(ResumeRequest(uris, deviceId))
  }

  /** An authorization grant, if the outcome carries one, becomes a client. */
  function GrantedClient(outcome: GrantOutcome): (c: Option<Client>)
    ensures c.Some? <==> outcome.Granted?
    ensures c.Some? ==> c.value.accessToken == outcome.accessToken
  {
    match outcome
    case Granted(token) => Some(SpotifyClient(token))
    case _ => None
  }

  /** The client after the gate: an existing client is kept, otherwise the grant decides. */
  function ClientAfterGate(client: Option<Client>, outcome: GrantOutcome): (c: Option<Client>)
    ensures client.Some? ==> c == client
    ensures client.None? ==> (c.Some? <==> outcome.Granted?)
  {
    if client.Some? then client else GrantedClient(outcome)
  }

  class SpotifyService {
    /** The provider client; absent until an implicit grant arrives. */
    var spotify: Option<Client>
    /** Whether the local callback server is started. */
    var listening: bool
    /** The provider side, read afresh by every call. */
    var account: Account
    const deviceComputerId: Option<string>
    const clientId: string
    /** The provider calls issued so far, in order. */
    ghost var calls: seq<Call>
    /** The login requests opened in the browser so far, in order. */
    ghost var logins: seq<LoginRequest>

    /** The login request this service opens: its client id and the callback address. */
    function Login(): LoginRequest {
      LoginRequest(CallbackBaseUri, clientId)
    }

    /**
     * The listener runs, a client exists, and a provider call is issued only
     * after a login was opened; every login carries this service's client id.
     */
    ghost predicate Valid()
      reads this
    {
      && ((listening || spotify.Some? || |calls| > 0) ==> |logins| > 0)
      && forall i :: 0 <= i < |logins| ==> logins[i] == Login()
    }

    /**
     * What the gate does to the state: it authorizes (one more login) exactly
     * when no client existed, and a client once present is kept.
     */
    twostate predicate Gated(outcome: GrantOutcome)
      reads this
    {
      && spotify == ClientAfterGate(old(spotify), outcome)
      && logins == old(logins) + (if old(spotify).None? then [Login()] else [])
      && listening == (if old(spotify).None? then outcome.NoCallback? else old(listening))
      && account == old(account)
    }

    constructor(settings: KernelSettings, account: Account)
      ensures Valid()
      ensures deviceComputerId == settings.spotifyDeviceId && clientId == settings.spotifyClientId
      ensures spotify == None && !listening && this.account == account
      ensures calls == [] && logins == []
    {
      deviceComputerId := settings.spotifyDeviceId;
      clientId := settings.spotifyClientId;
      spotify := None;
      listening := false;
      this.account := account;
      calls := [];
      logins := [];
    }

    /**
     * Starts the callback server, opens the login request and waits; the outcome
     * is what reached the server during the wait. Without a callback the server
     * is left running.
     */
    method Authorize(outcome: GrantOutcome)
      requires Valid()
      modifies this
      ensures Valid()
      ensures logins == old(logins) + [Login()]
      ensures listening == outcome.NoCallback?
      ensures spotify == if outcome.Granted? then GrantedClient(outcome) else old(spotify)
      ensures calls == old(calls) && account == old(account)
    {
      listening := true;
      logins := logins + [Login()];
      match outcome
      case Granted(token) => OnImplicitGrantReceived(token);
      case ErrorReceived(error, state) => OnErrorReceived(error, state);
      case NoCallback =>
    }

    /** The grant handler: stops the server and builds the client from the token. */
    method OnImplicitGrantReceived(accessToken: string)
      requires Valid() && listening
      modifies this`listening, this`spotify
      ensures Valid()
      ensures !listening && spotify == Some(SpotifyClient(accessToken))
    {
      listening := false;
      spotify := Some(SpotifyClient(accessToken));
    }

    /** The error handler: stops the server and leaves the client as it was. */
    method OnErrorReceived(error: string, state: Option<string>)
      requires Valid() && listening
      modifies this`listening
      ensures Valid()
      ensures !listening
    {
      listening := false;
    }

    /** The gate run by every public operation: authorizes only while no client exists. */
    method CheckIsAuthorized(outcome: GrantOutcome)
      requires Valid()
      modifies this
      ensures Valid() && Gated(outcome)
      ensures calls == old(calls)
    {
      if spotify.None? {
        Authorize(outcome);
      }
    }

    /**
     * Plays a track, or with no track id resumes playback. It always reads the
     * currently-playing status first; with no track id it issues the resume only
     * when something is reported as playing, and returns whether it issued one.
     */
    method PlayTrack(trackId: Option<string>, outcome: GrantOutcome) returns (r: Result<bool>)
      requires Valid()
      modifies this
      ensures Valid() && Gated(outcome)
      ensures spotify.None? ==> r == Throws(NotAuthorized) && calls == old(calls)
      ensures spotify.Some? ==>
        var req := ResumeRequestFor(trackId, account.nowPlaying, deviceComputerId);
        && r == Ok(req.Some?)
        && calls == old(calls) + [Call.GetCurrentlyPlaying] + (if req.Some? then [ResumePlayback(req.value)] else [])
    {
      CheckIsAuthorized(outcome);
      if spotify.None? {
        return Throws(NotAuthorized);
      }
      var cur := GetCurrentlyPlaying(outcome);
      if trackId.None? && !ReportsPlaying(cur.value) {
        return Ok(false);
      }
      calls := calls + [ResumePlayback(ResumeRequest(
        if trackId.None? then None else Some([TrackUri(trackId.value)]),
        deviceComputerId))];
      return Ok(true);
    }

    /** Searches tracks; a null response is the empty sequence, items keep the provider's order. */
    method SearchTracks(query: string, outcome: GrantOutcome) returns (r: Result<seq<Track>>)
      requires Valid()
      modifies this
      ensures Valid() && Gated(outcome)
      ensures spotify.None? ==> r == Throws(NotAuthorized) && calls == old(calls)
      ensures spotify.Some? ==>
        && r == Ok(ItemsOrEmpty(account.SearchResponse(query)))
        && calls == old(calls) + [SearchItem(query)]
    {
      CheckIsAuthorized(outcome);
      if spotify.None? {
        return Throws(NotAuthorized);
      }
      calls := calls + [SearchItem(query)];
      var response := account.SearchResponse(query);
      return Ok(ItemsOrEmpty(response));
    }

    /** The first search result, or null when the search finds nothing. */
    method SearchTrack(query: string, outcome: GrantOutcome) returns (r: Result<Option<Track>>)
      requires Valid()
      modifies this
      ensures Valid() && Gated(outcome)
      ensures spotify.None? ==> r == Throws(NotAuthorized) && calls == old(calls)
      ensures spotify.Some? ==>
        && r == Ok(FirstOrDefault(ItemsOrEmpty(account.SearchResponse(query))))
        && calls == old(calls) + [SearchItem(query)]
    {
      CheckIsAuthorized(outcome);
      if spotify.None? {
        return Throws(NotAuthorized);
      }
      var response := SearchTracks(query, outcome);
      return Ok(FirstOrDefault(response.value));
    }

    method Pause(outcome: GrantOutcome) returns (r: Result<()>)
      requires Valid()
      modifies this
      ensures Valid() && Gated(outcome)
      ensures spotify.None? ==> r == Throws(NotAuthorized) && calls == old(calls)
      ensures spotify.Some? ==> r == Ok(()) && calls == old(calls) + [PausePlayback]
    {
      CheckIsAuthorized(outcome);
      if spotify.None? {
        return Throws(NotAuthorized);
      }
      calls := calls + [PausePlayback];
      return Ok(());
    }

    method AddToQueue(trackId: string, outcome: GrantOutcome) returns (r: Result<()>)
      requires Valid()
      modifies this
      ensures Valid() && Gated(outcome)
      ensures spotify.None? ==> r == Throws(NotAuthorized) && calls == old(calls)
      ensures spotify.Some? ==> r == Ok(()) && calls == old(calls) + [Call.AddToQueue(TrackUri(trackId))]
    {
      CheckIsAuthorized(outcome);
      if spotify.None? {
        return Throws(NotAuthorized);
      }
      calls := calls + [Call.AddToQueue(TrackUri(trackId))];
      return Ok(());
    }

    /** The available devices; a null response is the empty sequence. */
    method GetDevices(outcome: GrantOutcome) returns (r: Result<seq<Device>>)
      requires Valid()
      modifies this
      ensures Valid() && Gated(outcome)
      ensures spotify.None? ==> r == Throws(NotAuthorized) && calls == old(calls)
      ensures spotify.Some? ==> r == Ok(ItemsOrEmpty(account.devices)) && calls == old(calls) + [GetAvailableDevices]
    {
      CheckIsAuthorized(outcome);
      if spotify.None? {
        return Throws(NotAuthorized);
      }
      calls := calls + [GetAvailableDevices];
      return Ok(ItemsOrEmpty(account.devices));
    }

    /** The currently-playing status, passed through unchanged (null when the provider returns none). */
    method GetCurrentlyPlaying(outcome: GrantOutcome) returns (r: Result<Option<CurrentlyPlaying>>)
      requires Valid()
      modifies this
      ensures Valid() && Gated(outcome)
      ensures spotify.None? ==> r == Throws(NotAuthorized) && calls == old(calls)
      ensures spotify.Some? ==> r == Ok(account.nowPlaying) && calls == old(calls) + [Call.GetCurrentlyPlaying]
    {
      CheckIsAuthorized(outcome);
      if spotify.None? {
        return Throws(NotAuthorized);
      }
      calls := calls + [Call.GetCurrentlyPlaying];
      return Ok(account.nowPlaying);
    }
  }
}
