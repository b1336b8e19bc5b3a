# Music-assistant playback coordinator, modelled in Dafny

This project models the core of a chat assistant that controls a music account
through the provider's Web API. There are two layers:

- `SpotifyService` (module `Services`, `spotify_service.dfy`) holds the provider
  client. The client is absent until an OAuth implicit grant delivers an access
  token. Every public operation first runs the authorization gate
  `CheckIsAuthorized`. That gate starts the local callback server and opens the
  login request only while no client exists. If there is still no client after
  the gate, the operation throws `InvalidOperationException` and issues no
  provider call. Otherwise it issues its provider call and projects the answer.
  Null responses become empty sequences, `SearchTrack` is first-or-default, and
  track URIs are `spotify:track:<id>`.
- `SongPlugin` (module `Plugins`, `song_plugin.dfy`) holds the functions the
  language model calls (`PlayContent`, `Pause`, `Resume`, `SearchTracks`). Each
  one calls the service and maps the outcome to a French sentence.

How the model is built:

- The provider is a snapshot value `Account` (`provider.dfy`). It holds the
  currently-playing answer, the search response for each query and the device
  response.
- The service records every call it issues in a ghost log `calls`. It records
  every login request it opens in a ghost log `logins`.
- The browser-and-callback step of `Authorize` is a parameter `GrantOutcome`: a
  grant with a token, an error, or no callback within the wait. Every public
  operation takes it, and only the gate reads it.
- Thrown exceptions are the `Throws` case of `Result` (`outcomes.dfy`).
- `string.Join` and a matching split live in `text.dfy`.

Behaviour the model keeps as the code has it, even where it is surprising:

- The resume with no track id (`SpotifyService.cs:32`) is issued only when
  something IS reported as playing. When nothing is playing, it issues no call
  and the plugin answers "Une musique est déjà en cours de lecture". This is the
  reverse of the usual resume policy, which skips the call when something is
  already playing.
- `PlayTrack` always queries the currently-playing status first, even when it
  is given a track id.
- A track with no artists makes the operation throw: `Artists[0]` raises
  `ArgumentOutOfRangeException`. In `PlayContent` this happens on the console
  line before the play call, so no play call is issued. In `SearchTracks` it
  happens while the listing is joined.
- No lock or coalescing guards authorization. A second operation while there is
  still no client opens another login request.
- After a wait with no callback, the callback server is left running.
- Once obtained, the client is never cleared. A later grant replaces it.

Other modelling choices:

- The configured device id is an `Option<string>`, because the source handles a
  null id at `SpotifyService.cs:41`. The resume request passes it through
  unchanged.
- The two grant handlers require that the callback server is running, because
  the server only raises its events while it is started. The invariant
  `SpotifyService.Valid` keeps two facts. First, the server runs, a client
  exists, or a provider call is issued only after a login request was opened. Second, every login request
  carries the configured client id and the callback address `http://localhost:5000`.

## Model

| member | source | states |
|---|---|---|
| Services.TrackUri | semanticKernel/services/SpotifyService.cs:40 | the URI is `spotify:track:` followed by exactly the track id (the same text is queued at line 89) |
| Services.ReportsPlaying | semanticKernel/services/SpotifyService.cs:32 | `cur?.IsPlaying == true` holds exactly for a non-null status whose playing flag is true |
| Services.TrackUriRoundTrip | semanticKernel/services/SpotifyService.cs:40 | the track id can be read back from the URI `spotify:track:<id>` built for it |
| Services.ParseTrackUriSound | semanticKernel/services/SpotifyService.cs:89 | every URI that parses as a track URI is exactly the URI built from the id it yields |
| Services.TrackUriInjective | semanticKernel/services/SpotifyService.cs:89 | different track ids never give the same queued or played URI |
| Services.ItemsOrEmpty | semanticKernel/services/SpotifyService.cs:54-55 | a null search or device response becomes the empty sequence; otherwise the items are returned unchanged, in order |
| Services.FirstOrDefault | semanticKernel/services/SpotifyService.cs:65-66 | the result is null exactly when the sequence is empty, and otherwise its first element |
| Services.ResumeRequestFor | semanticKernel/services/SpotifyService.cs:32-42 | no resume request exactly when the track id is null and nothing is reported as playing; otherwise `Uris` is null for a null id and the single track URI otherwise, and the device id is the configured one |
| Services.GrantedClient | semanticKernel/services/SpotifyService.cs:133-137 | a client exists after the callback exactly when a grant arrived, and it carries that grant's access token |
| Services.ClientAfterGate | semanticKernel/services/SpotifyService.cs:146-152 | an existing client is kept by the gate; with no client, one exists afterwards exactly when the grant arrived |
| Services.SpotifyService.constructor | semanticKernel/services/SpotifyService.cs:16-20 | device id and client id come from the settings (and, being constants, never change); no client, no listener, empty logs |
| Services.SpotifyService.Authorize | semanticKernel/services/SpotifyService.cs:118-131 | opens one login request with the client id and callback address, issues no provider call; the listener keeps running only when no callback arrived; a grant sets the client, anything else leaves it |
| Services.SpotifyService.OnImplicitGrantReceived | semanticKernel/services/SpotifyService.cs:133-138 | stops the listener and sets the client from the access token |
| Services.SpotifyService.OnErrorReceived | semanticKernel/services/SpotifyService.cs:140-144 | stops the listener and leaves the client as it was |
| Services.SpotifyService.CheckIsAuthorized | semanticKernel/services/SpotifyService.cs:146-152 | authorizes (one more login request) exactly when no client exists; a present client is kept and never re-authorized; no provider call |
| Services.SpotifyService.PlayTrack | semanticKernel/services/SpotifyService.cs:22-45 | after the gate, no client means InvalidOperation and no call; otherwise one status query, then a resume exactly when `ResumeRequestFor` gives one, and the result says whether it was issued |
| Services.SpotifyService.SearchTracks | semanticKernel/services/SpotifyService.cs:47-56 | after the gate, no client means InvalidOperation and no call; otherwise one search call and the provider's items in order, empty for a null response |
| Services.SpotifyService.SearchTrack | semanticKernel/services/SpotifyService.cs:58-67 | throws without a client; otherwise one search call, and the first result of `SearchTracks`, null exactly when there is none |
| Services.SpotifyService.Pause | semanticKernel/services/SpotifyService.cs:70-79 | throws without a client and issues nothing; otherwise exactly one pause call |
| Services.SpotifyService.AddToQueue | semanticKernel/services/SpotifyService.cs:81-90 | throws without a client and issues nothing; otherwise exactly one queue call with URI `spotify:track:<id>` |
| Services.SpotifyService.GetDevices | semanticKernel/services/SpotifyService.cs:92-102 | throws without a client; otherwise one device call and its devices, empty for a null response |
| Services.SpotifyService.GetCurrentlyPlaying | semanticKernel/services/SpotifyService.cs:104-115 | throws without a client; otherwise one status call, whose answer (possibly null) is returned unchanged |
| Plugins.NowPlayingMessage | semanticKernel/plugins/SongPlugin.cs:36 | for a track with an artist, the sentence holds the track name right after "La musique " and the first artist right after " par ", so it contains both |
| Plugins.ResumeMessage | semanticKernel/plugins/SongPlugin.cs:64-69 | "already playing" exactly when no resume was issued, "La musique reprend" exactly when one was |
| Plugins.Describe | semanticKernel/plugins/SongPlugin.cs:90 | a listing entry is the track name, then " Par ", then the first artist, and nothing else |
| Plugins.ListingMessage | semanticKernel/plugins/SongPlugin.cs:90 | the listing starts with "Voici les titres trouvés : ", is exactly that prefix for no tracks, and otherwise continues with the first track's entry |
| Plugins.Descriptions | semanticKernel/plugins/SongPlugin.cs:90 | one entry per track, in provider order, each the name, " Par " and the first artist |
| Plugins.ListingOfNothing | semanticKernel/plugins/SongPlugin.cs:90 | an empty search result is listed as exactly the prefix "Voici les titres trouvés : " |
| Plugins.ListingRoundTrip | semanticKernel/plugins/SongPlugin.cs:90 | for a non-empty list of tracks whose names and artists contain no comma (the empty list is `ListingOfNothing`), splitting the listing after its prefix gives back exactly the entries, one per track, in order |
| Plugins.ResumeAnswer | semanticKernel/plugins/SongPlugin.cs:62-66 | a bare resume is answered "already playing", and issues no resume request, exactly when nothing is reported as playing |
| Text.SplitJoin | semanticKernel/plugins/SongPlugin.cs:90 | for a non-empty list of items free of the separator's first character, `string.Join` is undone by splitting on the separator (an empty list joins to "", which splits to one empty item) |
| Text.Join | semanticKernel/plugins/SongPlugin.cs:90 | `string.Join`: no items give ""; otherwise the text starts with the first item, and with two or more the separator follows the first item |
| Text.JoinEndsWithLast | semanticKernel/plugins/SongPlugin.cs:90 | a `string.Join` of one or more items ends with the last item |
| Plugins.SongPlugin.constructor | semanticKernel/plugins/SongPlugin.cs:11 | the plugin holds the service it was given |
| Plugins.SongPlugin.PlayContent | semanticKernel/plugins/SongPlugin.cs:17-37 | no match: "Could not find track" after one search and no play call; a match without artists throws before the play call; a match: exactly search, status query and one resume with that track's URI on the configured device, and the sentence naming track and artist |
| Plugins.SongPlugin.Pause | semanticKernel/plugins/SongPlugin.cs:41-51 | one pause call and always "La musique est en pause"; the service's exception propagates |
| Plugins.SongPlugin.Resume | semanticKernel/plugins/SongPlugin.cs:55-70 | answers "already playing", with no play call, exactly when nothing is reported as playing; otherwise one bare resume on the configured device and "La musique reprend" |
| Plugins.SongPlugin.SearchTracks | semanticKernel/plugins/SongPlugin.cs:75-91 | one search call; the listing of the provider's tracks in order, or an exception when a track has no artists |

## Left out

- The OAuth mechanics of `Authorize` are left out: starting the callback server on port 5000, subscribing the event handlers, building the login URI and opening the browser, and the fixed three-second wait. The outcome of the wait is the `GrantOutcome` parameter. A grant that arrives after the wait is a later call of `OnImplicitGrantReceived`.
- The scope list given to the login request is opaque library data. It is not modelled.
- Concurrency is not modelled. The code has no lock and no coalescing of concurrent authorizations, and the model runs one operation at a time.
- Each `Authorize` subscribes the handlers again, so a later event runs a handler once per subscription. All of those runs do the same thing, so one run is modelled.
- The HTTP behaviour of the provider library is not modelled: status codes, transport errors, and a null `Tracks` inside a non-null search response. The code does not handle any of them.
- The effect of the issued calls on the account is not modelled, because that is the provider's behaviour. The account is a snapshot that every call reads afresh.
- Console output is not modelled. The one exception is the `Artists[0]` read on the announcing console line of `PlayContent`, because it can throw.
- `Dispose` is not modelled. It only releases the callback server.
- The `tracks == null` branch of the plugin's `SearchTracks` (SongPlugin.cs:82-85, "Could not find tracks") has no counterpart. The service returns a sequence, never null, so the branch cannot be reached.
- semanticKernel/plugins/CoffeePlugin.cs is not part of this model. It makes one HTTP request to the coffee machine and maps the status to a message.
