/**
 * The assistant's music functions: each one calls the service and turns its
 * result into the sentence handed back to the language model.
 */
module Plugins {
  import opened Outcomes
  import opened Provider
  import opened Services
  import opened Text

  const CouldNotFindTrack: string := "Could not find track"
  const PausedMessage: string := "La musique est en pause"
  const AlreadyPlayingMessage: string := "Une musique est déjà en cours de lecture"
  const ResumedMessage: string := "La musique reprend"
  const ListingPrefix: string := "Voici les titres trouvés : "
  const ListingSeparator: string := ", "

  /** `Artists[0]` exists. */
  predicate HasArtist(track: Track) {
    |track.artists| > 0
  }

  predicate AllHaveArtists(tracks: seq<Track>) {
    forall i :: 0 <= i < |tracks| ==> HasArtist(tracks[i])
  }

  /** The sentence announcing a track: it names the track and then its first artist. */
  function NowPlayingMessage(track: Track): (msg: string)
    requires HasArtist(track)
    ensures OccursAt(msg, track.name, |"La musique "|)
    ensures OccursAt(msg, track.artists[0].name, |"La musique "| + |track.name| + |" par "|)
    ensures Contains(msg, track.name) && Contains(msg, track.artists[0].name)
  {
    var msg := "La musique " + track.name + " par " + track.artists[0].name + " est en cours de lecture";
    assert OccursAt(msg, track.name, 11);
    assert OccursAt(msg, track.artists[0].name, 11 + |track.name| + 5);
    msg
  }

  /** The answer to a resume request, chosen by whether the service issued the play call. */
  function ResumeMessage(wasResumed: bool): (msg: string)
    ensures msg == AlreadyPlayingMessage <==> !wasResumed
    ensures msg == ResumedMessage <==> wasResumed
  {
    if !wasResumed then AlreadyPlayingMessage else ResumedMessage
  }

  /** One entry of a listing: the track name and its first artist. */
  function Describe(track: Track): (entry: string)
    requires HasArtist(track)
    ensures OccursAt(entry, track.name, 0)
    ensures OccursAt(entry, track.artists[0].name, |track.name| + |" Par "|)
    ensures |entry| == |track.name| + |" Par "| + |track.artists[0].name|
  {
    track.name + " Par " + track.artists[0].name
  }

  /** The entries of a listing, one per track, in the given order. */
  function Descriptions(tracks: seq<Track>): (entries: seq<string>)
    requires AllHaveArtists(tracks)
    ensures |entries| == |tracks|
    ensures forall i :: 0 <= i < |tracks| ==> entries[i] == Describe(tracks[i])
  {
    if |tracks| == 0 then [] else [Describe(tracks[0])] + Descriptions(tracks[1..])
  }

  /** The listing of search results, in the order the provider returned them. */
  function ListingMessage(tracks: seq<Track>): (msg: string)
    requires AllHaveArtists(tracks)
    ensures OccursAt(msg, ListingPrefix, 0)
    ensures tracks == [] ==> msg == ListingPrefix
    ensures |tracks| > 0 ==> OccursAt(msg, Describe(tracks[0]), |ListingPrefix|)
  {
    ListingPrefix + Join(ListingSeparator, Descriptions(tracks))
  }

  /** Reads the entries back from a listing. */
  function ParseListing(msg: string): Option<seq<string>> {
    if |ListingPrefix| <= |msg| && msg[..|ListingPrefix|] == ListingPrefix
    then Some(Split(msg[|ListingPrefix|..], ListingSeparator))
    else None
  }

  /** No names or artist names that contain a comma. */
  predicate CommaFree(tracks: seq<Track>)
    requires AllHaveArtists(tracks)
  {
    forall i :: 0 <= i < |tracks| ==> ',' !in tracks[i].name && ',' !in tracks[i].artists[0].name
  }

  /** An empty search result is listed as the bare prefix. */
  lemma ListingOfNothing()
    ensures ListingMessage([]) == ListingPrefix
  {
  }

  /**
   * A listing of comma-free tracks holds exactly their entries, one per track,
   * in provider order.
   */
  lemma ListingRoundTrip(tracks: seq<Track>)
    requires |tracks| > 0 && AllHaveArtists(tracks) && CommaFree(tracks)
    ensures ParseListing(ListingMessage(tracks)) == Some(Descriptions(tracks))
  {
    var entries := Descriptions(tracks);
    forall i | 0 <= i < |entries|
      ensures ListingSeparator[0] !in entries[i]
    {
      DescribeCommaFree(tracks[i]);
    }
    SplitJoin(ListingSeparator, entries);
    var body := Join(ListingSeparator, entries);
    assert (ListingPrefix + body)[|ListingPrefix|..] == body;
  }

  lemma DescribeCommaFree(track: Track)
    requires HasArtist(track) && ',' !in track.name && ',' !in track.artists[0].name
    ensures ',' !in Describe(track)
  {
  }

  /**
   * Resuming without a track id: the "already playing" answer comes exactly
   * when the service issues no resume request, which is exactly when nothing
   * is reported as playing.
   */
  lemma ResumeAnswer(cur: Option<CurrentlyPlaying>, deviceId: Option<string>)
    ensures var req := ResumeRequestFor(None, cur, deviceId);
      && (ResumeMessage(req.Some?) == AlreadyPlayingMessage <==> !ReportsPlaying(cur))
      && (req.None? <==> !ReportsPlaying(cur))
  {
  }

  class SongPlugin {
    const spotify: SpotifyService

    constructor(spotify: SpotifyService)
      ensures this.spotify == spotify
    {
      this.spotify := spotify;
    }

    /**
     * Searches the title and plays the first match. Nothing found: the
     * not-found answer and no play call. A match without artists throws before
     * the play call.
     */
    method PlayContent(title: string, outcome: GrantOutcome) returns (r: Result<string>)
      requires spotify.Valid()
      modifies spotify
      ensures spotify.Valid() && spotify.Gated(outcome)
      ensures spotify.spotify.None? ==> r == Throws(NotAuthorized) && spotify.calls == old(spotify.calls)
      ensures spotify.spotify.Some? ==>
        var found := FirstOrDefault(ItemsOrEmpty(spotify.account.SearchResponse(title)));
        && (found.None? ==>
              r == Ok(CouldNotFindTrack) && spotify.calls == old(spotify.calls) + [SearchItem(title)])
        && (found.Some? && !HasArtist(found.value) ==>
              r == Throws(ArgumentOutOfRange) && spotify.calls == old(spotify.calls) + [SearchItem(title)])
        && (found.Some? && HasArtist(found.value) ==>
              && r == Ok(NowPlayingMessage(found.value))
              && spotify.calls == old(spotify.calls) + [SearchItem(title), Call.GetCurrentlyPlaying,
                   ResumePlayback(ResumeRequest(Some([TrackUri(found.value.id)]), spotify.deviceComputerId))])
    {
      var track := spotify.SearchTrack(title, outcome);
      if track.Throws? {
        return Throws(track.error);
      }
      if track.value.None? {
        return Ok(CouldNotFindTrack);
      }
      var t := track.value.value;
      if !HasArtist(t) {
        // the console line announcing the track already reads Artists[0]
        return Throws(ArgumentOutOfRange);
      }
      var _ := spotify.PlayTrack(Some(t.id), outcome);
      return Ok(NowPlayingMessage(t));
    }

    /** Pauses once and always answers with the paused message. */
    method Pause(outcome: GrantOutcome) returns (r: Result<string>)
      requires spotify.Valid()
      modifies spotify
      ensures spotify.Valid() && spotify.Gated(outcome)
      ensures spotify.spotify.None? ==> r == Throws(NotAuthorized) && spotify.calls == old(spotify.calls)
      ensures spotify.spotify.Some? ==>
        r == Ok(PausedMessage) && spotify.calls == old(spotify.calls) + [PausePlayback]
    {
      var paused := spotify.Pause(outcome);
      if paused.Throws? {
        return Throws(paused.error);
      }
      return Ok(PausedMessage);
    }

    /**
     * Resumes without a track id. When nothing is reported as playing it issues
     * no play call and answers "already playing"; otherwise one bare resume on
     * the configured device and the resumed message.
     */
    method Resume(outcome: GrantOutcome) returns (r: Result<string>)
      requires spotify.Valid()
      modifies spotify
      ensures spotify.Valid() && spotify.Gated(outcome)
      ensures spotify.spotify.None? ==> r == Throws(NotAuthorized) && spotify.calls == old(spotify.calls)
      ensures spotify.spotify.Some? ==>
        var playing := ReportsPlaying(spotify.account.nowPlaying);
        && (r == Ok(AlreadyPlayingMessage) <==> !playing)
        && (r == Ok(ResumedMessage) <==> playing)
        && spotify.calls == old(spotify.calls) + [Call.GetCurrentlyPlaying]
             + (if playing then [ResumePlayback(ResumeRequest(None, spotify.deviceComputerId))] else [])
    {
      var wasResume := spotify.PlayTrack(None, outcome);
      if wasResume.Throws? {
        return Throws(wasResume.error);
      }
      return Ok(ResumeMessage(wasResume.value));
    }

    /**
     * Lists the search results in provider order; an empty result is the bare
     * prefix. A result with a track without artists throws.
     */
    method SearchTracks(query: string, outcome: GrantOutcome) returns (r: Result<string>)
      requires spotify.Valid()
      modifies spotify
      ensures spotify.Valid() && spotify.Gated(outcome)
      ensures spotify.spotify.None? ==> r == Throws(NotAuthorized) && spotify.calls == old(spotify.calls)
      ensures spotify.spotify.Some? ==>
        var tracks := ItemsOrEmpty(spotify.account.SearchResponse(query));
        && spotify.calls == old(spotify.calls) + [SearchItem(query)]
        && (AllHaveArtists(tracks) ==> r == Ok(ListingMessage(tracks)))
        && (!AllHaveArtists(tracks) ==> r == Throws(ArgumentOutOfRange))
    {
      var tracks := spotify.SearchTracks(query, outcome);
      if tracks.Throws? {
        return Throws(tracks.error);
      }
      if !AllHaveArtists(tracks.value) {
        return Throws(ArgumentOutOfRange);
      }
      return Ok(ListingMessage(tracks.value));
    }
  }

  /**
   * A usage sample, not part of the model: a session as the contracts describe it: the first request authorizes and
   * plays the one match; the resume that follows does not authorize again and,
   * with nothing reported as playing, issues no play call.
   */
  method ImagineSession() {
    var imagine := Track("imagine-id", "Imagine", [Artist("John Lennon")]);
    var account := Account(None, map["Imagine" := Some([imagine])], None);
    var service := new SpotifyService(KernelSettings(Some("desk"), "app"), account);
    var plugin := new SongPlugin(service);

    var played := plugin.PlayContent("Imagine", Granted("token"));
    assert played == Ok(NowPlayingMessage(imagine));
    assert Contains(played.value, "Imagine") && Contains(played.value, "John Lennon");
    assert service.calls == [SearchItem("Imagine"), Call.GetCurrentlyPlaying,
      ResumePlayback(ResumeRequest(Some([TrackUri("imagine-id")]), Some("desk")))];
    assert service.logins == [LoginRequest(CallbackBaseUri, "app")];

    var resumed := plugin.Resume(NoCallback);
    assert resumed == Ok(AlreadyPlayingMessage);
    assert |service.logins| == 1;
    assert |service.calls| == 4;
  }
}
