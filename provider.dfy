/**
 * The music provider's Web API as the service sees it: the metadata it returns,
 * the calls the service issues, and a snapshot of the account's answers.
 * The provider client library itself is not part of this model.
 */
module Provider {
  import opened Outcomes

  datatype Artist = Artist(name: string)

  /** A track as returned by a search: id, name and artists in provider order. */
  datatype Track = Track(id: string, name: string, artists: seq<Artist>)

  datatype Device = Device(id: Option<string>, name: string)

  /** The answer of the currently-playing endpoint. */
  datatype CurrentlyPlaying = CurrentlyPlaying(isPlaying: bool)

  /** The body of a resume-playback request: `uris` null resumes what is loaded. */
  datatype ResumeRequest = ResumeRequest(uris: Option<seq<string>>, deviceId: Option<string>)

  /** One authenticated call issued to the provider. */
  datatype Call =
    | SearchItem(query: string)  // a track search
    | GetCurrentlyPlaying
    | ResumePlayback(request: ResumeRequest)
    | PausePlayback
    | AddToQueue(uri: string)
    | GetAvailableDevices

  /**
   * What the account answers. A response the library hands back as null (or
   * with a null item list) is `None`; a query missing from `searches` gets a
   * null response.
   */
  datatype Account = Account(
    nowPlaying: Option<CurrentlyPlaying>,
    searches: map<string, Option<seq<Track>>>,
    devices: Option<seq<Device>>)
  {
    function SearchResponse(query: string): Option<seq<Track>> {
      if query in searches then searches[query] else None
    }
  }
}
