/**
 * The now-playing record that `/api/spotify/currently-playing` sends to the
 * browser, and the other JSON bodies that route can answer with. The
 * dashboard and the widgets read these values.
 */
module Playback {

  import opened Wrappers
  import Js

  /** The song record. Times are integer milliseconds; `lastPlayed` is the
      ISO timestamp of a history entry, or null for the current track. */
  datatype Snapshot = Snapshot(
    albumArtUrl: string,
    title: string,
    artist: string,
    progressMs: int,
    durationMs: int,
    isPlaying: bool,
    lastPlayed: Option<string>,
    albumUrl: string,
    trackUrl: string,
    artistUrls: Option<seq<string>>,
    artistNames: Option<seq<string>>,
    profileUrl: Option<string>)

  /** The JSON bodies of `/api/spotify/currently-playing`. */
  datatype Body =
    | NotAuthenticated                  // {error: "Not authenticated"}
    | RecentFailed                      // {isPlaying: false, error: "Could not fetch recently played"}
    | NothingRecent                     // {isPlaying: false, lastPlayed: null}
    | ApiError(providerStatus: int)     // {error: "Spotify API error", status}
    | NotPlaying                        // {isPlaying: false}
    | Song(song: Snapshot)

  /** `data.isPlaying || data.lastPlayed` on a parsed body: only a song
      record can have either. */
  predicate ShowsSong(b: Body) {
    b.Song? && (b.song.isPlaying || Js.TruthyText(b.song.lastPlayed))
  }
}
