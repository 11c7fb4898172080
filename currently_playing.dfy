/**
 * `GET /api/spotify/currently-playing`: reads the access-token cookie, asks
 * the provider for the user's profile and current playback, falls back to
 * the most recent history entry when nothing is playing, and answers with a
 * song record or one of the error bodies.
 *
 * The three provider replies are inputs; the result lists the requests the
 * handler makes, in order, besides the status and body it answers with, or
 * says that the handler threw because a 2xx reply it parses is not JSON.
 */
module CurrentlyPlaying {

  import opened Wrappers
  import opened Playback
  import Js

  const MeUrl := "https://api.spotify.com/v1/me"
  const CurrentUrl := "https://api.spotify.com/v1/me/player/currently-playing"
  const RecentUrl := "https://api.spotify.com/v1/me/player/recently-played?limit=1"

  datatype Artist = Artist(name: string, url: string)

  /** A track object: its name, length, album image URLs (largest first),
      album and track links, and artists in credit order. */
  datatype Track = Track(
    name: string,
    durationMs: int,
    albumImages: seq<string>,
    albumUrl: string,
    trackUrl: string,
    artists: seq<Artist>)

  /** `/me`: the status, whether the body is a JSON object (so `.json()`
      resolves), and the profile's `external_urls.spotify`. */
  datatype MeReply = MeReply(status: int, json: bool, spotifyUrl: Option<string>)

  /** `/me/player/currently-playing`: the status, whether the body is a JSON
      object, `item` (absent when nothing is loaded), `progress_ms` and
      `is_playing`. */
  datatype CurrentReply = CurrentReply(status: int, json: bool, item: Option<Track>, progressMs: int, isPlaying: bool)

  datatype PlayHistory = PlayHistory(track: Track, playedAt: string)

  /** `/me/player/recently-played?limit=1`: the status, whether the body is a
      JSON object, and `items`. */
  datatype RecentReply = RecentReply(status: int, json: bool, items: Option<seq<PlayHistory>>)

  /** One provider request: its URL and Authorization header. */
  datatype Request = Request(url: string, authorization: string)

  /** The handler answered with a status and a body, or a rejected
      `.json()` made it throw, which the framework turns into its own
      error response. */
  datatype Result =
    | Answered(calls: seq<Request>, status: int, body: Body)
    | Threw(calls: seq<Request>)

  /** `res.ok`. */
  predicate Ok(status: int) {
    200 <= status <= 299
  }

  /** `/me` is parsed only when it is ok. */
  predicate MeThrows(me: MeReply) {
    Ok(me.status) && !me.json
  }

  /** The current reply is parsed for the fallback test when its status is
      200, and again for the record when it is ok; a 204 is never parsed. */
  predicate CurrentThrows(current: CurrentReply) {
    Ok(current.status) && current.status != 204 && !current.json
  }

  /** The history is parsed only when it is ok. */
  predicate RecentThrows(recent: RecentReply) {
    Ok(recent.status) && !recent.json
  }

  /** `userData.external_urls?.spotify || null`, read only when `/me` is ok. */
  function ProfileUrl(me: MeReply): (r: Option<string>)
    ensures r.Some? <==> Ok(me.status) && Js.TruthyText(me.spotifyUrl)
    ensures r.Some? ==> r == me.spotifyUrl
  {
    if Ok(me.status) && Js.TruthyText(me.spotifyUrl) then me.spotifyUrl else None
  }

  /** `album.images[0]?.url || ""`. */
  function AlbumArt(images: seq<string>): (r: string)
    ensures r != "" <==> |images| > 0 && images[0] != ""
    ensures r != "" ==> r == images[0]
  {
    if |images| > 0 then images[0] else ""
  }

  /** `artists.map(a => a.name)`. */
  function Names(artists: seq<Artist>): (r: seq<string>)
    ensures |r| == |artists| && forall i :: 0 <= i < |artists| ==> r[i] == artists[i].name
  {
    seq(|artists|, i requires 0 <= i < |artists| => artists[i].name)
  }

  /** `artists.map(a => a.external_urls.spotify)`. */
  function Urls(artists: seq<Artist>): (r: seq<string>)
    ensures |r| == |artists| && forall i :: 0 <= i < |artists| ==> r[i] == artists[i].url
  {
    seq(|artists|, i requires 0 <= i < |artists| => artists[i].url)
  }

  /** The song record built from a track (both branches build it the same way). */
  function SnapshotOf(t: Track, progressMs: int, isPlaying: bool, lastPlayed: Option<string>,
                      profileUrl: Option<string>): Snapshot
  {
    Snapshot(AlbumArt(t.albumImages), t.name, Js.Join(Names(t.artists), ", "), progressMs, t.durationMs,
             isPlaying, lastPlayed, t.albumUrl, t.trackUrl, Some(Urls(t.artists)), Some(Names(t.artists)),
             profileUrl)
  }

  /** Status 204, or status 200 with no `item`: go to the history. */
  predicate FallsBack(current: CurrentReply) {
    current.status == 204 || (current.status == 200 && current.item.None?)
  }

  /** The handler. */
  function Get(token: Option<string>, me: MeReply, current: CurrentReply, recent: RecentReply): (r: Result)
    ensures (r.Answered? && r.body == NotAuthenticated) <==> !Js.TruthyText(token)
    ensures !Js.TruthyText(token) ==> r.calls == [] && r.status == 401
    ensures Js.TruthyText(token) ==>
              |r.calls| >= 1 && r.calls[0] == Request(MeUrl, "Bearer " + token.value)
              && forall i :: 0 <= i < |r.calls| ==> r.calls[i].authorization == "Bearer " + token.value
    ensures r.Threw? <==> Js.TruthyText(token)
                          && (MeThrows(me) || CurrentThrows(current) || (FallsBack(current) && RecentThrows(recent)))
    ensures r.Threw? && MeThrows(me) ==> |r.calls| == 1
    ensures |r.calls| == 3 <==> Js.TruthyText(token) && !MeThrows(me) && !CurrentThrows(current) && FallsBack(current)
    ensures r.Answered? && r.body.ApiError? <==>
              Js.TruthyText(token) && !MeThrows(me) && !FallsBack(current) && !Ok(current.status)
    ensures r.Answered? && r.body.ApiError? ==> r.status == r.body.providerStatus == current.status
    ensures r.Answered? && r.body == RecentFailed ==> r.status == recent.status && !Ok(r.status)
    ensures r.Answered? && r.body.Song? ==> r.status == 200 && r.body.song.profileUrl == ProfileUrl(me)
  {
    if !Js.TruthyText(token) then Answered([], 401, NotAuthenticated)
    else
      var auth := "Bearer " + token.value;
      if MeThrows(me) then Threw([Request(MeUrl, auth)])
      else
        var profile := ProfileUrl(me);
        var first := [Request(MeUrl, auth), Request(CurrentUrl, auth)];
        if CurrentThrows(current) then Threw(first)
        else if FallsBack(current) then
          var calls := first + [Request(RecentUrl, auth)];
          if !Ok(recent.status) then Answered(calls, recent.status, RecentFailed)
          else if RecentThrows(recent) then Threw(calls)
          else if recent.items.None? || recent.items.value == [] then Answered(calls, 200, NothingRecent)
          else
            var last := recent.items.value[0];
            Answered(calls, 200, Song(SnapshotOf(last.track, last.track.durationMs, false, Some(last.playedAt), profile)))
        else if !Ok(current.status) then Answered(first, current.status, ApiError(current.status))
        else if current.item.None? then Answered(first, 200, NotPlaying)
        else Answered(first, 200, Song(SnapshotOf(current.item.value, current.progressMs, current.isPlaying, None, profile)))
  }

  // ---- Properties of the ladder -------------------------------------------

  /** A failing `/me` never fails the request: whatever status `/me`
      answers, as long as a 2xx body parses, the requests, status and kind
      of body are the same; only `profileUrl` differs. */
  lemma ProfileNeverFails(token: Option<string>, me1: MeReply, me2: MeReply, current: CurrentReply, recent: RecentReply)
    requires !MeThrows(me1) && !MeThrows(me2)
    ensures var r1, r2 := Get(token, me1, current, recent), Get(token, me2, current, recent);
            r1.calls == r2.calls && (r1.Answered? <==> r2.Answered?)
            && (r1.Answered? ==>
                  r1.status == r2.status
                  && (r1.body.Song? <==> r2.body.Song?)
                  && (!r1.body.Song? ==> r1.body == r2.body)
                  && (r1.body.Song? ==> r1.body.song.(profileUrl := None) == r2.body.song.(profileUrl := None)))
  {
  }

  /** A 2xx `/me` whose body is not JSON makes the handler throw right after
      that first request, whatever the other replies would have been. */
  lemma ProfileUnparsable(token: Option<string>, me: MeReply, current: CurrentReply, recent: RecentReply)
    requires Js.TruthyText(token) && Ok(me.status) && !me.json
    ensures Get(token, me, current, recent) == Threw([Request(MeUrl, "Bearer " + token.value)])
  {
  }

  /** The history fallback: a non-2xx history reply passes its status through;
      an empty history is a 200 with no song; otherwise the last-played
      record has `isPlaying` false, progress and duration both the track's
      length, and `lastPlayed` the entry's `played_at` verbatim. */
  lemma HistoryFallback(token: Option<string>, me: MeReply, current: CurrentReply, recent: RecentReply)
    requires Js.TruthyText(token) && !MeThrows(me) && !CurrentThrows(current) && FallsBack(current)
    ensures var r := Get(token, me, current, recent);
            |r.calls| == 3 && r.calls[2] == Request(RecentUrl, "Bearer " + token.value)
            && (!Ok(recent.status) ==> r.Answered? && r.status == recent.status && r.body == RecentFailed)
            && (Ok(recent.status) && !recent.json ==> r.Threw?)
            && (Ok(recent.status) && recent.json && (recent.items.None? || recent.items.value == []) ==>
                  r.Answered? && r.status == 200 && r.body == NothingRecent)
            && (Ok(recent.status) && recent.json && recent.items.Some? && recent.items.value != [] ==>
                  var last := recent.items.value[0];
                  r.Answered? && r.body.Song? && !r.body.song.isPlaying
                  && r.body.song.progressMs == r.body.song.durationMs == last.track.durationMs
                  && r.body.song.lastPlayed == Some(last.playedAt)
                  && r.body.song.title == last.track.name)
  {
  }

  /** A 2xx current reply other than the fallback cases: a throw when its body
      is not JSON, `NotPlaying` without an item, otherwise the playing
      record, which copies `is_playing` and `progress_ms` and has no
      `lastPlayed`. */
  lemma CurrentTrack(token: Option<string>, me: MeReply, current: CurrentReply, recent: RecentReply)
    requires Js.TruthyText(token) && !MeThrows(me) && !FallsBack(current) && Ok(current.status)
    ensures var r := Get(token, me, current, recent);
            |r.calls| == 2 && (r.Threw? <==> !current.json)
            && (r.Answered? ==>
                  r.status == 200
                  && (current.item.None? <==> r.body == NotPlaying)
                  && (current.item.Some? ==>
                        r.body.Song? && r.body.song.isPlaying == current.isPlaying
                        && r.body.song.progressMs == current.progressMs
                        && r.body.song.durationMs == current.item.value.durationMs
                        && r.body.song.lastPlayed.None?))
  {
  }

  /** In every song record the artist line is the artist names joined with
      ", ", and the name and URL lists run parallel to the credits. */
  lemma SongArtists(t: Track, progressMs: int, isPlaying: bool, lastPlayed: Option<string>, profile: Option<string>)
    ensures var s := SnapshotOf(t, progressMs, isPlaying, lastPlayed, profile);
            s.artistNames.Some? && s.artistUrls.Some?
            && s.artist == Js.Join(s.artistNames.value, ", ")
            && |s.artistNames.value| == |s.artistUrls.value| == |t.artists|
            && forall i :: 0 <= i < |t.artists| ==>
                 s.artistNames.value[i] == t.artists[i].name && s.artistUrls.value[i] == t.artists[i].url
  {
  }

  /** Every song record answered carries a progress within its duration when
      the provider's own progress is. */
  lemma SongProgressInRange(token: Option<string>, me: MeReply, current: CurrentReply, recent: RecentReply)
    requires current.item.Some? ==> 0 <= current.progressMs <= current.item.value.durationMs
    requires recent.items.Some? ==> forall i :: 0 <= i < |recent.items.value| ==> recent.items.value[i].track.durationMs >= 0
    ensures var r := Get(token, me, current, recent);
            r.Answered? && r.body.Song? ==> 0 <= r.body.song.progressMs <= r.body.song.durationMs
  {
  }
}
