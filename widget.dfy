/**
 * The dashboard's song card (`app/spotify-widget.tsx`): a fixed message when
 * there is no song, otherwise the cover, title, artist and the two time
 * labels.
 */
module Widget {

  import opened Wrappers
  import opened Playback
  import TimeFormat

  const NothingPlaying := "Nothing playing right now."
  const PlaceholderArt := "/placeholder.svg?width=80&height=80&text=Album+Art"

  /** What the card shows; `timeLabels` lists the time labels left to right. */
  datatype View =
    | Empty(message: string)
    | Card(art: string, title: string, artist: string, timeLabels: seq<string>)

  function Render(songData: Option<Snapshot>): (v: View)
    ensures songData.None? <==> v == Empty(NothingPlaying)
    ensures songData.Some? ==>
              v.Card? && v.title == songData.value.title && v.artist == songData.value.artist
              && v.timeLabels == [TimeFormat.FormatTime(songData.value.progressMs),
                                  TimeFormat.FormatTime(songData.value.durationMs)]
              && (songData.value.albumArtUrl != "" ==> v.art == songData.value.albumArtUrl)
              && (songData.value.albumArtUrl == "" ==> v.art == PlaceholderArt)
  {
    match songData
    case None => Empty(NothingPlaying)
    case Some(s) =>
      Card(if s.albumArtUrl != "" then s.albumArtUrl else PlaceholderArt, s.title, s.artist,
           [TimeFormat.FormatTime(s.progressMs), TimeFormat.FormatTime(s.durationMs)])
  }

  /** For non-negative times the two labels read back as the whole seconds
      of progress and of duration, in that order. */
  lemma CardLabels(s: Snapshot)
    requires s.progressMs >= 0 && s.durationMs >= 0
    ensures var labels := Render(Some(s)).timeLabels;
            var p, d := TimeFormat.ParseTime(labels[0]), TimeFormat.ParseTime(labels[1]);
            p.Some? && d.Some?
            && 60 * p.value.0 + p.value.1 == s.progressMs / 1000
            && 60 * d.value.0 + d.value.1 == s.durationMs / 1000
  {
    TimeFormat.ParseFormatTime(s.progressMs);
    TimeFormat.ParseFormatTime(s.durationMs);
  }
}
