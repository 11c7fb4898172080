/**
 * The now-playing card (`components/spotify-now-playing.tsx`): a loading
 * view without data, a "Last played" view for a history entry, and a
 * "Listening" view otherwise; the artist line links each artist; a menu
 * button opens the profile link.
 */
module NowPlaying {

  import opened Wrappers
  import opened Playback
  import Js
  import TimeFormat

  /** One artist in the artist line: the name, its link (`artistUrls[i]`,
      undefined past the end of that list) and the text after it. */
  datatype Span = Span(name: string, href: Option<string>, separator: string)

  datatype ArtistLine = Links(spans: seq<Span>) | PlainArtist(text: string)

  /** The three views; `timeLabels` lists the time labels left to right. */
  datatype View =
    | Loading
    | LastPlayed(title: string, artists: ArtistLine, timeLabels: seq<string>, playedAt: string)
    | Listening(title: string, artists: ArtistLine, timeLabels: seq<string>)

  /** `artistNames.map((name, i) => <span>… {i < last ? ", " : ""}</span>)`. */
  function ArtistSpans(names: seq<string>, urls: seq<string>): (r: seq<Span>)
    ensures |r| == |names|
    ensures forall i :: 0 <= i < |names| ==>
              r[i].name == names[i]
              && r[i].href == (if i < |urls| then Some(urls[i]) else None)
              && r[i].separator == (if i < |names| - 1 then ", " else "")
    decreases |names|
  {
    if names == [] then []
    else
      var head := Span(names[0], if |urls| > 0 then Some(urls[0]) else None, if |names| > 1 then ", " else "");
      [head] + ArtistSpans(names[1..], if |urls| > 0 then urls[1..] else [])
  }

  /** The text a line of spans shows. */
  function SpansText(spans: seq<Span>): string
    decreases |spans|
  {
    if spans == [] then "" else spans[0].name + spans[0].separator + SpansText(spans[1..])
  }

  /** Linked names when both lists are present, else the plain `artist` text. */
  function ArtistLineOf(s: Snapshot): ArtistLine {
    if s.artistNames.Some? && s.artistUrls.Some? then Links(ArtistSpans(s.artistNames.value, s.artistUrls.value))
    else PlainArtist(s.artist)
  }

  function LineText(line: ArtistLine): string {
    match line
    case Links(spans) => SpansText(spans)
    case PlainArtist(text) => text
  }

  /** The view choice, in the order the component makes it. */
  function Render(songData: Option<Snapshot>): (v: View)
    ensures songData.None? <==> v.Loading?
    ensures v.LastPlayed? <==> songData.Some? && !songData.value.isPlaying && Js.TruthyText(songData.value.lastPlayed)
    ensures v.LastPlayed? ==> v.timeLabels == [TimeFormat.FormatTime(songData.value.durationMs)]
                              && v.playedAt == songData.value.lastPlayed.value
    ensures v.Listening? ==> v.timeLabels == [TimeFormat.FormatTime(songData.value.progressMs),
                                              TimeFormat.FormatTime(songData.value.durationMs)]
    ensures !v.Loading? ==> v.artists == ArtistLineOf(songData.value) && v.title == songData.value.title
  {
    match songData
    case None => Loading
    case Some(s) =>
      if !s.isPlaying && Js.TruthyText(s.lastPlayed) then
        LastPlayed(s.title, ArtistLineOf(s), [TimeFormat.FormatTime(s.durationMs)], s.lastPlayed.value)
      else Listening(s.title, ArtistLineOf(s), [TimeFormat.FormatTime(s.progressMs), TimeFormat.FormatTime(s.durationMs)])
  }

  /** The linked artist line reads exactly as the names joined with ", ". */
  lemma {:induction false} SpansJoin(names: seq<string>, urls: seq<string>)
    ensures SpansText(ArtistSpans(names, urls)) == Js.Join(names, ", ")
    decreases |names|
  {
    if names != [] {
      var rest := if |urls| > 0 then urls[1..] else [];
      SpansJoin(names[1..], rest);
      var spans := ArtistSpans(names, urls);
      assert spans[1..] == ArtistSpans(names[1..], rest);
      if |names| == 1 {
        assert ArtistSpans(names[1..], rest) == [];
      }
    }
  }

  /** For a record the route built, both views show the `artist` text,
      linked name by name. */
  lemma ArtistLineText(s: Snapshot)
    requires s.artistNames.Some? && s.artistUrls.Some?
    requires s.artist == Js.Join(s.artistNames.value, ", ")
    ensures LineText(ArtistLineOf(s)) == s.artist
  {
    SpansJoin(s.artistNames.value, s.artistUrls.value);
  }

  /** The "more options" menu of both song views. */
  class Menu {
    var menuOpen: bool

    constructor ()
      ensures !menuOpen
    {
      menuOpen := false;
    }

    /** The profile link is shown only while the menu is open and the record
        has a truthy `profileUrl`. */
    predicate ProfileLinkVisible(profileUrl: Option<string>)
      reads this
    {
      menuOpen && Js.TruthyText(profileUrl)
    }

    /** The menu button: `setMenuOpen(v => !v)`. */
    method Toggle()
      modifies this
      ensures menuOpen == !old(menuOpen)
    {
      menuOpen := !menuOpen;
    }

    /** Following the profile link closes the menu. */
    method ClickProfile(profileUrl: Option<string>)
      requires ProfileLinkVisible(profileUrl)
      modifies this
      ensures !menuOpen && !ProfileLinkVisible(profileUrl)
    {
      menuOpen := false;
    }

    /** Two clicks on the menu button restore the menu. */
    method ToggleTwice()
      modifies this
      ensures menuOpen == old(menuOpen)
    {
      Toggle();
      Toggle();
    }
  }
}
