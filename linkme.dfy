/**
 * The artist card (`components/spotify-artist-linkme.tsx`): it fetches an
 * artist's data once for its `artistName`, then lists the top tracks or
 * the latest album's tracks, the first few of them unless "See More" is
 * on.
 */
module LinkMe {

  import opened Wrappers
  import Js
  import Utf8
  import FormUrlEncoded
  import TimeFormat

  datatype Tab = Top | Latest

  datatype Track = Track(id: string, name: string, durationMs: int)

  datatype Album = Album(name: string, tracks: seq<Track>)

  /** The parts of the artist record the component's logic reads. */
  datatype ArtistData = ArtistData(name: string, topTracks: seq<Track>, latestAlbum: Option<Album>)

  /** The component's props; an omitted prop is None. */
  datatype Props = Props(
    artistName: string,
    apiEndpoint: Option<string>,
    showSeeMore: Option<bool>,
    initialTrackCount: Option<int>,
    loadingMessage: Option<string>,
    errorMessage: Option<string>,
    defaultTab: Option<Tab>)

  const DefaultLoadingMessage := "Loading music..."
  const DefaultErrorMessage := "Could not load music data"
  const ArtistNotFound := "Artist not found"
  const ArtistRoute := "/api/spotify/artist/"

  /** The destructuring defaults: they replace only an omitted prop. */
  function ShowSeeMore(p: Props): bool { p.showSeeMore.GetOr(true) }
  function InitialTrackCount(p: Props): int { p.initialTrackCount.GetOr(5) }
  function DefaultTab(p: Props): Tab { p.defaultTab.GetOr(Top) }

  /** `errorMessage || "Could not load music data"`. */
  function FinalErrorMessage(p: Props): (r: string)
    ensures r != ""
    ensures Js.TruthyText(p.errorMessage) ==> r == p.errorMessage.value
  {
    if Js.TruthyText(p.errorMessage) then p.errorMessage.value else DefaultErrorMessage
  }

  /** `loadingMessage || "Loading music..."`. */
  function FinalLoadingMessage(p: Props): (r: string)
    ensures r != ""
    ensures Js.TruthyText(p.loadingMessage) ==> r == p.loadingMessage.value
  {
    if Js.TruthyText(p.loadingMessage) then p.loadingMessage.value else DefaultLoadingMessage
  }

  /** `apiEndpoint || "/api/spotify/artist/" + encodeURIComponent(artistName)`. */
  function Endpoint(p: Props): string {
    if Js.TruthyText(p.apiEndpoint) then p.apiEndpoint.value
    else ArtistRoute + FormUrlEncoded.EncodeUriComponent(p.artistName)
  }

  /** Without an explicit endpoint the artist name is one path segment
      after the artist route, and percent-decoding it gives the name back. */
  lemma DefaultEndpoint(p: Props)
    requires !Js.TruthyText(p.apiEndpoint)
    ensures var e, n := Endpoint(p), |ArtistRoute|;
            |e| >= n && e[..n] == ArtistRoute
            && (forall i :: n <= i < |e| ==> e[i] !in "/?#")
            && Utf8.Decode(FormUrlEncoded.PercentDecode(Utf8.Encode(e[n..]))) == Some(p.artistName)
  {
    var e := Endpoint(p);
    var seg := FormUrlEncoded.EncodeUriComponent(p.artistName);
    assert e[|ArtistRoute|..] == seg;
    forall i | |ArtistRoute| <= i < |e| ensures e[i] !in "/?#" {
      assert e[i] == seg[i - |ArtistRoute|];
    }
    FormUrlEncoded.DecodeEncodeUriComponent(p.artistName);
  }

  /** How the fetch ended: a response with its status and parsed body, or a
      thrown value (network failure, body not JSON). */
  datatype FetchOutcome = Responded(status: int, data: ArtistData) | Threw(err: Js.Thrown)

  /** The message `err.message` carries for a non-2xx response. */
  function HttpErrorMessage(status: int): string {
    "Failed to fetch artist data: " + Js.IntToString(status)
  }

  // ---- Track list ---------------------------------------------------------

  /** `activeTab === 'top' ? topTracks : latestAlbum?.tracks || []`. */
  function AllTracks(data: ArtistData, tab: Tab): (r: seq<Track>)
    ensures tab == Top ==> r == data.topTracks
    ensures tab == Latest ==> r == if data.latestAlbum.Some? then data.latestAlbum.value.tracks else []
  {
    if tab == Top then data.topTracks
    else if data.latestAlbum.Some? then data.latestAlbum.value.tracks
    else []
  }

  /** `showAllTracks ? allTracks : allTracks.slice(0, initialTrackCount)`. */
  function DisplayedTracks(all: seq<Track>, showAll: bool, count: int): seq<Track> {
    if showAll then all else Js.SliceTo(all, count)
  }

  /** `showSeeMore && allTracks.length > initialTrackCount`. */
  predicate HasMoreTracks(all: seq<Track>, showSeeMore: bool, count: int) {
    showSeeMore && |all| > count
  }

  /** The displayed tracks are a prefix of the active list: the whole list
      when expanded, else its first `min(n, count)` tracks for a
      non-negative count (a negative count drops tracks from the end). */
  lemma DisplayedPrefix(all: seq<Track>, showAll: bool, count: int)
    ensures var shown := DisplayedTracks(all, showAll, count);
            shown == all[..|shown|]
            && (showAll ==> shown == all)
            && (!showAll && count >= 0 ==> |shown| == if |all| < count then |all| else count)
            && (!showAll && count < 0 ==> |shown| == if |all| + count > 0 then |all| + count else 0)
  {
  }

  /** The "See More" button is offered exactly when collapsing hides tracks
      (for a non-negative count and with `showSeeMore` on). */
  lemma SeeMoreOffered(all: seq<Track>, count: int)
    requires count >= 0
    ensures HasMoreTracks(all, true, count) <==> |DisplayedTracks(all, false, count)| < |all|
  {
  }

  /** What the card shows. */
  datatype View =
    | Spinner(message: string)
    | Failure(message: string, detail: string)
    | Tracks(shown: seq<Track>, durationLabels: seq<string>, seeMore: Option<string>, noTracks: bool)

  /** The card's state: the fetched record, the fetch flags and the two
      pieces of list state. */
  class ArtistCard {
    const props: Props
    var artistData: Option<ArtistData>
    var isLoading: bool
    var error: Option<string>
    var activeTab: Tab
    var showAllTracks: bool

    /** The first render: loading, no error, the default tab, collapsed. */
    constructor (p: Props)
      ensures props == p && artistData.None? && isLoading && error.None?
      ensures activeTab == DefaultTab(p) && !showAllTracks
    {
      props := p;
      artistData := None;
      isLoading := true;
      error := None;
      activeTab := p.defaultTab.GetOr(Top);
      showAllTracks := false;
    }

    /** The fetch effect: with a non-empty name it clears the error, shows
        the spinner and requests the endpoint; with an empty name it does
        nothing and no request is made. */
    method RunEffect() returns (request: Option<string>)
      modifies this
      ensures request.Some? <==> props.artistName != ""
      ensures request.Some? ==> request.value == Endpoint(props) && isLoading && error.None?
      ensures request.None? ==> isLoading == old(isLoading) && error == old(error)
      ensures artistData == old(artistData) && activeTab == old(activeTab) && showAllTracks == old(showAllTracks)
    {
      if props.artistName != "" {
        isLoading := true;
        error := None;
        request := Some(Endpoint(props));
      } else {
        request := None;
      }
    }

    /** The fetch's end: a 2xx response stores the record; a non-2xx one
        reports its status; a thrown value reports its message, or the
        final error message when it is not an `Error`. The spinner stops
        in every case. */
    method FetchCompleted(outcome: FetchOutcome)
      modifies this
      ensures !isLoading
      ensures outcome.Responded? && 200 <= outcome.status <= 299 ==>
                artistData == Some(outcome.data) && error == old(error)
      ensures outcome.Responded? && !(200 <= outcome.status <= 299) ==>
                artistData == old(artistData) && error == Some(HttpErrorMessage(outcome.status))
      ensures outcome.Threw? ==>
                artistData == old(artistData) && error == Some(Js.ErrorText(outcome.err, FinalErrorMessage(props)))
      ensures activeTab == old(activeTab) && showAllTracks == old(showAllTracks)
    {
      match outcome {
        case Responded(status, data) =>
          if 200 <= status <= 299 {
            artistData := Some(data);
          } else {
            error := Some(Js.ErrorText(Js.ErrorObject(HttpErrorMessage(status)), FinalErrorMessage(props)));
          }
        case Threw(err) =>
          error := Some(Js.ErrorText(err, FinalErrorMessage(props)));
      }
      isLoading := false;
    }

    /** Either tab button: select that tab and collapse the list. */
    method SelectTab(tab: Tab)
      modifies this
      ensures activeTab == tab && !showAllTracks
      ensures artistData == old(artistData) && isLoading == old(isLoading) && error == old(error)
    {
      activeTab := tab;
      showAllTracks := false;
    }

    /** "See More" / "Show Less". */
    method ToggleSeeMore()
      modifies this
      ensures showAllTracks == !old(showAllTracks)
      ensures activeTab == old(activeTab) && artistData == old(artistData)
      ensures isLoading == old(isLoading) && error == old(error)
    {
      showAllTracks := !showAllTracks;
    }

    /** Two clicks on the button restore the list state. */
    method ToggleTwice()
      modifies this
      ensures showAllTracks == old(showAllTracks) && activeTab == old(activeTab)
    {
      ToggleSeeMore();
      ToggleSeeMore();
    }

    /** The rendered card: the spinner while loading; the failure card when
        there is an error or no record; otherwise the track list. */
    function View(): (v: View)
      reads this
      ensures isLoading <==> v.Spinner?
      ensures v.Failure? <==> !isLoading && (Js.TruthyText(error) || artistData.None?)
      ensures v.Tracks? ==>
                var all := AllTracks(artistData.value, activeTab);
                v.shown == DisplayedTracks(all, showAllTracks, InitialTrackCount(props))
                && (v.seeMore.Some? <==> HasMoreTracks(all, ShowSeeMore(props), InitialTrackCount(props)))
                && |v.durationLabels| == |v.shown|
                && (forall i :: 0 <= i < |v.shown| ==> v.durationLabels[i] == TimeFormat.FormatTime(v.shown[i].durationMs))
                && (v.seeMore.Some? ==> v.seeMore.value in {"Show Less", "See More"}
                                        && (v.seeMore.value == "Show Less" <==> showAllTracks))
                && (v.noTracks <==> v.shown == [])
      ensures v.Spinner? ==> v.message == FinalLoadingMessage(props)
      ensures v.Failure? ==> v.message == FinalErrorMessage(props)
                             && v.detail == (if Js.TruthyText(error) then error.value else ArtistNotFound)
    {
      if isLoading then Spinner(FinalLoadingMessage(props))
      else if Js.TruthyText(error) || artistData.None? then
        Failure(FinalErrorMessage(props), if Js.TruthyText(error) then error.value else ArtistNotFound)
      else
        var all := AllTracks(artistData.value, activeTab);
        var shown := DisplayedTracks(all, showAllTracks, InitialTrackCount(props));
        var labels := seq(|shown|, i requires 0 <= i < |shown| => TimeFormat.FormatTime(shown[i].durationMs));
        var seeMore := if HasMoreTracks(all, ShowSeeMore(props), InitialTrackCount(props))
                       then Some(if showAllTracks then "Show Less" else "See More") else None;
        Tracks(shown, labels, seeMore, shown == [])
    }
  }
}
