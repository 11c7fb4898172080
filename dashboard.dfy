/**
 * The dashboard page (`app/dashboard/page.tsx`): it polls the
 * currently-playing route, keeps the last song record, and between polls
 * advances the progress locally on every animation frame, clamped to the
 * song's duration.
 *
 * Each event is a method: a poll that produced a body, a poll that failed,
 * an animation frame at clock time `now`, and unmounting the page.
 */
module Dashboard {

  import opened Wrappers
  import opened Playback
  import Js
  import Widget

  const FetchFailed := "Failed to fetch now playing data."
  const LoadingText := "Loading your music..."

  /** The three optional parts of the page under its heading. */
  datatype PageView = PageView(loading: Option<string>, errorLine: Option<string>, widget: Option<Widget.View>)

  function Min(a: int, b: int): int {
    if a <= b then a else b
  }

  /** One frame: the progress plus the time since the last update, capped at
      the duration. */
  function Advance(progress: int, last: int, now: int, duration: int): (r: int)
    ensures r <= duration
    ensures progress <= duration && last <= now ==> progress <= r
    ensures r == Min(duration, progress + (now - last))
  {
    var next := progress + (now - last);
    if next > duration then duration else next
  }

  /** The progress after one frame at each time of `times`, in order. */
  function Frames(progress: int, last: int, duration: int, times: seq<int>): int
    decreases |times|
  {
    if times == [] then progress
    else Frames(Advance(progress, last, times[0], duration), times[0], duration, times[1..])
  }

  /** A clock that never runs backwards, starting from `last`. */
  predicate NonDecreasing(last: int, times: seq<int>) {
    (forall i :: 0 < i < |times| ==> times[i - 1] <= times[i])
    && (|times| > 0 ==> last <= times[0])
  }

  function LastTime(last: int, times: seq<int>): int {
    if times == [] then last else times[|times| - 1]
  }

  /** The frames telescope: under a non-decreasing clock and with no poll in
      between, N frames leave `min(duration, p0 + (tN - t0))`. */
  lemma {:induction false} FramesTelescope(progress: int, last: int, duration: int, times: seq<int>)
    requires NonDecreasing(last, times)
    requires times != [] || progress <= duration
    ensures Frames(progress, last, duration, times) == Min(duration, progress + (LastTime(last, times) - last))
    decreases |times|
  {
    if times != [] {
      var p1 := Advance(progress, last, times[0], duration);
      var rest := times[1..];
      assert NonDecreasing(times[0], rest);
      FramesTelescope(p1, times[0], duration, rest);
      assert LastTime(times[0], rest) == LastTime(last, times);
      MonotoneIndex(times, 0, |times| - 1);
      assert times[0] <= LastTime(last, times);
    }
  }

  /** Progress never decreases from one frame to a later one, and never
      exceeds the duration. */
  lemma FramesMonotone(progress: int, last: int, duration: int, times: seq<int>, i: nat, j: nat)
    requires NonDecreasing(last, times) && progress <= duration
    requires i <= j <= |times|
    ensures Frames(progress, last, duration, times[..i]) <= Frames(progress, last, duration, times[..j]) <= duration
  {
    assert NonDecreasing(last, times[..i]);
    assert NonDecreasing(last, times[..j]);
    FramesTelescope(progress, last, duration, times[..i]);
    FramesTelescope(progress, last, duration, times[..j]);
    assert LastTime(last, times[..i]) <= LastTime(last, times[..j]) by {
      if 0 < i {
        MonotoneIndex(times, i - 1, j - 1);
      } else if 0 < j {
        MonotoneIndex(times, 0, j - 1);
      }
    }
  }

  lemma {:induction false} MonotoneIndex(times: seq<int>, a: nat, b: nat)
    requires forall k :: 0 < k < |times| ==> times[k - 1] <= times[k]
    requires a <= b < |times|
    ensures times[a] <= times[b]
    decreases b - a
  {
    if a < b {
      MonotoneIndex(times, a, b - 1);
    }
  }

  /** The page's state: React state (`songData`, `isLoading`, `error`,
      `progressMs`), the refs (`lastUpdateRef`, `firstLoad`), the frame
      loop's `running` flag with the duration it captured, and whether the
      page is still mounted. */
  class Page {
    var songData: Option<Snapshot>
    var isLoading: bool
    var error: Option<string>
    var progressMs: int
    var lastUpdate: int
    var firstLoad: bool
    var running: bool
    var loopDuration: int
    var mounted: bool

    /** The frame loop runs exactly while the page is mounted and holds a
        playing record, with that record's duration; the spinner shows
        exactly until the first poll completes. */
    ghost predicate Valid()
      reads this
    {
      (running <==> mounted && songData.Some? && songData.value.isPlaying)
      && (running ==> loopDuration == songData.value.durationMs)
      && isLoading == firstLoad
    }

    constructor (now: int)
      ensures Valid() && mounted && !running
      ensures songData.None? && isLoading && error.None? && progressMs == 0 && lastUpdate == now && firstLoad
    {
      songData := None;
      isLoading := true;
      error := None;
      progressMs := 0;
      lastUpdate := now;
      firstLoad := true;
      running := false;
      loopDuration := 0;
      mounted := true;
    }

    /** The effect keyed on `songData?.isPlaying` and `songData?.durationMs`:
        the old loop is cancelled and a new one runs while a record plays. */
    method SyncLoop()
      modifies this
      ensures running == (mounted && songData.Some? && songData.value.isPlaying)
      ensures running ==> loopDuration == songData.value.durationMs
      ensures songData == old(songData) && isLoading == old(isLoading) && error == old(error)
      ensures progressMs == old(progressMs) && lastUpdate == old(lastUpdate)
      ensures firstLoad == old(firstLoad) && mounted == old(mounted)
    {
      running := false;
      if mounted && songData.Some? && songData.value.isPlaying {
        running := true;
        loopDuration := songData.value.durationMs;
      }
    }

    /** The `finally` of a poll: the first completion ends the loading state. */
    method FinishPoll()
      requires isLoading == firstLoad
      modifies this
      ensures !isLoading && !firstLoad
      ensures !old(firstLoad) ==> isLoading == old(isLoading)
      ensures songData == old(songData) && error == old(error) && progressMs == old(progressMs)
      ensures lastUpdate == old(lastUpdate) && running == old(running) && loopDuration == old(loopDuration)
      ensures mounted == old(mounted)
    {
      if firstLoad {
        isLoading := false;
        firstLoad := false;
      }
    }

    /** A poll whose body parsed. A playing record, or one with a truthy
        `lastPlayed`, replaces the song and the progress; the clock
        reference moves to `now` only for a playing one. Any other body
        clears the song and leaves the progress alone. An unmounted page
        ignores the result. */
    method PollSucceeded(body: Body, now: int)
      requires Valid()
      modifies this
      ensures Valid()
      ensures !mounted ==> songData == old(songData) && progressMs == old(progressMs)
                           && lastUpdate == old(lastUpdate) && isLoading == old(isLoading)
      ensures mounted && ShowsSong(body) ==>
                songData == Some(body.song) && progressMs == body.song.progressMs
                && lastUpdate == (if body.song.isPlaying then now else old(lastUpdate))
      ensures mounted && !ShowsSong(body) ==>
                songData.None? && progressMs == old(progressMs) && lastUpdate == old(lastUpdate)
      ensures mounted ==> !isLoading && (!old(firstLoad) ==> isLoading == old(isLoading))
      ensures error == old(error) && mounted == old(mounted)
    {
      if !mounted {
        return;
      }
      if ShowsSong(body) {
        songData := Some(body.song);
        progressMs := body.song.progressMs;
        if body.song.isPlaying {
          lastUpdate := now;
        }
      } else {
        songData := None;
      }
      FinishPoll();
      SyncLoop();
    }

    /** A poll whose fetch or JSON parse threw: the error is set (and is
        never cleared again) and the song is cleared. */
    method PollFailed()
      requires Valid()
      modifies this
      ensures Valid()
      ensures !mounted ==> songData == old(songData) && error == old(error) && isLoading == old(isLoading)
      ensures mounted ==> error == Some(FetchFailed) && songData.None? && !isLoading
      ensures progressMs == old(progressMs) && lastUpdate == old(lastUpdate) && mounted == old(mounted)
    {
      if !mounted {
        return;
      }
      error := Some(FetchFailed);
      songData := None;
      FinishPoll();
      SyncLoop();
    }

    /** One animation frame at clock time `now`. While the loop runs it
        advances the progress by the time since the last update, capped at
        the duration, and moves the clock reference to `now`; otherwise
        nothing changes. */
    method Tick(now: int)
      requires Valid()
      modifies this
      ensures Valid()
      ensures old(running) ==> progressMs == Advance(old(progressMs), old(lastUpdate), now, loopDuration)
                               && lastUpdate == now
      ensures !old(running) ==> progressMs == old(progressMs) && lastUpdate == old(lastUpdate)
      ensures songData == old(songData) && isLoading == old(isLoading) && error == old(error)
      ensures running == old(running) && loopDuration == old(loopDuration) && mounted == old(mounted)
      ensures firstLoad == old(firstLoad)
    {
      if !running {
        return;
      }
      var elapsed := now - lastUpdate;
      lastUpdate := now;
      var next := progressMs + elapsed;
      progressMs := if next > loopDuration then loopDuration else next;
    }

    /** A run of frames with no poll in between: while the loop runs, the
        progress is the frames' fold and the clock reference is the last
        frame's time; a page whose loop is stopped does not change at all. */
    method RunFrames(times: seq<int>)
      requires Valid()
      modifies this
      ensures Valid()
      ensures old(running) ==> progressMs == Frames(old(progressMs), old(lastUpdate), loopDuration, times)
                               && lastUpdate == LastTime(old(lastUpdate), times)
      ensures old(running) && times != [] && NonDecreasing(old(lastUpdate), times) ==>
                progressMs == Min(loopDuration, old(progressMs) + (times[|times| - 1] - old(lastUpdate)))
      ensures !old(running) ==> progressMs == old(progressMs) && lastUpdate == old(lastUpdate)
      ensures songData == old(songData) && isLoading == old(isLoading) && error == old(error)
      ensures running == old(running) && loopDuration == old(loopDuration)
      ensures mounted == old(mounted) && firstLoad == old(firstLoad)
    {
      if times != [] && NonDecreasing(lastUpdate, times) {
        FramesTelescope(progressMs, lastUpdate, loopDuration, times);
      }
      var i := 0;
      while i < |times|
        invariant 0 <= i <= |times|
        invariant Valid()
        invariant running == old(running) && loopDuration == old(loopDuration)
        invariant songData == old(songData) && isLoading == old(isLoading) && error == old(error)
        invariant mounted == old(mounted) && firstLoad == old(firstLoad)
        invariant running ==> lastUpdate == LastTime(old(lastUpdate), times[..i])
        invariant running ==> Frames(progressMs, lastUpdate, loopDuration, times[i..])
                              == Frames(old(progressMs), old(lastUpdate), loopDuration, times)
        invariant !running ==> progressMs == old(progressMs) && lastUpdate == old(lastUpdate)
      {
        assert times[i..][1..] == times[i + 1..];
        Tick(times[i]);
        i := i + 1;
        assert times[..i][i - 1] == times[i - 1];
      }
      assert times[i..] == [];
      assert times[..i] == times;
    }

    /** Unmounting: the interval and the frame loop stop. */
    method Unmount()
      requires Valid()
      modifies this
      ensures Valid() && !mounted && !running
      ensures songData == old(songData) && progressMs == old(progressMs) && error == old(error)
      ensures isLoading == old(isLoading) && lastUpdate == old(lastUpdate)
      ensures firstLoad == old(firstLoad) && loopDuration == old(loopDuration)
    {
      mounted := false;
      running := false;
    }

    /** The record handed to the widget: the song with its progress replaced
        by the locally advanced one, or nothing. */
    function WidgetData(): (r: Option<Snapshot>)
      reads this
      ensures r.None? <==> songData.None?
      ensures r.Some? ==> r.value.progressMs == progressMs
                          && r.value.(progressMs := songData.value.progressMs) == songData.value
    {
      match songData
      case None => None
      case Some(s) => Some(s.(progressMs := progressMs))
    }

    /** The page below its heading: the loading line while loading, the
        error line once there is an error, and the widget only when
        neither. */
    function Screen(): (v: PageView)
      reads this
      ensures v.loading.Some? <==> isLoading
      ensures v.errorLine.Some? <==> Js.TruthyText(error)
      ensures v.errorLine.Some? ==> v.errorLine.value == "Error: " + error.value
      ensures v.widget.Some? <==> !isLoading && !Js.TruthyText(error)
      ensures v.widget.Some? ==> v.widget.value == Widget.Render(WidgetData())
    {
      PageView(
        if isLoading then Some(LoadingText) else None,
        if Js.TruthyText(error) then Some("Error: " + error.value) else None,
        if !isLoading && !Js.TruthyText(error) then Some(Widget.Render(WidgetData())) else None)
    }
  }

  /** Everything that can happen to the page: a poll that produced a body,
      a poll that failed, an animation frame, unmounting. */
  datatype Event = Succeeded(body: Body, now: int) | Failed | Frame(now: int) | Stop

  /** Dispatches one event. The error is either kept or set to the fetch
      failure text: no event clears it. */
  method Apply(page: Page, e: Event)
    requires page.Valid()
    modifies page
    ensures page.Valid()
    ensures page.error == old(page.error) || page.error == Some(FetchFailed)
    ensures old(page.error).Some? ==> page.error.Some?
  {
    match e {
      case Succeeded(body, now) => page.PollSucceeded(body, now);
      case Failed => page.PollFailed();
      case Frame(now) => page.Tick(now);
      case Stop => page.Unmount();
    }
  }

  /** Once a poll has failed the widget never shows again: whatever events
      follow, the error line stays and the widget is withheld. */
  method ErrorIsSticky(page: Page, events: seq<Event>)
    requires page.Valid() && page.mounted
    modifies page
    ensures page.error == Some(FetchFailed)
    ensures page.Screen().errorLine == Some("Error: " + FetchFailed) && page.Screen().widget.None?
  {
    page.PollFailed();
    var i := 0;
    while i < |events|
      invariant 0 <= i <= |events|
      invariant page.Valid() && page.error == Some(FetchFailed)
    {
      Apply(page, events[i]);
      i := i + 1;
    }
  }
}
