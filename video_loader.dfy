/** The simulated progress of the custom video loader: a counter advanced
    by 5 on every interval tick, shown as a percentage until it passes 100,
    and the hide sequence that reveals the video. */
module VideoLoader {

  /** Percentage added by each interval tick. */
  const Step: int := 5
  /** The percentage the hide sequence shows. */
  const Full: int := 100

  /** The loader as the handlers see it:
      - `progress`: `simulatedProgress`;
      - `running`: whether the progress interval is active;
      - `shown`: whether the loader carries the `show` class;
      - `percentage` and `barWidth`: the number in the percentage label and
        the width of the bar fill;
      - `pendingReveals`: hide sequences whose final timeout (which removes
        `show` and plays the video) has not fired yet;
      - `videoVisible`: whether the video has been revealed. */
  datatype Loader = Loader(
    progress: int, running: bool, shown: bool,
    percentage: int, barWidth: int,
    pendingReveals: nat, videoVisible: bool)

  /** `showCustomVideoLoader`, the state before any video event. */
  function Shown(): (s: Loader)
    ensures Valid(s) && s.shown && !s.running && s.percentage == 0
  {
    Loader(0, false, true, 0, 0, 0, false)
  }

  /** `hideCustomVideoLoader`: the label and bar jump to 100% and the rest of
      the sequence is scheduled. */
  function Hide(s: Loader): (r: Loader)
    ensures r.percentage == Full && r.barWidth == Full
    ensures r.pendingReveals == s.pendingReveals + 1
    ensures r.progress == s.progress && r.running == s.running && r.shown == s.shown
  {
    s.(percentage := Full, barWidth := Full, pendingReveals := s.pendingReveals + 1)
  }

  /** The `loadedmetadata` handler: stop any interval, reset the counter and
      the display, and start a new interval. */
  function LoadedMetadata(s: Loader): (r: Loader)
    ensures r.running && r.progress == 0 && r.percentage == 0 && r.barWidth == 0
    ensures r.shown == s.shown && r.pendingReveals == s.pendingReveals
  {
    s.(running := true, progress := 0, percentage := 0, barWidth := 0)
  }

  /** One firing of the progress interval: advance by 5 and show it while it
      is at most 100; past 100 stop the interval and start hiding. */
  function Tick(s: Loader): (r: Loader)
    requires s.running
    ensures r.progress == s.progress + Step
    ensures r.progress <= Full ==> r.running && r.percentage == r.progress && r.barWidth == r.progress
    ensures r.progress <= Full ==> r.pendingReveals == s.pendingReveals
    ensures Full < r.progress ==> !r.running && r.percentage == Full && r.pendingReveals == s.pendingReveals + 1
  {
    var progress := s.progress + Step;
    if progress <= Full then
      s.(progress := progress, percentage := progress, barWidth := progress)
    else
      Hide(s.(progress := progress, running := false))
  }

  /** The `playing` handler: stop the interval and take the loader away at
      once. */
  function Playing(s: Loader): (r: Loader)
    ensures !r.running && !r.shown
    ensures r.progress == s.progress && r.percentage == s.percentage && r.pendingReveals == s.pendingReveals
  {
    s.(running := false, shown := false)
  }

  /** The `canplaythrough` handler: below 100 it stops the interval and
      starts hiding; from 100 on it does nothing. */
  function CanPlayThrough(s: Loader): (r: Loader)
    ensures s.progress < Full ==> !r.running && r.percentage == Full && r.pendingReveals == s.pendingReveals + 1
    ensures Full <= s.progress ==> r == s
  {
    if s.progress < Full then Hide(s.(running := false)) else s
  }

  /** The last timeout of a hide sequence: the loader goes and the video is
      revealed. */
  function Reveal(s: Loader): (r: Loader)
    requires 0 < s.pendingReveals
    ensures !r.shown && r.videoVisible && r.pendingReveals == s.pendingReveals - 1
  {
    s.(shown := false, videoVisible := true, pendingReveals := s.pendingReveals - 1)
  }

  // ---------------------------------------------------------------------
  // The display invariant

  /** The label and the bar agree and show a multiple of 5 between 0 and 100;
      the counter is a multiple of 5 between 0 and 105, and while the interval
      runs it is at most 100 and is what the label shows. */
  predicate Valid(s: Loader) {
    && s.barWidth == s.percentage
    && 0 <= s.percentage <= Full && s.percentage % Step == 0
    && 0 <= s.progress <= Full + Step && s.progress % Step == 0
    && (s.running ==> s.progress <= Full && s.percentage == s.progress)
  }

  /** Every handler keeps the invariant. */
  lemma HandlersKeepValid(s: Loader)
    requires Valid(s)
    ensures Valid(LoadedMetadata(s)) && Valid(Playing(s)) && Valid(CanPlayThrough(s))
    ensures s.running ==> Valid(Tick(s))
    ensures 0 < s.pendingReveals ==> Valid(Reveal(s))
  {
  }

  /** `canplaythrough` changes something exactly when the counter is below
      100. */
  lemma CanPlayThroughActsIffBelowFull(s: Loader)
    ensures CanPlayThrough(s) != s <==> s.progress < Full
  {
    if s.progress < Full {
      assert CanPlayThrough(s).pendingReveals != s.pendingReveals;
    }
  }

  /** `n` firings of the interval, stopping early once it has been cleared. */
  function Ticks(s: Loader, n: nat): Loader
    decreases n
  {
    if n == 0 || !s.running then s else Ticks(Tick(s), n - 1)
  }

  /** From a reset, the first 20 ticks count up in steps of 5 and keep the
      interval running, with the label following the counter. */
  lemma {:induction false} TicksCountUp(s: Loader, n: nat)
    requires s.running && s.progress == 0 && s.percentage == 0 && s.barWidth == 0
    requires n <= 20
    ensures var t := Ticks(s, n);
      && t.running && t.progress == Step * n && t.percentage == Step * n && t.barWidth == Step * n
      && t.pendingReveals == s.pendingReveals && t.shown == s.shown
    decreases n
  {
    if n > 0 {
      TicksCountUp(s, n - 1);
      TicksLast(s, n - 1);
    }
  }

  /** Splitting off the last of `n + 1` ticks. */
  lemma {:induction false} TicksLast(s: Loader, n: nat)
    requires Ticks(s, n).running
    ensures Ticks(s, n + 1) == Tick(Ticks(s, n))
    decreases n
  {
    if n > 0 {
      if s.running {
        TicksLast(Tick(s), n - 1);
      }
    }
  }

  /** From a reset, the 21st tick takes the counter to 105, stops the
      interval and starts hiding, which shows 100%. */
  lemma TwentyFirstTickHides(s: Loader)
    requires s.running && s.progress == 0 && s.percentage == 0 && s.barWidth == 0
    ensures var t := Ticks(s, 21);
      && !t.running && t.progress == 105 && t.percentage == Full && t.barWidth == Full
      && t.pendingReveals == s.pendingReveals + 1
  {
    TicksCountUp(s, 20);
    TicksLast(s, 20);
  }

  // ---------------------------------------------------------------------
  // The handlers on the page's state

  /** The loader's elements and the script's `simulatedProgress` and
      `progressInterval`, changed in place by the video event handlers. */
  class ProgressLoader {
    var simulatedProgress: int
    var intervalRunning: bool
    var shown: bool
    var percentageText: int
    var barFillWidth: int
    var pendingReveals: nat
    var videoVisible: bool

    function State(): Loader
      reads this
    {
      Loader(simulatedProgress, intervalRunning, shown, percentageText, barFillWidth, pendingReveals, videoVisible)
    }

    /** `showCustomVideoLoader(mainVideo)` when the script starts. */
    constructor ()
      ensures State() == Shown()
    {
      simulatedProgress := 0;
      intervalRunning := false;
      shown := true;
      percentageText := 0;
      barFillWidth := 0;
      pendingReveals := 0;
      videoVisible := false;
    }

    /** `hideCustomVideoLoader(mainVideo)` up to scheduling its timeouts. */
    method HideCustomVideoLoader()
      modifies this
      ensures State() == Hide(old(State()))
    {
      percentageText := Full;
      barFillWidth := Full;
      pendingReveals := pendingReveals + 1;
    }

    method OnLoadedMetadata()
      modifies this
      ensures State() == LoadedMetadata(old(State()))
      ensures Valid(old(State())) ==> Valid(State())
    {
      intervalRunning := false;
      simulatedProgress := 0;
      percentageText := 0;
      barFillWidth := 0;
      intervalRunning := true;
    }

    /** One firing of the interval callback; it only fires while the
        interval is active. */
    method OnIntervalTick()
      requires intervalRunning
      modifies this
      ensures State() == Tick(old(State()))
      ensures Valid(old(State())) ==> Valid(State())
    {
      simulatedProgress := simulatedProgress + Step;
      if simulatedProgress <= Full {
        percentageText := simulatedProgress;
        barFillWidth := simulatedProgress;
      } else {
        intervalRunning := false;
        HideCustomVideoLoader();
      }
    }

    method OnPlaying()
      modifies this
      ensures State() == Playing(old(State()))
      ensures Valid(old(State())) ==> Valid(State())
    {
      intervalRunning := false;
      shown := false;
    }

    method OnCanPlayThrough()
      modifies this
      ensures State() == CanPlayThrough(old(State()))
      ensures Valid(old(State())) ==> Valid(State())
    {
      if simulatedProgress < Full {
        intervalRunning := false;
        HideCustomVideoLoader();
      }
    }

    /** The 2500 ms timeout of a hide sequence. */
    method OnReveal()
      requires 0 < pendingReveals
      modifies this
      ensures State() == Reveal(old(State()))
      ensures Valid(old(State())) ==> Valid(State())
    {
      shown := false;
      videoVisible := true;
      pendingReveals := pendingReveals - 1;
    }
  }
}
