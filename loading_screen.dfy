/** The loading screen (src/components/LoadingScreen.tsx): a progress counter
    advanced by an interval and clamped at 100, and a visibility flag that a
    timer clears once, after which a second timer calls `onLoadingComplete`.
    The timers become events; only their order is kept. */
module LoadingScreen {

  const Full: int := 100
  const Increment: int := 2

  /** The interval's state updater applied to the previous progress. */
  function NextProgress(prev: int): (r: int)
    ensures prev < Full ==> r == prev + Increment
    ensures prev >= Full ==> r == Full
  {
    if prev >= Full then Full else prev + Increment
  }

  /** The updater clears the interval when it sees a full counter. */
  predicate StopsInterval(prev: int) {
    prev >= Full
  }

  /** The progress after `n` ticks from the initial 0. */
  function ProgressAfter(n: nat): int {
    if n == 0 then 0 else NextProgress(ProgressAfter(n - 1))
  }

  /** From 0 the progress is `min(2n, 100)`: within [0, 100] and even. */
  lemma {:induction false} ProgressAfterValue(n: nat)
    ensures ProgressAfter(n) == if Increment * n < Full then Increment * n else Full
    ensures 0 <= ProgressAfter(n) <= Full && ProgressAfter(n) % 2 == 0
  {
    if n > 0 {
      ProgressAfterValue(n - 1);
    }
  }

  /** Progress never decreases across ticks. */
  lemma {:induction false} ProgressMonotone(m: nat, n: nat)
    requires m <= n
    ensures ProgressAfter(m) <= ProgressAfter(n)
  {
    ProgressAfterValue(m);
    ProgressAfterValue(n);
  }

  /** Once full, the counter stays full. */
  lemma {:induction false} FullIsStable(m: nat, n: nat)
    requires m <= n && ProgressAfter(m) == Full
    ensures ProgressAfter(n) == Full
  {
    ProgressMonotone(m, n);
    ProgressAfterValue(n);
  }

  /** The component's state and its pending timers.  `completions` counts the
      calls of `onLoadingComplete`; `mounted` turns false when the effect cleans up. */
  datatype Screen = Screen(
    isVisible: bool,
    progress: int,
    intervalRunning: bool,
    dismissPending: bool,
    completionPending: bool,
    completions: nat,
    mounted: bool)

  /** Mount: visible, progress 0, the interval and the dismiss timer started. */
  function Init(): (s: Screen)
    ensures s.isVisible && s.progress == 0 && s.intervalRunning && s.dismissPending
    ensures !s.completionPending && s.completions == 0 && s.mounted
  {
    Screen(true, 0, true, true, false, 0, true)
  }

  /** The timer events: the 50 ms interval, the 2500 ms dismiss timer, the 500 ms
      completion timer it starts, and the effect's cleanup. */
  datatype Event = TickFired | DismissFired | CompletionFired | Unmounted

  /** A timer fires only while it is pending. */
  predicate Enabled(s: Screen, e: Event) {
    match e
    case TickFired => s.intervalRunning
    case DismissFired => s.dismissPending
    case CompletionFired => s.completionPending
    case Unmounted => s.mounted
  }

  /** The effect of one event.  The cleanup clears the interval and the dismiss
      timer but not a completion timer already started. */
  function Step(s: Screen, hasCallback: bool, e: Event): Screen
    requires Enabled(s, e)
  {
    match e
    case TickFired =>
      s.(progress := NextProgress(s.progress), intervalRunning := !StopsInterval(s.progress))
    case DismissFired =>
      s.(isVisible := false, dismissPending := false, completionPending := true)
    case CompletionFired =>
      s.(completionPending := false, completions := s.completions + (if hasCallback then 1 else 0))
    case Unmounted =>
      s.(intervalRunning := false, dismissPending := false, mounted := false)
  }

  /** The invariant of every reachable state: progress is an even number in
      [0, 100], the interval runs until it has seen 100 (or the screen unmounts),
      and the callback is called at most once, only after the screen is hidden. */
  ghost predicate Valid(s: Screen, hasCallback: bool) {
    && 0 <= s.progress <= Full && s.progress % 2 == 0
    && (s.progress < Full && s.mounted ==> s.intervalRunning)
    && (s.dismissPending ==> s.isVisible && s.mounted)
    && (s.isVisible ==> !s.completionPending && s.completions == 0)
    && (s.completionPending ==> s.completions == 0)
    && s.completions <= 1
    && (!hasCallback ==> s.completions == 0)
  }

  lemma InitValid(hasCallback: bool)
    ensures Valid(Init(), hasCallback)
  {
  }

  /** Every event keeps the invariant; progress never decreases, and a hidden
      screen stays hidden. */
  lemma StepPreservesValid(s: Screen, hasCallback: bool, e: Event)
    requires Valid(s, hasCallback) && Enabled(s, e)
    ensures Valid(Step(s, hasCallback, e), hasCallback)
    ensures Step(s, hasCallback, e).progress >= s.progress
    ensures !s.isVisible ==> !Step(s, hasCallback, e).isVisible
    ensures Step(s, hasCallback, e).completions > s.completions ==> !Step(s, hasCallback, e).isVisible
  {
  }

  /** Events in order; the run stops at the first one that is not enabled. */
  function Run(s: Screen, hasCallback: bool, events: seq<Event>): Screen
    decreases |events|
  {
    if events == [] || !Enabled(s, events[0]) then s
    else Run(Step(s, hasCallback, events[0]), hasCallback, events[1..])
  }

  /** Over any run the invariant holds, progress does not decrease, and once the
      screen is hidden it never becomes visible again. */
  lemma {:induction false} RunPreservesValid(s: Screen, hasCallback: bool, events: seq<Event>)
    requires Valid(s, hasCallback)
    ensures Valid(Run(s, hasCallback, events), hasCallback)
    ensures Run(s, hasCallback, events).progress >= s.progress
    ensures !s.isVisible ==> !Run(s, hasCallback, events).isVisible
    decreases |events|
  {
    if events != [] && Enabled(s, events[0]) {
      StepPreservesValid(s, hasCallback, events[0]);
      RunPreservesValid(Step(s, hasCallback, events[0]), hasCallback, events[1..]);
    }
  }

  /** `n` firings of the interval and nothing else. */
  function Ticks(n: nat): (r: seq<Event>)
    ensures |r| == n && forall i :: 0 <= i < n ==> r[i] == TickFired
  {
    seq(n, _ => TickFired)
  }

  /** Ticks alone drive the mounted screen's progress along `ProgressAfter`: after
      `n` more ticks it is `ProgressAfter(k + n)`, even though the interval stops
      one tick after reaching 100. */
  lemma {:induction false} TicksFollowProgressAfter(s: Screen, hasCallback: bool, k: nat, n: nat)
    requires Valid(s, hasCallback) && s.mounted && s.progress == ProgressAfter(k)
    ensures Run(s, hasCallback, Ticks(n)).progress == ProgressAfter(k + n)
    decreases n
  {
    if n > 0 {
      if s.intervalRunning {
        var t := Step(s, hasCallback, TickFired);
        StepPreservesValid(s, hasCallback, TickFired);
        assert Ticks(n)[1..] == Ticks(n - 1);
        TicksFollowProgressAfter(t, hasCallback, k + 1, n - 1);
      } else {
        FullIsStable(k, k + n);
      }
    }
  }

  /** Ticks alone clear the interval on the first tick that sees a full counter:
      after `n` more ticks it runs exactly while the progress before the last
      tick was below 100. */
  lemma {:induction false} TicksStopInterval(s: Screen, hasCallback: bool, k: nat, n: nat)
    requires Valid(s, hasCallback) && s.mounted && s.progress == ProgressAfter(k)
    requires s.intervalRunning == (k == 0 || ProgressAfter(k - 1) < Full)
    ensures Run(s, hasCallback, Ticks(n)).intervalRunning == (k + n == 0 || ProgressAfter(k + n - 1) < Full)
    decreases n
  {
    if n > 0 {
      if s.intervalRunning {
        var t := Step(s, hasCallback, TickFired);
        StepPreservesValid(s, hasCallback, TickFired);
        assert Ticks(n)[1..] == Ticks(n - 1);
        TicksStopInterval(t, hasCallback, k + 1, n - 1);
      } else {
        ProgressAfterValue(k - 1);
        FullIsStable(k - 1, k + n - 1);
      }
    }
  }

  /** From mount the interval runs for exactly 50 ticks: the tick that brings
      progress to 100 leaves it running and the next one clears it. */
  lemma IntervalRunsFiftyTicks(hasCallback: bool, n: nat)
    ensures Run(Init(), hasCallback, Ticks(n)).intervalRunning <==> n <= 50
  {
    TicksStopInterval(Init(), hasCallback, 0, n);
    if n > 0 {
      ProgressAfterValue(n - 1);
    }
  }

  /** From mount, `n` ticks give `min(2n, 100)`. */
  lemma TicksFromMount(hasCallback: bool, n: nat)
    ensures Run(Init(), hasCallback, Ticks(n)).progress == if 2 * n < 100 then 2 * n else 100
  {
    TicksFollowProgressAfter(Init(), hasCallback, 0, n);
    ProgressAfterValue(n);
  }

  /** The loading screen component. */
  class LoadingScreenState {
    const hasCallback: bool
    var isVisible: bool
    var progress: int
    var intervalRunning: bool
    var dismissPending: bool
    var completionPending: bool
    var completions: nat
    var mounted: bool

    function View(): Screen
      reads this
    {
      Screen(isVisible, progress, intervalRunning, dismissPending, completionPending, completions, mounted)
    }

    /** `hasCallback` says whether `onLoadingComplete` was passed. */
    constructor (hasCallback: bool)
      ensures this.hasCallback == hasCallback && View() == Init() && Valid(View(), hasCallback)
    {
      this.hasCallback := hasCallback;
      isVisible, progress := true, 0;
      intervalRunning, dismissPending, completionPending := true, true, false;
      completions, mounted := 0, true;
    }

    /** One firing of the interval: the clamped updater, and `clearInterval`
        when the previous progress was already full. */
    method Tick()
      requires Valid(View(), hasCallback) && intervalRunning
      modifies this
      ensures View() == Step(old(View()), hasCallback, TickFired) && Valid(View(), hasCallback)
    {
      StepPreservesValid(View(), hasCallback, TickFired);
      if progress >= Full {
        intervalRunning := false;
      }
      progress := NextProgress(progress);
    }

    /** The dismiss timer: hide the screen and start the completion timer. */
    method Dismiss()
      requires Valid(View(), hasCallback) && dismissPending
      modifies this
      ensures View() == Step(old(View()), hasCallback, DismissFired) && Valid(View(), hasCallback)
    {
      StepPreservesValid(View(), hasCallback, DismissFired);
      isVisible := false;
      dismissPending := false;
      completionPending := true;
    }

    /** The completion timer: `onLoadingComplete?.()`. */
    method FireCompletion()
      requires Valid(View(), hasCallback) && completionPending
      modifies this
      ensures View() == Step(old(View()), hasCallback, CompletionFired) && Valid(View(), hasCallback)
    {
      StepPreservesValid(View(), hasCallback, CompletionFired);
      completionPending := false;
      if hasCallback {
        completions := completions + 1;
      }
    }

    /** The effect's cleanup. */
    method Unmount()
      requires Valid(View(), hasCallback) && mounted
      modifies this
      ensures View() == Step(old(View()), hasCallback, Unmounted) && Valid(View(), hasCallback)
    {
      StepPreservesValid(View(), hasCallback, Unmounted);
      mounted := false;
      intervalRunning := false;
      dismissPending := false;
    }
  }
}
