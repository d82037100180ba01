/**
 * The hero slider controller: three slides shown in turn, each for five
 * seconds, with one progress indicator per slide, and a pause/resume gate
 * driven by whether the hero region is in view.
 *
 * The first half of the module describes the controller's whole state as a
 * value (`State`) and every entry point as a function from state to state
 * (`After...`), with the invariant `Inv` that each one keeps. The class
 * `Slider` at the end holds the same state in fields and arrays, updates it
 * in place as the script does, and each of its methods is proved to produce
 * exactly the state the corresponding function describes.
 *
 * Time is not modelled: a scheduled callback is a flag that says it is
 * pending, and the environment delivers it by calling a `Fire...` method.
 */
module Hero {
  import opened Wrappers

  /** Number of slides, and of progress indicators. */
  const TotalSlides: nat := 3
  /** How long a slide is shown before the advance timeout fires, in ms. */
  const SlideDuration: nat := 5000

  /**
   * What a pending visibility debounce will do when it fires (the script
   * waits 40 ms before pausing and 120 ms before resuming; since time is
   * not modelled, only the action is kept).
   */
  datatype PauseOrResume = Pause | Resume

  /** The action an observer entry schedules: leaving view pauses, entering resumes. */
  function ActionFor(isIntersecting: bool): PauseOrResume {
    if isIntersecting then Resume else Pause
  }

  /** Fill percentage of the active indicator `elapsed` ms after the slide started. */
  function Progress(elapsed: int): (p: real)
    ensures p <= 100.0
    ensures elapsed >= 0 ==> 0.0 <= p
    ensures elapsed == 0 ==> p == 0.0
    ensures p == 100.0 <==> elapsed >= SlideDuration
    ensures 0 <= elapsed < SlideDuration ==> p * (SlideDuration as real) == (elapsed as real) * 100.0
  {
    var linear := (elapsed as real / SlideDuration as real) * 100.0;
    if linear < 100.0 then linear else 100.0
  }

  /** The slide after `i`, wrapping from the last slide to the first. */
  function NextIndex(i: int): (j: int)
    requires 0 <= i < TotalSlides
    ensures 0 <= j < TotalSlides && j != i
    ensures j == 0 <==> i == TotalSlides - 1
    ensures i < TotalSlides - 1 ==> j == i + 1
  {
    (i + 1) % TotalSlides
  }

  /** Indicator fill widths for active slide `current` showing progress `p`. */
  function Fills(current: int, p: real): seq<real> {
    seq(TotalSlides, i => if i == current then p else if i < current then 100.0 else 0.0)
  }

  /** One flag per slide or indicator, set exactly at `current`. */
  function ActiveFlags(current: int): seq<bool> {
    seq(TotalSlides, i => i == current)
  }

  /**
   * The controller's state. `advancePending`, `rafPending` and `visPending`
   * are the three single-slot timer handles (the advance timeout, the
   * animation-frame loop and the visibility debounce); `exitPending` lists,
   * oldest first, the slides whose 800 ms "exiting" cleanup has not yet
   * fired; `observing` records whether the visibility observer was set up.
   */
  datatype State = State(
    current: int,
    paused: bool,
    advancePending: bool,
    rafPending: bool,
    visPending: Option<PauseOrResume>,
    fill: seq<real>,
    itemActive: seq<bool>,
    slideActive: seq<bool>,
    slideExiting: seq<bool>,
    exitPending: seq<int>,
    observing: bool)

  /** Sizes and indices are in range. */
  ghost predicate Shaped(h: State) {
    && 0 <= h.current < TotalSlides
    && |h.fill| == TotalSlides
    && |h.itemActive| == TotalSlides
    && |h.slideActive| == TotalSlides
    && |h.slideExiting| == TotalSlides
    && (forall j :: 0 <= j < |h.exitPending| ==> 0 <= h.exitPending[j] < TotalSlides)
  }

  /** Slide markers: exactly the current slide is active, and every exiting slide has a cleanup pending. */
  ghost predicate Marked(h: State) {
    && Shaped(h)
    && h.slideActive == ActiveFlags(h.current)
    && (forall i :: 0 <= i < TotalSlides && h.slideExiting[i] ==> i in h.exitPending)
  }

  /** Indicators are drawn in full from (current, progress): earlier complete, later empty. */
  ghost predicate Rendered(h: State) {
    && Shaped(h)
    && h.itemActive == ActiveFlags(h.current)
    && 0.0 <= h.fill[h.current] <= 100.0
    && h.fill == Fills(h.current, h.fill[h.current])
  }

  /** Timer discipline: the advance timeout is pending exactly while running, and the frame loop only beside it. */
  ghost predicate Disciplined(h: State) {
    && (h.advancePending <==> !h.paused)
    && (h.rafPending ==> h.advancePending)
  }

  /** The invariant every entry point of the controller keeps. */
  ghost predicate Inv(h: State) {
    Marked(h) && Rendered(h) && Disciplined(h)
  }

  // ---- Timer & progress ----

  /** clearTimersAndRaf: both timer slots emptied. */
  function AfterClear(h: State): State {
    h.(advancePending := false, rafPending := false)
  }

  /** updateProgressBar(p): every indicator rewritten from the current slide and `p`. */
  function AfterRender(h: State, p: real): (r: State)
    requires Shaped(h)
    ensures Shaped(r) && r.current == h.current
    ensures forall i :: 0 <= i < TotalSlides ==> (r.itemActive[i] <==> i == h.current)
    ensures r.fill[h.current] == p
    ensures forall i :: 0 <= i < h.current ==> r.fill[i] == 100.0
    ensures forall i :: h.current < i < TotalSlides ==> r.fill[i] == 0.0
    ensures 0.0 <= p <= 100.0 ==> Rendered(r)
    ensures Marked(h) ==> Marked(r)
    ensures r.(fill := h.fill, itemActive := h.itemActive) == h
  {
    h.(fill := Fills(h.current, p), itemActive := ActiveFlags(h.current))
  }

  /** syncProgressUIBeforeStart: the indicators as they are before the slide starts. */
  function AfterSync(h: State): (r: State)
    requires Shaped(h)
    ensures Shaped(r) && Rendered(r) && r.fill[r.current] == 0.0
    ensures Marked(h) ==> Marked(r)
    ensures r.(fill := h.fill, itemActive := h.itemActive) == h
  {
    AfterRender(h, 0.0)
  }

  /**
   * requestAnimationFrame and setTimeout for a new slide. Arming is only
   * defined on empty slots: a second live callback of either kind is not a
   * state this model can express, so every caller has to prove that the
   * earlier one was cancelled first.
   */
  function AfterArm(h: State): State
    requires !h.advancePending && !h.rafPending
  {
    h.(rafPending := true, advancePending := true)
  }

  /** startSlideTimer: both timers cancelled, indicators reset, then both armed afresh. */
  function AfterStart(h: State): (r: State)
    requires Shaped(h) && !h.paused
    ensures Shaped(r) && Rendered(r) && Disciplined(r)
    ensures r.advancePending && r.rafPending && r.fill[r.current] == 0.0
    ensures Marked(h) ==> Inv(r)
    ensures r.(fill := h.fill, itemActive := h.itemActive,
               advancePending := h.advancePending, rafPending := h.rafPending) == h
  {
    AfterArm(AfterSync(AfterClear(h)))
  }

  /**
   * One delivery of the animation-frame callback, `elapsed` ms after the
   * slide started. If the loop was not pending nothing happens. It re-arms
   * only while running and before the duration is up, and it never changes
   * the slide: only the advance timeout does that.
   */
  function AfterFrame(h: State, elapsed: nat): (r: State)
    requires Inv(h)
    ensures Inv(r)
    ensures r.current == h.current && r.paused == h.paused
    ensures r.advancePending == h.advancePending && r.visPending == h.visPending
    ensures r.slideActive == h.slideActive && r.slideExiting == h.slideExiting
    ensures r.exitPending == h.exitPending
    ensures r.rafPending <==> h.rafPending && !h.paused && elapsed < SlideDuration
    ensures h.rafPending ==> r.fill == Fills(h.current, Progress(elapsed))
    ensures !h.rafPending ==> r == h
  {
    if !h.rafPending then h
    else
      var h1 := h.(rafPending := false);
      if h1.paused then h1
      else
        var h2 := AfterRender(h1, Progress(elapsed));
        if elapsed >= SlideDuration then h2 else h2.(rafPending := true)
  }

  // ---- Slide navigation ----

  /**
   * goToSlide(index): nothing at all changes when `index` is already shown.
   * Otherwise the outgoing slide is marked exiting (with its cleanup
   * scheduled), the incoming one becomes the only active slide, and the
   * timers restart from zero unless paused, in which case none is armed.
   */
  function AfterGoTo(h: State, index: int): (r: State)
    requires Inv(h) && 0 <= index < TotalSlides
    ensures Inv(r)
    ensures r.current == index
    ensures index == h.current ==> r == h
    ensures r.paused == h.paused && r.visPending == h.visPending && r.observing == h.observing
    ensures h.paused ==> !r.advancePending && !r.rafPending
    ensures index != h.current ==>
      && r.slideExiting == h.slideExiting[h.current := true]
      && r.exitPending == h.exitPending + [h.current]
      && r.fill[index] == 0.0
      && (!h.paused ==> r.advancePending && r.rafPending)
  {
    if index == h.current then h
    else
      var h1 := AfterClear(h);
      var h2 := h1.(slideExiting := h1.slideExiting[h.current := true],
                    slideActive := h1.slideActive[h.current := false][index := true],
                    exitPending := h1.exitPending + [h.current],
                    current := index);
      if !h2.paused then AfterStart(h2) else AfterSync(h2)
  }

  /** nextSlide: moves to the following slide, wrapping from the last to the first. */
  function AfterNext(h: State): (r: State)
    requires Inv(h)
    ensures Inv(r)
    ensures r.current == NextIndex(h.current) && r.current != h.current
    ensures h.current == TotalSlides - 1 ==> r.current == 0
    ensures r.paused == h.paused && r.visPending == h.visPending
  {
    AfterGoTo(h, NextIndex(h.current))
  }

  /** The advance timeout fires: the only way the slider moves on by itself. */
  function AfterAdvanceTimeout(h: State): (r: State)
    requires Inv(h)
    ensures Inv(r)
    ensures !h.advancePending ==> r == h
    ensures h.advancePending ==>
      && r.current == NextIndex(h.current) && r.advancePending && r.rafPending
      && r.fill[r.current] == 0.0
      && r.paused == h.paused && r.visPending == h.visPending
      && r.exitPending == h.exitPending + [h.current]
      && r.slideExiting == h.slideExiting[h.current := true]
  {
    if !h.advancePending then h else AfterNext(h)
  }

  /** The oldest pending 800 ms cleanup fires and unmarks its slide as exiting. */
  function AfterExitCleanup(h: State): (r: State)
    requires Inv(h)
    ensures Inv(r)
    ensures h.exitPending == [] ==> r == h
    ensures h.exitPending != [] ==>
      && !r.slideExiting[h.exitPending[0]]
      && r.exitPending == h.exitPending[1..]
      && (forall i :: 0 <= i < TotalSlides && i != h.exitPending[0] ==>
            r.slideExiting[i] == h.slideExiting[i])
    ensures r.(slideExiting := h.slideExiting, exitPending := h.exitPending) == h
  {
    if h.exitPending == [] then h
    else
      var i := h.exitPending[0];
      var r := h.(slideExiting := h.slideExiting[i := false], exitPending := h.exitPending[1..]);
      assert forall j :: 0 <= j < TotalSlides && r.slideExiting[j] ==> j in r.exitPending by {
        forall j | 0 <= j < TotalSlides && r.slideExiting[j] ensures j in r.exitPending {
          var k :| 0 <= k < |h.exitPending| && h.exitPending[k] == j;
          assert k != 0;
          assert r.exitPending[k - 1] == j;
        }
      }
      r
  }

  // ---- Pause & resume ----

  /**
   * pauseSlides: a no-op when already paused. Otherwise the slider is
   * paused, the visibility slot and both timers are cleared, and the
   * current indicator is reset to 0 so a later resume starts clean.
   */
  function AfterPause(h: State): (r: State)
    requires Inv(h)
    ensures Inv(r)
    ensures r.paused && !r.advancePending && !r.rafPending
    ensures h.paused ==> r == h
    ensures !h.paused ==> r.visPending == None && r.fill == Fills(h.current, 0.0)
    ensures r.current == h.current && r.slideActive == h.slideActive
    ensures r.slideExiting == h.slideExiting && r.exitPending == h.exitPending
  {
    if h.paused then h
    else AfterSync(AfterClear(h.(paused := true, visPending := None)))
  }

  /**
   * resumeSlides: a no-op when not paused. Otherwise the visibility slot is
   * cleared, the slider runs again, the slide markers are re-asserted and
   * the timers restart from zero.
   */
  function AfterResume(h: State): (r: State)
    requires Inv(h)
    ensures Inv(r)
    ensures !r.paused && r.advancePending
    ensures !h.paused ==> r == h
    ensures h.paused ==> r.rafPending && r.visPending == None && r.fill == Fills(h.current, 0.0)
    ensures r.current == h.current && r.slideActive == ActiveFlags(h.current)
    ensures r.slideExiting == h.slideExiting && r.exitPending == h.exitPending
  {
    if !h.paused then h
    else AfterStart(h.(visPending := None, paused := false, slideActive := ActiveFlags(h.current)))
  }

  // ---- Visibility observer with debounce ----

  /**
   * setTimeout for a visibility decision. Like `AfterArm`, it is only
   * defined on an empty slot, so a caller must have cancelled any earlier
   * debounce.
   */
  function AfterSchedule(h: State, action: PauseOrResume): State
    requires h.visPending == None
  {
    h.(visPending := Some(action))
  }

  /** One observer entry: the pending debounce is cancelled, then this entry's action is scheduled. */
  function AfterEntry(h: State, isIntersecting: bool): (r: State)
    ensures r.visPending == Some(ActionFor(isIntersecting))
    ensures r.(visPending := h.visPending) == h
  {
    AfterSchedule(h.(visPending := None), ActionFor(isIntersecting))
  }

  /** A batch of observer entries, in order: only the last one decides what is pending. */
  function AfterEntries(h: State, entries: seq<bool>): (r: State)
    ensures entries == [] ==> r == h
    ensures entries != [] ==> r.visPending == Some(ActionFor(entries[|entries| - 1]))
    ensures r.(visPending := h.visPending) == h
    ensures Inv(h) ==> Inv(r)
    decreases |entries|
  {
    if entries == [] then h
    else AfterEntry(AfterEntries(h, entries[..|entries| - 1]), entries[|entries| - 1])
  }

  /**
   * The pending visibility debounce fires: it pauses or resumes and then
   * leaves the slot empty.
   */
  function AfterVisibilityTimeout(h: State): (r: State)
    requires Inv(h)
    ensures Inv(r)
    ensures r.visPending == None
    ensures h.visPending == None ==> r == h
    ensures h.visPending == Some(Pause) ==> r.paused && !r.advancePending && !r.rafPending
    ensures h.visPending == Some(Resume) ==> !r.paused && r.advancePending && (h.paused ==> r.rafPending)
    ensures h.visPending != None && h.paused == (h.visPending == Some(Pause)) ==>
      r.fill == h.fill && r.advancePending == h.advancePending && r.rafPending == h.rafPending
    ensures h.visPending != None && h.paused != (h.visPending == Some(Pause)) ==>
      r.fill == Fills(h.current, 0.0)
    ensures r.current == h.current && r.slideActive == ActiveFlags(h.current)
    ensures r.slideExiting == h.slideExiting && r.exitPending == h.exitPending
  {
    match h.visPending
    case None => h
    case Some(action) =>
      if action == Pause then AfterPause(h).(visPending := None)
      else AfterResume(h).(visPending := None)
  }

  // ---- Initialisation ----

  /**
   * initSlider: slide 0 is marked active and the timers start; the markup is
   * taken to carry no marker classes and empty fills beforehand.
   */
  function Initial(observing: bool): (r: State)
    ensures Inv(r)
    ensures r.current == 0 && !r.paused && r.advancePending && r.rafPending
    ensures r.visPending == None && r.exitPending == [] && r.observing == observing
    ensures r.fill == Fills(0, 0.0) && r.slideActive == ActiveFlags(0)
    ensures forall i :: 0 <= i < TotalSlides ==> !r.slideExiting[i]
  {
    var none := seq(TotalSlides, i => false);
    var markup := State(0, false, false, false, None, seq(TotalSlides, i => 0.0), none,
                       none[0 := true], none, [], observing);
    assert markup.slideActive == ActiveFlags(0);
    AfterStart(markup)
  }

  // ---- Runs of events ----

  /** Everything that can happen to the slider from the outside. */
  datatype Event =
    | IndicatorClick(index: int)
    | AdvanceTimeout
    | AnimationFrame(elapsed: nat)
    | ObserverEntries(entries: seq<bool>)
    | VisibilityTimeout
    | ExitCleanup

  /** An indicator click names one of the three indicators. */
  predicate Deliverable(e: Event) {
    e.IndicatorClick? ==> 0 <= e.index < TotalSlides
  }

  /** The state after one event; entries arrive only when the observer exists. */
  function AfterEvent(h: State, e: Event): (r: State)
    requires Inv(h) && Deliverable(e)
    ensures Inv(r)
    ensures r.observing == h.observing
    ensures !e.IndicatorClick? && !e.AdvanceTimeout? ==> r.current == h.current
  {
    match e
    case IndicatorClick(index) => AfterGoTo(h, index)
    case AdvanceTimeout => AfterAdvanceTimeout(h)
    case AnimationFrame(elapsed) => AfterFrame(h, elapsed)
    case ObserverEntries(entries) => if h.observing then AfterEntries(h, entries) else h
    case VisibilityTimeout => AfterVisibilityTimeout(h)
    case ExitCleanup => AfterExitCleanup(h)
  }

  /**
   * Any run of events from a state that satisfies the invariant ends in one
   * that does: exactly one slide active, nothing pending while paused.
   */
  function AfterEvents(h: State, events: seq<Event>): (r: State)
    requires Inv(h)
    requires forall e :: e in events ==> Deliverable(e)
    ensures Inv(r)
    ensures r.slideActive == ActiveFlags(r.current)
    ensures r.paused ==> !r.advancePending && !r.rafPending
    ensures r.observing == h.observing
    decreases |events|
  {
    if events == [] then h
    else AfterEvents(AfterEvent(h, events[0]), events[1..])
  }

  /**
   * Frames, visibility events and exit cleanups never change the slide,
   * however many arrive: only a click or the advance timeout does.
   */
  lemma {:induction false} OnlyClickOrTimeoutMoves(h: State, events: seq<Event>)
    requires Inv(h)
    requires forall e :: e in events ==> Deliverable(e) && !e.IndicatorClick? && !e.AdvanceTimeout?
    ensures AfterEvents(h, events).current == h.current
    decreases |events|
  {
    if events != [] {
      OnlyClickOrTimeoutMoves(AfterEvent(h, events[0]), events[1..]);
    }
  }

  /**
   * Going back to a slide before its 800 ms cleanup has fired shows it
   * active while it still carries the "exiting" marker; the cleanup then
   * removes the marker from the slide that is on screen.
   */
  lemma QuickReturnOverlapsExiting()
    ensures var r := AfterGoTo(AfterGoTo(Initial(true), 1), 0);
      && r.slideActive[0] && r.slideExiting[0] && r.exitPending == [0, 1]
      && !AfterExitCleanup(r).slideExiting[0] && AfterExitCleanup(r).slideActive[0]
  {
  }

  /**
   * Pausing empties every slot, and resuming arms the two timers into those
   * empty slots: afterwards one fresh set of timers runs from zero and no
   * visibility decision is pending.
   */
  lemma PauseThenResume(h: State)
    requires Inv(h) && !h.paused
    ensures var p := AfterPause(h);
      && !p.advancePending && !p.rafPending && p.visPending == None
      && AfterResume(p) == AfterArm(AfterSync(p.(paused := false)))
    ensures var r := AfterResume(AfterPause(h));
      && !r.paused && r.advancePending && r.rafPending && r.visPending == None
      && r.current == h.current && r.fill == Fills(h.current, 0.0)
  {
  }

  /**
   * Entries that flicker out of and back into view before the debounce
   * fires change nothing: the pause scheduled by the middle entry is
   * cancelled by the last one, which alone is left to fire.
   */
  lemma FlickerIsSuperseded(h: State)
    requires Inv(h) && !h.paused
    ensures AfterEntries(h, [true, false]).visPending == Some(Pause)
    ensures AfterEntries(h, [true, false, true])
      == AfterSchedule(AfterEntries(h, [true, false]).(visPending := None), Resume)
    ensures AfterVisibilityTimeout(AfterEntries(h, [true, false, true])) == h.(visPending := None)
  {
  }

  /**
   * A delivered animation frame never finds the slider paused, so the
   * paused branch of the frame callback cannot be taken.
   */
  lemma FrameNeverSeesPause(h: State)
    requires Inv(h) && h.rafPending
    ensures !h.paused
  {
  }

  /** Left alone for one slide duration, the slider moves from slide 0 to slide 1. */
  lemma AutoAdvanceScenario()
    ensures var r := AfterAdvanceTimeout(Initial(true));
      r.current == 1 && r.fill == [100.0, 0.0, 0.0] && r.slideActive == [false, true, false]
  {
  }

  /** Clicking indicator 2 on slide 0 shows slide 2 at once; the exiting marker goes on cleanup. */
  lemma ClickScenario()
    ensures var r := AfterGoTo(Initial(true), 2);
      && r.current == 2 && r.fill == [100.0, 100.0, 0.0]
      && r.slideExiting[0] && r.advancePending && r.rafPending
      && !AfterExitCleanup(r).slideExiting[0]
  {
  }

  // ---- The controller object ----

  /**
   * The slider as the script holds it: module-level variables become fields,
   * the per-slide and per-indicator classes and fill widths become arrays
   * that the methods rewrite element by element.
   */
  class Slider {
    var current: int
    var paused: bool
    var advancePending: bool
    var rafPending: bool
    var visPending: Option<PauseOrResume>
    var exitPending: seq<int>
    const observing: bool
    const fill: array<real>
    const itemActive: array<bool>
    const slideActive: array<bool>
    const slideExiting: array<bool>

    /** The state these fields and arrays stand for. */
    ghost function Abs(): State
      reads this, fill, itemActive, slideActive, slideExiting
    {
      State(current, paused, advancePending, rafPending, visPending,
           fill[..], itemActive[..], slideActive[..], slideExiting[..],
           exitPending, observing)
    }

    /** The three class arrays are distinct objects. */
    ghost predicate Separate()
      reads this
    {
      itemActive != slideActive && itemActive != slideExiting && slideActive != slideExiting
    }

    /** Well-formed between the steps of an entry point. */
    ghost predicate Wellformed()
      reads this, fill, itemActive, slideActive, slideExiting
    {
      Separate() && Shaped(Abs())
    }

    /** Consistent between entry points. */
    ghost predicate Valid()
      reads this, fill, itemActive, slideActive, slideExiting
    {
      Separate() && Inv(Abs())
    }

    /** initSlider, with `observing` telling whether the hero and nav elements exist. */
    constructor (observing: bool)
      ensures Valid() && Abs() == Initial(observing)
      ensures fresh(fill) && fresh(itemActive) && fresh(slideActive) && fresh(slideExiting)
    {
      current, paused := 0, false;
      advancePending, rafPending := false, false;
      visPending, exitPending := None, [];
      this.observing := observing;
      fill := new real[TotalSlides](_ => 0.0);
      itemActive := new bool[TotalSlides](_ => false);
      slideActive := new bool[TotalSlides](_ => false);
      slideExiting := new bool[TotalSlides](_ => false);
      new;
      slideActive[0] := true;
      StartSlideTimer();
    }

    method ClearTimersAndRaf()
      requires Wellformed()
      modifies this
      ensures Wellformed() && Abs() == AfterClear(old(Abs()))
    {
      advancePending := false;
      rafPending := false;
    }

    method UpdateProgressBar(progress: real)
      requires Wellformed()
      modifies fill, itemActive
      ensures Wellformed() && Abs() == AfterRender(old(Abs()), progress)
    {
      for i := 0 to TotalSlides
        invariant forall k :: 0 <= k < i ==>
          fill[k] == Fills(current, progress)[k] && itemActive[k] == (k == current)
        invariant forall k :: i <= k < TotalSlides ==>
          fill[k] == old(fill[k]) && itemActive[k] == old(itemActive[k])
      {
        if i == current {
          fill[i] := progress;
          itemActive[i] := true;
        } else if i < current {
          fill[i] := 100.0;
          itemActive[i] := false;
        } else {
          fill[i] := 0.0;
          itemActive[i] := false;
        }
      }
      assert fill[..] == Fills(current, progress);
      assert itemActive[..] == ActiveFlags(current);
    }

    method SyncProgressUIBeforeStart()
      requires Wellformed()
      modifies fill, itemActive
      ensures Wellformed() && Abs() == AfterSync(old(Abs()))
    {
      UpdateProgressBar(0.0);
    }

    method StartSlideTimer()
      requires Wellformed() && !paused
      modifies this, fill, itemActive
      ensures Wellformed() && Abs() == AfterStart(old(Abs()))
    {
      ClearTimersAndRaf();
      SyncProgressUIBeforeStart();
      ArmTimers();
    }

    /** requestAnimationFrame and setTimeout, into slots that must be empty. */
    method ArmTimers()
      requires Wellformed() && !advancePending && !rafPending
      modifies this
      ensures Wellformed() && Abs() == AfterArm(old(Abs()))
    {
      rafPending := true;
      advancePending := true;
    }

    /** The animation-frame callback, delivered `elapsed` ms after the slide started. */
    method Frame(elapsed: nat)
      requires Valid()
      modifies this, fill, itemActive
      ensures Valid() && Abs() == AfterFrame(old(Abs()), elapsed)
    {
      if !rafPending {
        return;
      }
      rafPending := false;
      if paused {
        return;
      }
      var progress := Progress(elapsed);
      UpdateProgressBar(progress);
      if elapsed >= SlideDuration {
        return;
      }
      rafPending := true;
    }

    method GoToSlide(index: int)
      requires Valid() && 0 <= index < TotalSlides
      modifies this, fill, itemActive, slideActive, slideExiting
      ensures Valid() && Abs() == AfterGoTo(old(Abs()), index)
    {
      if index == current {
        return;
      }
      ClearTimersAndRaf();
      var outgoing := current;
      slideExiting[outgoing] := true;
      slideActive[outgoing] := false;
      slideActive[index] := true;
      exitPending := exitPending + [outgoing];
      current := index;
      if !paused {
        StartSlideTimer();
      } else {
        SyncProgressUIBeforeStart();
      }
    }

    method NextSlide()
      requires Valid()
      modifies this, fill, itemActive, slideActive, slideExiting
      ensures Valid() && Abs() == AfterNext(old(Abs()))
    {
      var nextIndex := NextIndex(current);
      GoToSlide(nextIndex);
    }

    /** The advance timeout fires. */
    method FireAdvanceTimeout()
      requires Valid()
      modifies this, fill, itemActive, slideActive, slideExiting
      ensures Valid() && Abs() == AfterAdvanceTimeout(old(Abs()))
    {
      if advancePending {
        NextSlide();
      }
    }

    /** The oldest pending exit-marker cleanup fires. */
    method FireExitCleanup()
      requires Valid()
      modifies this, slideExiting
      ensures Valid() && Abs() == AfterExitCleanup(old(Abs()))
    {
      if exitPending == [] {
        return;
      }
      var i := exitPending[0];
      slideExiting[i] := false;
      exitPending := exitPending[1..];
    }

    method PauseSlides()
      requires Valid()
      modifies this, fill, itemActive
      ensures Valid() && Abs() == AfterPause(old(Abs()))
    {
      if paused {
        return;
      }
      paused := true;
      visPending := None;
      ClearTimersAndRaf();
      SyncProgressUIBeforeStart();
    }

    method ResumeSlides()
      requires Valid()
      modifies this, fill, itemActive, slideActive
      ensures Valid() && Abs() == AfterResume(old(Abs()))
    {
      if !paused {
        return;
      }
      visPending := None;
      paused := false;
      MarkCurrentSlide();
      StartSlideTimer();
    }

    /** The marker loop of resumeSlides: "active" set on the current slide, cleared on the others. */
    method MarkCurrentSlide()
      requires Wellformed()
      modifies slideActive
      ensures Wellformed() && Abs() == old(Abs()).(slideActive := ActiveFlags(current))
    {
      for i := 0 to TotalSlides
        invariant forall k :: 0 <= k < i ==> slideActive[k] == (k == current)
        invariant forall k :: i <= k < TotalSlides ==> slideActive[k] == old(slideActive[k])
      {
        slideActive[i] := i == current;
      }
      assert slideActive[..] == ActiveFlags(current);
    }

    /** The observer callback, given the `isIntersecting` flag of each entry in order. */
    method ObserveEntries(entries: seq<bool>)
      requires Valid()
      modifies this
      ensures Valid()
      ensures Abs() == if observing then AfterEntries(old(Abs()), entries) else old(Abs())
    {
      if !observing {
        return;
      }
      for i := 0 to |entries|
        invariant Valid() && Abs() == AfterEntries(old(Abs()), entries[..i])
      {
        assert entries[..i + 1][..i] == entries[..i];
        visPending := None;
        ScheduleVisibility(ActionFor(entries[i]));
      }
      assert entries[..|entries|] == entries;
    }

    /** setTimeout for a visibility decision, into a slot that must be empty. */
    method ScheduleVisibility(action: PauseOrResume)
      requires Valid() && visPending == None
      modifies this
      ensures Valid() && Abs() == AfterSchedule(old(Abs()), action)
    {
      visPending := Some(action);
    }

    /** The pending visibility debounce fires. */
    method FireVisibilityTimer()
      requires Valid()
      modifies this, fill, itemActive, slideActive
      ensures Valid() && Abs() == AfterVisibilityTimeout(old(Abs()))
    {
      match visPending
      case None =>
      case Some(action) =>
        if action == Pause {
          PauseSlides();
        } else {
          ResumeSlides();
        }
        visPending := None;
    }
  }
}
