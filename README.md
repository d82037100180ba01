# Hero slider and navigation menu, modelled in Dafny

This project models the client-side behaviour of a marketing site's front
page. It covers two parts.

- **The hero slider** (`js/hero.js`). Three slides are shown in turn, five
  seconds each. Three progress indicators fill up as a slide runs. The slider
  pauses when the hero region scrolls out of view and resumes when it comes
  back; both decisions are debounced.
- **The navigation menu** (`js/navbar.js`). Desktop dropdown items open one at
  a time. A hamburger toggle opens the mobile menu. Two classes on the navbar
  follow the menus and the scroll position.

Files:

- `wrappers.dfy`: module `Wrappers`, the `Option` type used for single-slot
  handles.
- `hero.dfy`: module `Hero`. The first half is a value-level model. The
  datatype `State` holds the slider's whole state, and one `After...` function
  per entry point gives the state that entry point produces. The predicate
  `Inv` is the invariant they all keep:
  - exactly the current slide is marked active;
  - every "exiting" slide has its cleanup pending;
  - the indicators are drawn in full from the current slide and one progress
    value in [0, 100];
  - the advance timeout is pending exactly while the slider is not paused;
  - the frame loop is pending only beside the advance timeout.

  The class `Hero.Slider` holds the same state in fields and arrays. Its
  methods rewrite those arrays in loops, as the script's `forEach` calls do.
  Each method is proved to leave `Abs()` equal to the matching `After...`
  function of the old state.
- `navbar.dfy`: module `Navbar`, class `Navbar.Menu`. It has one method per
  handler. Each handler that recomputes the navbar's classes takes the hero's
  bounding-box bottom as an integer, and the resize debounce callback also
  takes the viewport width. The resize event itself (`Resize()`) only
  re-arms the debounce and takes no parameters. `Valid()` holds the
  accordion rule (at most one item open) and keeps the toggle's and the
  links' `is-active` flags equal.

Timing is modelled as events. A scheduled callback is a flag or queue entry
saying that it is pending. The environment delivers it by calling a `Fire...`
method, or `Frame(elapsed)` for an animation frame. `elapsed` is a whole
number of milliseconds. The slide duration (5000 ms, `SlideDuration`) matters:
it is the divisor in `Progress` and the point where the frame loop stops
re-arming. The other delays (800 ms for the exit cleanup, 40 ms and 120 ms
for the visibility debounce, 120 ms for the resize debounce) are not
modelled as numbers. The exit cleanups all share the 800 ms delay, so they
fire first in, first out: `FireExitCleanup` always takes the oldest one.
Every other pending callback may fire at any moment, in any order relative
to the rest. Each invariant is therefore proved for every such
interleaving, including the ones the browser's real delays allow.

Each of the advance timeout, the frame loop, the visibility debounce and the
resize debounce is a single slot: the script keeps one handle and cancels
the callback in it before scheduling the next one (`js/hero.js:53-62`,
`js/hero.js:243`, `js/navbar.js:196`). In the model, arming is only defined
on an empty slot (`AfterArm`, `AfterSchedule`, `Slider.ArmTimers`,
`Slider.ScheduleVisibility`, `Menu.ArmResizeTimer`). So every arm site has
to prove that the earlier callback was cancelled, and a second live
callback of one kind cannot arise. There is one direct arm site: the frame
loop's own re-arm (`js/hero.js:86`, in `AfterFrame` and `Slider.Frame`).
It sets the frame slot right after that same callback was consumed and its
slot emptied, and `AfterFrame`'s contract states exactly when it re-arms.

Notes on the code as written:

- The paused check at the top of the frame callback (`js/hero.js:75`) can
  never fire. Pausing cancels the animation frame, and `goToSlide` while
  paused never requests one. The model keeps the branch, and
  `FrameNeverSeesPause` shows from `Inv` that it is dead.
- The "exiting" cleanup timers are never cancelled. After going back to a
  slide within 800 ms, that slide is both active and exiting until the older
  cleanup fires (`QuickReturnOverlapsExiting`). So an active slide can carry
  the exiting marker; the model keeps this behaviour.
- An advance timeout that has fired is not cleared on its own. `goToSlide`
  clears it when it calls `clearTimersAndRaf`, and it always does so, because
  the next index always differs from the current one. `AfterAdvanceTimeout`
  therefore goes straight to `AfterNext`.

## Model

| member | source | states |
|---|---|---|
| `Hero.Progress` | js/hero.js:75-78 | progress is at most 100; it is at least 0 for elapsed >= 0; it is 0 at elapsed 0; it is exactly 100 iff elapsed >= 5000; below 5000 it is linear, elapsed*100/5000 |
| `Hero.NextIndex` | js/hero.js:169-172 | the next index is in [0, 3) and differs from the current one; it is 0 exactly when the current one is the last slide, and otherwise one more |
| `Hero.AfterRender` | js/hero.js:96-114 | indicator i is active iff i is the current slide; fills before it are 100, fills after it are 0, and its own fill is p; nothing else changes; for p in [0, 100] the indicator part of the invariant holds |
| `Hero.AfterSync` | js/hero.js:116-132 | indicators are drawn with the current slide at 0, earlier ones at 100 and later ones at 0; nothing else changes |
| `Hero.AfterStart` | js/hero.js:64-94 | both timers are pending, the current indicator is at 0 and the timer discipline holds; only the timers and indicators change; the slide markers being right implies the whole invariant; the timers are armed only after both slots were emptied |
| `Hero.AfterFrame` | js/hero.js:75-87 | keeps the invariant; never changes the slide, the pause flag, the advance timeout or the slide markers; the loop re-arms iff it was pending, not paused and elapsed < 5000; fills become those for Progress(elapsed); with no frame pending nothing changes |
| `Hero.AfterGoTo` | js/hero.js:136-167 | keeps the invariant and makes index current; going to the current slide changes nothing; otherwise only the outgoing slide gains the exiting marker (every other marker is kept) and its cleanup is queued, the new indicator is at 0, both timers are armed unless paused, and while paused none is; the pause flag and visibility slot are kept |
| `Hero.AfterNext` | js/hero.js:169-172 | keeps the invariant; moves to NextIndex(current), which always differs, so slide 2 wraps to 0; pause flag and visibility slot unchanged |
| `Hero.AfterAdvanceTimeout` | js/hero.js:90-93 | with no timeout pending nothing changes; otherwise the slider moves to the next slide with both timers freshly armed and the new indicator at 0; only the old slide gains the exiting marker and its cleanup is queued; the pause flag and visibility slot are kept |
| `Hero.AfterExitCleanup` | js/hero.js:152-155 | keeps the invariant; the oldest queued cleanup unmarks its slide and leaves the queue; no other slide's marker and nothing else changes; with nothing queued nothing changes |
| `Hero.AfterPause` | js/hero.js:176-205 | keeps the invariant; ends paused with neither timer pending; a no-op when already paused; otherwise the visibility slot is emptied and fills are 100 before the current slide and 0 from it on; slide and markers unchanged |
| `Hero.AfterResume` | js/hero.js:207-223 | keeps the invariant; ends running with the advance timeout pending; a no-op when not paused; otherwise the frame loop is armed too, the visibility slot is empty, the current indicator restarts at 0 and exactly the current slide is active |
| `Hero.AfterEntry` | js/hero.js:240-259 | the pending debounce is cancelled and this entry's action scheduled into the emptied slot: pause when not intersecting, resume when intersecting; nothing else changes |
| `Hero.AfterEntries` | js/hero.js:239-261 | after a non-empty batch of entries the one pending action is the one the last entry chose, each earlier one having been cancelled before the next was scheduled; an empty batch changes nothing; nothing but the visibility slot ever changes, so the invariant is kept |
| `Hero.AfterVisibilityTimeout` | js/hero.js:249-258 | keeps the invariant and empties the slot; a pending pause ends paused with no timers; a pending resume ends running with the advance timeout pending, and the frame loop too if it was paused; an action that matches the current state leaves fills and timers alone, one that changes it resets the fills; with nothing pending nothing changes; the slide and its markers never change |
| `Hero.Initial` | js/hero.js:23-49 | after initialisation the invariant holds: slide 0 is the only active slide, it is running with both timers armed, nothing is exiting, all fills are 0 and the visibility slot is empty |
| `Hero.AfterEvent` | js/hero.js:31-35 | any click on one of the three indicators, or any delivered callback or observer entry, keeps the invariant; frames, visibility events and cleanups never change the slide |
| `Hero.AfterEvents` | js/hero.js:53-66 | any run of events from an invariant state ends in one: exactly one slide active, and neither timer pending while paused |
| `Hero.OnlyClickOrTimeoutMoves` | js/hero.js:82-93 | over any run of frames, observer entries, visibility timeouts and cleanups the current slide stays the same; only the advance timeout calls nextSlide |
| `Hero.QuickReturnOverlapsExiting` | js/hero.js:146-155 | going from slide 0 to 1 and back to 0 leaves slide 0 both active and exiting with two cleanups queued; the first cleanup clears the marker from the slide on screen |
| `Hero.PauseThenResume` | js/hero.js:176-223 | pausing a running slider empties both timer slots and the visibility slot, and resuming then arms the timers into those empty slots; it ends running with the advance timeout and the frame loop pending, the visibility slot empty, the same slide, and its fill at 0 |
| `Hero.FlickerIsSuperseded` | js/hero.js:239-260 | on a running slider, entries in and out leave a pause pending; the last entry cancels it before scheduling its resume; the debounce firing then leaves everything as before except an empty visibility slot |
| `Hero.FrameNeverSeesPause` | js/hero.js:74-75 | under the invariant, a pending frame callback never finds the slider paused, so the paused branch is dead |
| `Hero.AutoAdvanceScenario` | js/hero.js:90-93 | from page load, the first advance timeout shows slide 1 with fills 100, 0, 0 |
| `Hero.ClickScenario` | js/hero.js:136-167 | from page load, clicking indicator 2 shows slide 2 at once with fills 100, 100, 0 and both timers re-armed; slide 0 is exiting until its cleanup fires |
| `Hero.Slider.constructor` | js/hero.js:23-49 | the new slider's state is `Initial(observing)`, it satisfies the invariant, and its arrays are fresh |
| `Hero.Slider.ClearTimersAndRaf` | js/hero.js:53-62 | neither the advance timeout nor the frame loop is pending afterwards; nothing else changes |
| `Hero.Slider.UpdateProgressBar` | js/hero.js:96-114 | the loop over the indicators leaves the state `AfterRender(old, progress)` |
| `Hero.Slider.SyncProgressUIBeforeStart` | js/hero.js:116-132 | leaves the state `AfterSync(old)` |
| `Hero.Slider.StartSlideTimer` | js/hero.js:64-94 | leaves the state `AfterStart(old)`: both timers cancelled, indicators reset, then both armed through `ArmTimers`, which needs the emptied slots |
| `Hero.Slider.ArmTimers` | js/hero.js:88-93 | requires both timer slots empty; leaves the state `AfterArm(old)`, with both timers pending |
| `Hero.Slider.Frame` | js/hero.js:75-87 | keeps `Valid()` and leaves the state `AfterFrame(old, elapsed)` |
| `Hero.Slider.GoToSlide` | js/hero.js:136-167 | keeps `Valid()` and leaves the state `AfterGoTo(old, index)` |
| `Hero.Slider.NextSlide` | js/hero.js:169-172 | keeps `Valid()` and leaves the state `AfterNext(old)` |
| `Hero.Slider.FireAdvanceTimeout` | js/hero.js:90-93 | keeps `Valid()` and leaves the state `AfterAdvanceTimeout(old)` |
| `Hero.Slider.FireExitCleanup` | js/hero.js:152-155 | keeps `Valid()` and leaves the state `AfterExitCleanup(old)` |
| `Hero.Slider.PauseSlides` | js/hero.js:176-205 | keeps `Valid()` and leaves the state `AfterPause(old)` |
| `Hero.Slider.ResumeSlides` | js/hero.js:207-223 | keeps `Valid()` and leaves the state `AfterResume(old)` |
| `Hero.Slider.MarkCurrentSlide` | js/hero.js:218-219 | the loop over the slides marks exactly the current one active; nothing else changes |
| `Hero.Slider.ObserveEntries` | js/hero.js:239-261 | keeps `Valid()`; with an observer, the state becomes `AfterEntries(old, entries)`, each entry emptying the slot before `ScheduleVisibility`; without one, nothing changes |
| `Hero.Slider.ScheduleVisibility` | js/hero.js:249-258 | requires the visibility slot empty; leaves the state `AfterSchedule(old, action)`, with that action pending |
| `Hero.Slider.FireVisibilityTimer` | js/hero.js:249-258 | keeps `Valid()` and leaves the state `AfterVisibilityTimeout(old)` |
| `Navbar.Menu.constructor` | js/navbar.js:72-87 | after DOMContentLoaded no item is open, the mobile menu is closed, `site-nav--menu-open` is off, and `site-nav--scrolled` is set iff the navbar and hero exist and the hero's bottom is < 0 |
| `Navbar.Menu.UpdateNavbarBackground` | js/navbar.js:35-50 | with a navbar present, `site-nav--menu-open` is set iff (some item is open, or the mobile links are active) and the hero's bottom is >= 0; without one, nothing changes |
| `Navbar.Menu.CloseAllMenus` | js/navbar.js:20-26 | `is-open` is cleared on every item; the mobile flags are untouched; the background class is recomputed |
| `Navbar.Menu.CloseMobileMenu` | js/navbar.js:28-33 | both `is-active` flags are off; when links and toggle exist the background is recomputed, otherwise nothing changes |
| `Navbar.Menu.HandleScrollState` | js/navbar.js:55-67 | with navbar and hero present, `site-nav--scrolled` is set iff the hero's bottom is < 0, and the background is recomputed; otherwise the scrolled class is unchanged |
| `Navbar.Menu.DropdownToggleClick` | js/navbar.js:113-130 | afterwards item j is open iff j is the clicked item and it was closed before: a closed item becomes the only open one, an open one leaves none open; outside any item nothing changes; the accordion rule is kept |
| `Navbar.Menu.NavLinkClick` | js/navbar.js:140-156 | every item is closed and the background is recomputed |
| `Navbar.Menu.OutsideItemClick` | js/navbar.js:159-165 | a click outside every nav item closes all items; one inside changes nothing |
| `Navbar.Menu.MobileToggleClick` | js/navbar.js:78-86 | when links and toggle exist both `is-active` flags flip together, so they stay equal, and the background is recomputed; otherwise nothing changes |
| `Navbar.Menu.OutsideNavClick` | js/navbar.js:173-182 | afterwards the mobile links are active iff they were and the click was inside the nav; the background is recomputed only when the menu was closed |
| `Navbar.Menu.KeyDown` | js/navbar.js:185-189 | Escape closes the mobile menu, and when the links or the toggle are missing `site-nav--menu-open` is left as it was; any other key changes nothing |
| `Navbar.Menu.Resize` | js/navbar.js:194-197 | the pending debounce is cancelled and a new one armed through `ArmResizeTimer`, which needs the emptied slot; afterwards one debounce is pending and nothing else changes |
| `Navbar.Menu.ArmResizeTimer` | js/navbar.js:197 | requires the resize slot empty; afterwards the debounce is pending |
| `Navbar.Menu.FireResizeTimer` | js/navbar.js:197-204 | the slot is emptied; when a resize was pending, the mobile menu stays open only if the width is <= 1100, the scroll state is recomputed (`site-nav--scrolled` follows the hero's bottom when navbar and hero exist, and is kept otherwise) and the background is up to date; otherwise nothing changes |
| `Navbar.Menu.Scroll` | js/navbar.js:211-216 | every item and the mobile menu are closed, so `site-nav--menu-open` is off; the scrolled class follows the hero's bottom when navbar and hero exist |
| `Navbar.Menu.Load` | js/navbar.js:90-93 | only the scroll state and background are recomputed; the menus stay as they are |

## Left out

- updateWrapperHeight (`js/hero.js:10-21`) and its resize listener: layout
  measurement (`offsetHeight`, `innerWidth`) is not modelled, so no slide
  height is kept.
- The inline `animation` and `transition` style writes on the fills and the
  CSS string formatting of widths. These are presentation only; a fill width
  is a number of percent.
- The clock. `performance.now`, `requestAnimationFrame` and `setTimeout` are
  not modelled. `startTime` is not stored: the environment passes the elapsed
  time to `Frame`.
- Floating point. Progress is computed on exact reals, so the rounding of
  `(elapsed / 5000) * 100` is not modelled.
- Hero.AfterFrame: `elapsed` is a `nat`, so a frame timestamp earlier than
  the slide's start time, which would give a negative width, is not modelled.
- Hero.Slider.Frame: `elapsed` is a `nat` here too, for the same reason.
- IntersectionObserver geometry and the nav-height `rootMargin`. Each entry
  arrives as its `isIntersecting` flag. A page without the hero or nav element
  has no observer (`observing` is false), and no entries ever reach it.
- DOM lookup. There are exactly three slides and three indicators. `goToSlide`
  is only called with 0, 1 or 2, so its missing-element guards
  (`js/hero.js:146`, `js/hero.js:150`) always pass. The markup is also taken
  to have the `.site-hero-slides-wrapper` element and a fill inside every
  indicator. Without the wrapper, `updateWrapperHeight` throws
  (`js/hero.js:17`, `js/hero.js:19`), and `goToSlide` stops right after
  clearing the timers (`js/hero.js:140`, `js/hero.js:158`), with none
  re-armed; that failure path is not modelled. The markup is taken to carry
  no marker classes, open items or active mobile flags before the scripts
  run.
- Exit cleanups fire oldest first, because all use the same 800 ms delay.
  `FireExitCleanup` therefore takes no argument.
- Event plumbing. `stopPropagation` and `preventDefault` are not modelled,
  nor is the dropdown arrow HTML insertion. A click on a dropdown toggle or on
  the mobile toggle never reaches the document listeners. A click on a nav
  link reaches them after `NavLinkClick`. One document click runs
  `OutsideNavClick` and then `OutsideItemClick`, in the order they were
  registered. The environment makes these calls; the model does not.
