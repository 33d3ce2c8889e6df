# Step slideshow and participant carousel, modelled in Dafny

This project models the two paging widgets of the site's `utils/` scripts and
proves properties of the model.

- **Step slideshow** (`utils/slideShowSteps.js`). On a narrow viewport the
  grid of steps is shown one slide at a time. `calculateSlides` groups the
  steps into slides in one greedy pass over their measured heights. A step
  taller than half the grid's inner height gets a slide of its own. The other
  steps fill a slide until the next one would overflow the height. A
  controller keeps the current slide index, the indicator buttons, the
  disabled state of the two navigation buttons and the per-step styles. It
  enters and leaves the paging mode as the viewport crosses the 680-pixel
  breakpoint.
- **Participant carousel** (`utils/carousel.js`). A fixed list of cards is
  shown one window of `visibleItems` cards at a time. `calculateVisibleParticipants`
  counts the cards that fit, and a card that is 95% visible counts as fitting.
  The buttons move the window by a whole window, and manual next stops at the
  end. The auto-advance tick starts over at the first card. A resize recounts
  the cards and pulls back a window that no longer fits.

Files:

- `math_util.dfy`: module `MathUtil`, the `Math.min` and `Math.max` helpers.
- `slide_show_steps.dfy`: module `SlideShowSteps`.
  - `Slides` specifies the grouping as a left fold (`GroupPrefix` over `Place`).
  - The method `CalculateSlides` is the loop, proved equal to `Slides`.
  - Lemmas state coverage, order, singletons, budget and non-emptiness. Each
    is a predicate of the pass's state, proved preserved by one iteration
    (`Place*` lemmas) and then of every prefix of the pass (`Prefix*` lemmas).
  - The class `SlideShow` holds the closure state and the page state it writes.
- `carousel.dfy`: module `ParticipantCarousel`.
  - `CalculateVisibleParticipants` is in exact arithmetic.
  - The index transitions are pure functions with closed-form contracts.
  - Lemmas cover repeated clicks and ticks.
  - The class `Carousel` has one method per event handler.

How the model treats the page:

- Steps and cards are identified by position. A slide is a `seq<nat>` of step
  indices.
- Heights, widths and the viewport test are integer or boolean inputs.
- A step's inline style is one of `Unstyled`, `Shown` and `Hidden`.
- An indicator button is a boolean that says whether it has the active class.
- The attached navigation listeners are the `eventListenersAdded` flag.
- `cachedSlides[currentSlideIndex]` can be `undefined`, and then
  `showCurrentSlide` throws a `TypeError`. The model returns `ok == false`
  in that case. The state is then what the script leaves behind: every step
  is already hidden, and the rest of the handler does not run.

Behaviour of the code worth noting:

- The slides read in order give back the steps in grid order only when every
  height is positive. The flush before an oversized step tests
  `totalHeight > 0`, not whether the slide under construction is empty. So
  zero-height steps collected before an oversized step come after it
  (`ZeroHeightStepFollowsOversized`). Every step is still in exactly one slide
  for all inputs (`SlidesCoverSteps`).
- A resize while the slideshow is active regroups the steps but does not
  clamp the index. When the index names no slide any more, showing throws,
  every step stays hidden, no indicator is active and the navigation buttons
  keep their old states (`ResizeKeepsStaleIndex`).
- The carousel index can be negative. With more room than cards, the clamp
  `Math.min(currentIndex, participantsLength - visibleItems)` gives a
  negative index (`MoreRoomThanParticipants`).
- A non-positive grid height is not rejected. The model accepts any integer
  height and states each property under the assumptions it needs.

## Model

| member | source | states |
|---|---|---|
| `SlideShowSteps.CalculateSlides` | utils/slideShowSteps.js:34-68 | The loop computes `Slides`. Every step is in exactly one slide. With positive heights the slides read in grid order. An oversized step is a slide of its own. With a non-negative budget every slide is an oversized singleton or fits the budget. With non-negative heights no slide is empty. |
| `SlideShowSteps.PlaceTracksCurrent` | utils/slideShowSteps.js:44-61 | One iteration, from any state where `totalHeight` is the summed height of `currentSlide` and every placed step was visited, keeps that so, with the visited step now counted. |
| `SlideShowSteps.PrefixTracksCurrent` | utils/slideShowSteps.js:53-60 | During the pass, `totalHeight` is the summed height of `currentSlide`. That slide holds only visited steps, none of them oversized. |
| `SlideShowSteps.PlaceAddsStep` | utils/slideShowSteps.js:44-61 | Each iteration adds exactly the visited step to the steps placed so far, in every branch. |
| `SlideShowSteps.PlaceCovers` | utils/slideShowSteps.js:44-61 | If steps `0..i-1` are each placed once, one iteration for step `i` places `0..i` each once. |
| `SlideShowSteps.PrefixCoverage` | utils/slideShowSteps.js:44-61 | After `n` steps, the finished slides plus `currentSlide` hold steps `0..n-1` exactly once each, for any heights. |
| `SlideShowSteps.PlaceInOrder` | utils/slideShowSteps.js:44-61 | For a step of positive height, one iteration keeps the placed steps in grid order and keeps `totalHeight > 0` exactly when `currentSlide` is non-empty. |
| `SlideShowSteps.PrefixInOrder` | utils/slideShowSteps.js:44-61 | With positive heights, `totalHeight > 0` exactly when `currentSlide` is non-empty. The finished slides and `currentSlide` read `0..n-1` in order. |
| `SlideShowSteps.PlaceKeepsOversized` | utils/slideShowSteps.js:46-52 | One iteration keeps every earlier oversized step as a finished singleton and adds the visited step as one when it is oversized. |
| `SlideShowSteps.PrefixKeepsOversized` | utils/slideShowSteps.js:46-52 | Every visited oversized step is a finished singleton slide. |
| `SlideShowSteps.PlaceWithinBudget` | utils/slideShowSteps.js:46-60 | With a non-negative budget, one iteration keeps `totalHeight` within it and finishes only oversized singletons or slides that fit it. |
| `SlideShowSteps.PrefixWithinBudget` | utils/slideShowSteps.js:46-60 | With a non-negative budget, `totalHeight` stays within it. Every finished slide is an oversized singleton or fits the budget. |
| `SlideShowSteps.PlaceNonEmpty` | utils/slideShowSteps.js:47-55 | With non-negative heights, one iteration never finishes an empty slide. |
| `SlideShowSteps.PrefixNonEmpty` | utils/slideShowSteps.js:47-55 | With non-negative heights, no flush pushes an empty slide. |
| `SlideShowSteps.SlidesCoverSteps` | utils/slideShowSteps.js:44-67 | The multiset of all slides' steps is the multiset of all step indices, for any heights and budget. |
| `SlideShowSteps.SlidesInGridOrder` | utils/slideShowSteps.js:44-67 | With positive heights, concatenating the slides gives `0, 1, ..., n-1`. |
| `SlideShowSteps.OversizedStepAlone` | utils/slideShowSteps.js:46-52 | A step taller than half the budget appears as the slide `[i]`. |
| `SlideShowSteps.SlidesWithinBudget` | utils/slideShowSteps.js:53-65 | With a non-negative budget, every slide is an oversized singleton or a group of smaller steps whose summed height is within the budget. |
| `SlideShowSteps.SlidesNonEmpty` | utils/slideShowSteps.js:47-65 | With non-negative heights, no slide is empty. |
| `SlideShowSteps.SlidesInRange` | utils/slideShowSteps.js:44-67 | Slides name only existing steps. There is at least one slide exactly when there is a step. |
| `SlideShowSteps.ZeroHeightStepFollowsOversized` | utils/slideShowSteps.js:46-52 | For heights `[0, 10]` and budget 10 the slides are `[[1], [0]]`. The zero-height step comes after the oversized one, so grid order is lost. |
| `SlideShowSteps.ThreeStepsExample` | utils/slideShowSteps.js:53-60 | Three 40-pixel steps in 100 pixels give `[[0, 1], [2]]`. |
| `SlideShowSteps.SlideShow.constructor` | utils/slideShowSteps.js:4-10 | Index 0, slides from the first measurements, both flags false, steps unstyled, no indicators. |
| `SlideShowSteps.SlideShow.UpdateActiveIndicators` | utils/slideShowSteps.js:90-94 | Only the indicator at the current index is active. The number of indicators is unchanged. |
| `SlideShowSteps.SlideShow.AddIndicators` | utils/slideShowSteps.js:71-87 | One indicator per slide. Only the current one is active. |
| `SlideShowSteps.SlideShow.ShowCurrentSlide` | utils/slideShowSteps.js:13-31 | With a slide at the index, exactly that slide's steps are shown and only its indicator is active. Prev is disabled iff the index is 0, and next iff it is the last. Otherwise the lookup throws after all steps are hidden, and nothing else changes. |
| `SlideShowSteps.SlideShow.RecalculateSlides` | utils/slideShowSteps.js:102 | The cached slides are recomputed from the new measurements. |
| `SlideShowSteps.SlideShow.InitSlider` | utils/slideShowSteps.js:100-114 | Does nothing when already initialized. Otherwise it regroups, clamps the index to at most the last slide and rebuilds the indicators. It succeeds iff there is a step, and only then sets both flags. When it throws, there are no indicators and both buttons keep their states. |
| `SlideShowSteps.SlideShow.DeinitSlider` | utils/slideShowSteps.js:117-131 | Does nothing when not initialized. Otherwise every step goes back to its stylesheet style and both flags are cleared. Slides, index, indicators and buttons are kept. |
| `SlideShowSteps.SlideShow.NextSlide` | utils/slideShowSteps.js:134-139 | The index grows by one only while it is below the last slide. An index in range stays in range, without wrap-around. When showing throws, the indicators and both buttons keep their states. |
| `SlideShowSteps.SlideShow.PrevSlide` | utils/slideShowSteps.js:142-147 | The index drops by one only while it is above 0. An index in range stays in range, without wrap-around. When showing throws from a stale index, the indicators and both buttons keep their states. |
| `SlideShowSteps.SlideShow.SelectSlide` | utils/slideShowSteps.js:78-81 | A click on indicator `i` displays slide `i`. |
| `SlideShowSteps.SlideShow.CheckSlideShow` | utils/slideShowSteps.js:150-162 | A wide viewport deinitializes. A narrow one initializes, or, when already active, regroups and rebuilds the indicators with the index kept unclamped. When showing then throws, no indicator is active and both buttons keep their states. The listener flag always equals the initialized flag. |
| `SlideShowSteps.CreateSlideShow` | utils/slideShowSteps.js:3-10 | After the first check, a narrow viewport with at least one step displays slide 0. A wide viewport leaves the steps unstyled. |
| `SlideShowSteps.ModeRoundTrip` | utils/slideShowSteps.js:150-162 | Entering and leaving the paging mode restores every step's style. Both flags end false. |
| `SlideShowSteps.ResizeKeepsStaleIndex` | utils/slideShowSteps.js:154-157 | A resize that merges two slides into one leaves index 1 with one slide, and showing throws. Both steps are left hidden, the one indicator is inactive, prev stays enabled and next stays disabled. |
| `ParticipantCarousel.CalculateVisibleParticipants` | utils/carousel.js:64-70 | The count is the largest `n` for which `n` cards overshoot the list by at most 5% of a card. |
| `ParticipantCarousel.VisibleCountIsFloorOrNext` | utils/carousel.js:66-69 | The count is `floor(W / I)` or `floor(W / I) + 1`. |
| `ParticipantCarousel.ExactFitBounds` | utils/carousel.js:64-70 | For a list exactly `k` cards wide, `k` is the only count that meets both of the 95% bounds. |
| `ParticipantCarousel.VisibleCountOfExactFit` | utils/carousel.js:64-70 | An exact multiple `k * I` gives `k`. |
| `ParticipantCarousel.VisibleCountMonotone` | utils/carousel.js:64-70 | A wider list never counts fewer cards. |
| `ParticipantCarousel.VisibleCountExamples` | utils/carousel.js:64-70 | 300/100 gives 3, 295/100 gives 3 (95% visible) and 280/100 gives 2. |
| `ParticipantCarousel.Clamp` | utils/carousel.js:42 | The index never exceeds `participantsLength - visibleItems`. An index within that bound is kept. With more room than cards the result is negative. |
| `ParticipantCarousel.NextIndex` | utils/carousel.js:49-51 | From an index within the bound: `min(index + visible, length - visible)`. It never moves back, and it stays put exactly on the last window. |
| `ParticipantCarousel.TickIndex` | utils/carousel.js:22-26 | Before the last window it advances one window. When no further window starts before the end it wraps to 0. |
| `ParticipantCarousel.PrevIndex` | utils/carousel.js:58 | From an index within the bound: `max(0, index - visible)`. It is never negative when the cards fill the window, and it stays put exactly at 0. |
| `ParticipantCarousel.ResizeIndex` | utils/carousel.js:89-91 | A window that still fits is kept. One that does not fit moves to `length - visible`. |
| `ParticipantCarousel.ManualNextStopsAtEnd` | utils/carousel.js:47-54 | From the first card, `k` next clicks give `min(k * visible, length - visible)`: the index stops at the last window and never wraps. |
| `ParticipantCarousel.ManualPrevStopsAtStart` | utils/carousel.js:56-61 | From an index within the bound, `k` prev clicks give `max(0, index - k * visible)`. |
| `ParticipantCarousel.AutoTickAdvances` | utils/carousel.js:21-27 | While window `k` starts before the end, `k` ticks from 0 give `min(k * visible, length - visible)`. |
| `ParticipantCarousel.AutoTickLoops` | utils/carousel.js:21-28 | After as many ticks as there are windows, the index is 0 again, and not earlier. |
| `ParticipantCarousel.Carousel.constructor` | utils/carousel.js:9-15 | Needs at least one card, since the first card's width is read. Counts the visible cards and renders from index 0, clamped. |
| `ParticipantCarousel.Carousel.MoveParticipantsList` | utils/carousel.js:41-45 | Clamps the index and sets the offset to `index * (itemWidth + gap)`. The gap is 20 above an inner width of 1350 and 0 otherwise. |
| `ParticipantCarousel.Carousel.UpdateButtonState` | utils/carousel.js:79-82 | Prev is disabled iff `currentIndex <= 0`. Next is disabled iff `currentIndex >= participantsLength - visibleItems`. |
| `ParticipantCarousel.Carousel.UpdateIndicator` | utils/carousel.js:73-76 | The indicator shows `min(currentIndex + visibleItems, participantsLength)`. |
| `ParticipantCarousel.Carousel.UpdateUI` | utils/carousel.js:33-38 | The count shows `participantsLength`, and the page agrees with the clamped index. |
| `ParticipantCarousel.Carousel.HandleClickNext` | utils/carousel.js:47-54 | The index becomes `NextIndex`. A disabled next button means the click changes nothing. An enabled one means it moves forward. |
| `ParticipantCarousel.Carousel.HandleClickPrev` | utils/carousel.js:56-61 | The index becomes `PrevIndex`, never negative when the cards fill the window. A disabled prev button means the click changes nothing. |
| `ParticipantCarousel.Carousel.AutoTick` | utils/carousel.js:21-27 | The index becomes `TickIndex`. From the last window (next disabled) it goes back to 0. |
| `ParticipantCarousel.Carousel.HandleResize` | utils/carousel.js:87-94 | Recounts the visible cards. The index becomes `ResizeIndex` and stays non-negative when the cards fill the window. |
| `ParticipantCarousel.MoreRoomThanParticipants` | utils/carousel.js:42-43 | Two cards with room for three give index -1, offset -100, both buttons disabled and "2". |

## Left out

- `utils/debounce.js`: timer scheduling. The debounced resize handlers are modelled as direct calls (`CheckSlideShow`, `HandleResize`).
- `utils/runningLine.js`: a font-loading promise and DOM cloning, with no logic of its own.
- The carousel timer (`autoSlide`'s `setTimeout`/`clearTimeout` and its 4000 ms delay, which every call passes, so the first tick also comes 4000 ms after load): only the tick body is modelled (`AutoTick`). Every handler's rescheduling of the timer is not modelled.
- DOM access becomes inputs and fields:
  - `getComputedStyle` and `parseInt` of the paddings, and `offsetHeight`, become the integer `containerHeight` and the step heights;
  - `offsetWidth` and `window.innerWidth` become integer parameters;
  - `window.matchMedia('(max-width: 680px)')` becomes the boolean `narrow`;
  - style strings and class toggles become `StepStyle` values and booleans;
  - `addEventListener`/`removeEventListener` on the navigation buttons become the `eventListenersAdded` flag;
  - the page-load and resize listeners are not modelled; a caller invokes the methods.
- The `translateX(-${offset}px)` string is not modelled; the model keeps the integer offset. A negative offset produces `--100px`, which browsers reject; this is not modelled.
- ParticipantCarousel.CalculateVisibleParticipants: uses exact arithmetic where the script divides doubles, so at the exact 95% boundary a double rounding may decide differently. It also requires a positive card width: a zero width gives `Infinity` or `NaN` in the script, and that is not modelled.
- The arguments passed to `calculateSlides` at lines 10 and 155 of `utils/slideShowSteps.js` are ignored by it, and by the model.
- The markup's initial state is assumed: no indicator buttons and both navigation buttons enabled before the first check.
- Indicator buttons stay in the page after `deinitSlider`. A click on one is still modelled (`SelectSlide`). Clicks on the navigation buttons while their listeners are detached are not restricted by the model: `NextSlide` and `PrevSlide` can be called in any state.
