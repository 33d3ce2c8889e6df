/**
  The step slideshow of `utils/slideShowSteps.js`.

  On narrow viewports the grid of steps is shown one "slide" at a time. A slide
  is a group of step indices chosen by a greedy left-to-right pass over the
  measured step heights (`calculateSlides`); a controller keeps the current
  slide index, the navigation buttons, one indicator button per slide, and
  whether the paging mode is active.

  Steps are identified by their position in the grid, so a slide is a
  `seq<nat>` of step indices and the heights are a `seq<int>` measured by the
  caller.
*/
module SlideShowSteps {
  import opened MathUtil

  // ---------------------------------------------------------------------------
  // Grouping steps into slides
  // ---------------------------------------------------------------------------

  /** A step taller than half the container gets a slide of its own. The source
      compares `stepHeight > containerHeight / 2` with real division, which on
      integers is exactly this. */
  predicate Oversized(h: int, containerHeight: int)
  {
    2 * h > containerHeight
  }

  /** The state of the pass after some steps: the finished slides, the slide
      being filled (`currentSlide`) and its accumulated height (`totalHeight`). */
  datatype Grouping = Grouping(slides: seq<seq<nat>>, current: seq<nat>, total: int)

  /** One iteration of the pass, for step `i` of height `h`. Note that the
      flush before an oversized step is guarded by the accumulated height, not
      by the slide under construction being non-empty. */
  function Place(g: Grouping, i: nat, h: int, containerHeight: int): Grouping
  {
    if Oversized(h, containerHeight) then
      if g.total > 0 then Grouping(g.slides + [g.current] + [[i]], [], 0)
      else Grouping(g.slides + [[i]], g.current, g.total)
    else if g.total + h > containerHeight then
      Grouping(g.slides + [g.current], [i], h)
    else
      Grouping(g.slides, g.current + [i], g.total + h)
  }

  /** The state of the pass after the first `n` steps. */
  function GroupPrefix(heights: seq<int>, containerHeight: int, n: nat): Grouping
    requires n <= |heights|
  {
    if n == 0 then Grouping([], [], 0)
    else Place(GroupPrefix(heights, containerHeight, n - 1), n - 1, heights[n - 1], containerHeight)
  }

  /** The slides of the whole pass: the last slide under construction is kept
      only when it holds a step. */
  function Slides(heights: seq<int>, containerHeight: int): seq<seq<nat>>
  {
    var g := GroupPrefix(heights, containerHeight, |heights|);
    if |g.current| > 0 then g.slides + [g.current] else g.slides
  }

  /** The steps of all slides, slide after slide. */
  function Flatten(slides: seq<seq<nat>>): seq<nat>
  {
    if |slides| == 0 then [] else Flatten(slides[..|slides| - 1]) + slides[|slides| - 1]
  }

  /** The step indices `0, 1, ..., n - 1` in grid order. */
  function Indices(n: nat): seq<nat>
  {
    if n == 0 then [] else Indices(n - 1) + [n - 1]
  }

  predicate IndicesBelow(s: seq<nat>, n: nat)
  {
    forall k :: 0 <= k < |s| ==> s[k] < n
  }

  predicate AllPositive(heights: seq<int>)
  {
    forall k :: 0 <= k < |heights| ==> heights[k] > 0
  }

  predicate AllNonNegative(heights: seq<int>)
  {
    forall k :: 0 <= k < |heights| ==> heights[k] >= 0
  }

  /** The summed height of the steps of a slide. */
  function SlideHeight(s: seq<nat>, heights: seq<int>): int
    requires IndicesBelow(s, |heights|)
  {
    if |s| == 0 then 0 else SlideHeight(s[..|s| - 1], heights) + heights[s[|s| - 1]]
  }

  /** A slide that is a single oversized step. */
  predicate OversizedSingleton(s: seq<nat>, heights: seq<int>, containerHeight: int)
  {
    |s| == 1 && s[0] < |heights| && Oversized(heights[s[0]], containerHeight)
  }

  /** A slide of steps that are not oversized and fit the height budget together. */
  predicate FitsBudget(s: seq<nat>, heights: seq<int>, containerHeight: int)
  {
    IndicesBelow(s, |heights|)
    && (forall k :: 0 <= k < |s| ==> !Oversized(heights[s[k]], containerHeight))
    && SlideHeight(s, heights) <= containerHeight
  }

  lemma FlattenSnoc(slides: seq<seq<nat>>, s: seq<nat>)
    ensures Flatten(slides + [s]) == Flatten(slides) + s
  {
    assert (slides + [s])[..|slides|] == slides;
  }

  lemma SlideHeightSnoc(s: seq<nat>, i: nat, heights: seq<int>)
    requires IndicesBelow(s, |heights|) && i < |heights|
    ensures IndicesBelow(s + [i], |heights|)
    ensures SlideHeight(s + [i], heights) == SlideHeight(s, heights) + heights[i]
  {
    assert (s + [i])[..|s|] == s;
  }

  /** The pass after `n` steps is the pass after `m` steps followed by one
      more iteration, for step `m`. */
  lemma GroupPrefixStep(heights: seq<int>, containerHeight: int, m: nat, n: nat)
    requires n == m + 1 <= |heights|
    ensures GroupPrefix(heights, containerHeight, n)
         == Place(GroupPrefix(heights, containerHeight, m), m, heights[m], containerHeight)
  {
  }

  // Each property of the pass below is a predicate of the state after `n`
  // steps. It is proved preserved by one iteration (`Place`) from an arbitrary
  // state, and then proved of every prefix of the pass by induction.

  /** The slide under construction holds only steps already visited, none of
      them oversized, and `totalHeight` is its summed height; finished slides
      hold only steps already visited. */
  predicate TracksCurrent(g: Grouping, heights: seq<int>, containerHeight: int, n: nat)
  {
    && IndicesBelow(g.current, n)
    && IndicesBelow(g.current, |heights|)
    && g.total == SlideHeight(g.current, heights)
    && (forall k :: 0 <= k < |g.current| ==> !Oversized(heights[g.current[k]], containerHeight))
    && (forall s :: s in g.slides ==> IndicesBelow(s, n))
  }

  /** Adding a step that is not oversized to the slide under construction. */
  lemma GrowTracksCurrent(g: Grouping, heights: seq<int>, containerHeight: int, i: nat)
    requires i < |heights| && !Oversized(heights[i], containerHeight)
    requires TracksCurrent(g, heights, containerHeight, i)
    ensures TracksCurrent(Grouping(g.slides, g.current + [i], g.total + heights[i]), heights, containerHeight, i + 1)
  {
    var c := g.current + [i];
    SlideHeightSnoc(g.current, i, heights);
    forall k | 0 <= k < |c| ensures c[k] < i + 1 && !Oversized(heights[c[k]], containerHeight) {
      if k < |g.current| {
        assert c[k] == g.current[k];
      }
    }
    forall s | s in g.slides ensures IndicesBelow(s, i + 1) {
      assert IndicesBelow(s, i);
    }
  }

  /** Finishing the slide under construction and starting a new one with a
      step that is not oversized. */
  lemma RestartTracksCurrent(g: Grouping, heights: seq<int>, containerHeight: int, i: nat)
    requires i < |heights| && !Oversized(heights[i], containerHeight)
    requires TracksCurrent(g, heights, containerHeight, i)
    ensures TracksCurrent(Grouping(g.slides + [g.current], [i], heights[i]), heights, containerHeight, i + 1)
  {
    assert SlideHeight([i], heights) == SlideHeight([], heights) + heights[i];
    forall s | s in g.slides + [g.current] ensures IndicesBelow(s, i + 1) {
      if s in g.slides {
        assert IndicesBelow(s, i);
      } else {
        assert IndicesBelow(g.current, i);
      }
    }
  }

  /** Finishing an oversized step as a slide of its own, after flushing the
      slide under construction or not. */
  lemma OversizedTracksCurrent(g: Grouping, heights: seq<int>, containerHeight: int, i: nat)
    requires i < |heights| && TracksCurrent(g, heights, containerHeight, i)
    ensures TracksCurrent(Grouping(g.slides + [g.current] + [[i]], [], 0), heights, containerHeight, i + 1)
    ensures TracksCurrent(Grouping(g.slides + [[i]], g.current, g.total), heights, containerHeight, i + 1)
  {
    forall s | s in g.slides + [g.current] + [[i]] ensures IndicesBelow(s, i + 1) {
      if s in g.slides {
        assert IndicesBelow(s, i);
      } else if s == g.current {
        assert IndicesBelow(g.current, i);
      }
    }
    assert IndicesBelow(g.current, i);
  }

  lemma PlaceTracksCurrent(g: Grouping, heights: seq<int>, containerHeight: int, i: nat)
    requires i < |heights| && TracksCurrent(g, heights, containerHeight, i)
    ensures TracksCurrent(Place(g, i, heights[i], containerHeight), heights, containerHeight, i + 1)
  {
    var h := heights[i];
    if Oversized(h, containerHeight) {
      OversizedTracksCurrent(g, heights, containerHeight, i);
    } else if g.total + h > containerHeight {
      RestartTracksCurrent(g, heights, containerHeight, i);
    } else {
      GrowTracksCurrent(g, heights, containerHeight, i);
    }
  }

  lemma {:induction false} PrefixTracksCurrent(heights: seq<int>, containerHeight: int, n: nat)
    requires n <= |heights|
    ensures TracksCurrent(GroupPrefix(heights, containerHeight, n), heights, containerHeight, n)
  {
    if n > 0 {
      var m: nat := n - 1;
      PrefixTracksCurrent(heights, containerHeight, m);
      GroupPrefixStep(heights, containerHeight, m, n);
      PlaceTracksCurrent(GroupPrefix(heights, containerHeight, m), heights, containerHeight, m);
    }
  }

  /** The steps placed so far, in the finished slides and the slide under
      construction, are `0, ..., n - 1`, each exactly once. */
  predicate Covers(g: Grouping, n: nat)
  {
    multiset(Flatten(g.slides) + g.current) == multiset(Indices(n))
  }

  /** One iteration adds the visited step to the steps placed so far. */
  lemma PlaceAddsStep(g: Grouping, i: nat, h: int, containerHeight: int)
    ensures var g' := Place(g, i, h, containerHeight);
      multiset(Flatten(g'.slides) + g'.current) == multiset(Flatten(g.slides) + g.current) + multiset{i}
  {
    var g' := Place(g, i, h, containerHeight);
    var before := Flatten(g.slides) + g.current;
    if Oversized(h, containerHeight) {
      if g.total > 0 {
        FlattenSnoc(g.slides, g.current);
        FlattenSnoc(g.slides + [g.current], [i]);
        assert Flatten(g'.slides) + g'.current == before + [i];
      } else {
        FlattenSnoc(g.slides, [i]);
        assert Flatten(g'.slides) + g'.current == Flatten(g.slides) + [i] + g.current;
      }
    } else if g.total + h > containerHeight {
      FlattenSnoc(g.slides, g.current);
      assert Flatten(g'.slides) + g'.current == before + [i];
    } else {
      assert Flatten(g'.slides) + g'.current == before + [i];
    }
  }

  lemma PlaceCovers(g: Grouping, i: nat, h: int, containerHeight: int)
    requires Covers(g, i)
    ensures Covers(Place(g, i, h, containerHeight), i + 1)
  {
    PlaceAddsStep(g, i, h, containerHeight);
    assert Indices(i + 1) == Indices(i) + [i];
  }

  /** Every visited step is in exactly one place: a finished slide or the
      slide under construction. This holds for all heights. */
  lemma {:induction false} PrefixCoverage(heights: seq<int>, containerHeight: int, n: nat)
    requires n <= |heights|
    ensures Covers(GroupPrefix(heights, containerHeight, n), n)
  {
    if n > 0 {
      var m: nat := n - 1;
      PrefixCoverage(heights, containerHeight, m);
      GroupPrefixStep(heights, containerHeight, m, n);
      PlaceCovers(GroupPrefix(heights, containerHeight, m), m, heights[m], containerHeight);
    }
  }

  /** The placed steps read `0, ..., n - 1` in order, and the accumulated
      height is non-negative and positive exactly when the slide under
      construction is non-empty. */
  predicate InOrder(g: Grouping, n: nat)
  {
    && Flatten(g.slides) + g.current == Indices(n)
    && g.total >= 0
    && (g.total > 0 <==> |g.current| > 0)
  }

  lemma PlaceInOrder(g: Grouping, i: nat, h: int, containerHeight: int)
    requires h > 0 && InOrder(g, i)
    ensures InOrder(Place(g, i, h, containerHeight), i + 1)
  {
    var g' := Place(g, i, h, containerHeight);
    assert Indices(i + 1) == Indices(i) + [i];
    if Oversized(h, containerHeight) {
      if g.total > 0 {
        FlattenSnoc(g.slides, g.current);
        FlattenSnoc(g.slides + [g.current], [i]);
      } else {
        assert g.current == [];
        FlattenSnoc(g.slides, [i]);
      }
    } else if g.total + h > containerHeight {
      FlattenSnoc(g.slides, g.current);
    } else {
      assert Flatten(g'.slides) + g'.current == Flatten(g.slides) + g.current + [i];
    }
  }

  /** With positive heights the accumulated height is positive exactly when
      the slide under construction is non-empty, so the pass keeps grid order. */
  lemma {:induction false} PrefixInOrder(heights: seq<int>, containerHeight: int, n: nat)
    requires n <= |heights| && AllPositive(heights)
    ensures InOrder(GroupPrefix(heights, containerHeight, n), n)
  {
    if n > 0 {
      var m: nat := n - 1;
      PrefixInOrder(heights, containerHeight, m);
      GroupPrefixStep(heights, containerHeight, m, n);
      PlaceInOrder(GroupPrefix(heights, containerHeight, m), m, heights[m], containerHeight);
    }
  }

  /** Every visited oversized step is a finished slide of its own. */
  predicate KeepsOversized(g: Grouping, heights: seq<int>, containerHeight: int, n: nat)
    requires n <= |heights|
  {
    forall i :: 0 <= i < n && Oversized(heights[i], containerHeight) ==> [i] in g.slides
  }

  lemma PlaceKeepsOversized(g: Grouping, heights: seq<int>, containerHeight: int, i: nat)
    requires i < |heights| && KeepsOversized(g, heights, containerHeight, i)
    ensures KeepsOversized(Place(g, i, heights[i], containerHeight), heights, containerHeight, i + 1)
  {
    var g' := Place(g, i, heights[i], containerHeight);
    forall j | 0 <= j < i + 1 && Oversized(heights[j], containerHeight) ensures [j] in g'.slides {
      if j < i {
        assert [j] in g.slides;
      }
    }
  }

  /** An oversized step, once visited, is a finished slide of its own. */
  lemma {:induction false} PrefixKeepsOversized(heights: seq<int>, containerHeight: int, n: nat)
    requires n <= |heights|
    ensures KeepsOversized(GroupPrefix(heights, containerHeight, n), heights, containerHeight, n)
  {
    if n > 0 {
      var m: nat := n - 1;
      PrefixKeepsOversized(heights, containerHeight, m);
      GroupPrefixStep(heights, containerHeight, m, n);
      PlaceKeepsOversized(GroupPrefix(heights, containerHeight, m), heights, containerHeight, m);
    }
  }

  /** The slide under construction is within the budget, and every finished
      slide is an oversized singleton or fits the budget. */
  predicate WithinBudget(g: Grouping, heights: seq<int>, containerHeight: int)
  {
    && g.total <= containerHeight
    && (forall s :: s in g.slides ==>
          OversizedSingleton(s, heights, containerHeight) || FitsBudget(s, heights, containerHeight))
  }

  lemma PlaceWithinBudget(g: Grouping, heights: seq<int>, containerHeight: int, i: nat)
    requires i < |heights| && containerHeight >= 0
    requires TracksCurrent(g, heights, containerHeight, i) && WithinBudget(g, heights, containerHeight)
    ensures WithinBudget(Place(g, i, heights[i], containerHeight), heights, containerHeight)
  {
    assert FitsBudget(g.current, heights, containerHeight);
    if Oversized(heights[i], containerHeight) {
      assert OversizedSingleton([i], heights, containerHeight);
    }
  }

  /** With a non-negative budget, the slide under construction stays within it,
      and every finished slide is an oversized singleton or fits the budget. */
  lemma {:induction false} PrefixWithinBudget(heights: seq<int>, containerHeight: int, n: nat)
    requires n <= |heights| && containerHeight >= 0
    ensures WithinBudget(GroupPrefix(heights, containerHeight, n), heights, containerHeight)
  {
    if n > 0 {
      var m: nat := n - 1;
      PrefixWithinBudget(heights, containerHeight, m);
      PrefixTracksCurrent(heights, containerHeight, m);
      GroupPrefixStep(heights, containerHeight, m, n);
      PlaceWithinBudget(GroupPrefix(heights, containerHeight, m), heights, containerHeight, m);
    }
  }

  /** No finished slide is empty. */
  predicate NoEmptySlide(g: Grouping)
  {
    forall s :: s in g.slides ==> |s| > 0
  }

  lemma PlaceNonEmpty(g: Grouping, heights: seq<int>, containerHeight: int, i: nat)
    requires i < |heights| && heights[i] >= 0
    requires TracksCurrent(g, heights, containerHeight, i) && NoEmptySlide(g)
    requires AllNonNegative(heights)
    ensures NoEmptySlide(Place(g, i, heights[i], containerHeight))
  {
    if g.current == [] {
      assert g.total == 0;
    }
  }

  /** With non-negative heights no slide is finished empty: a flush happens
      only when the accumulated height shows a step was placed. */
  lemma {:induction false} PrefixNonEmpty(heights: seq<int>, containerHeight: int, n: nat)
    requires n <= |heights| && AllNonNegative(heights)
    ensures NoEmptySlide(GroupPrefix(heights, containerHeight, n))
  {
    if n > 0 {
      var m: nat := n - 1;
      PrefixNonEmpty(heights, containerHeight, m);
      PrefixTracksCurrent(heights, containerHeight, m);
      GroupPrefixStep(heights, containerHeight, m, n);
      PlaceNonEmpty(GroupPrefix(heights, containerHeight, m), heights, containerHeight, m);
    }
  }

  /** Every step appears in exactly one slide, for all heights and budgets. */
  lemma SlidesCoverSteps(heights: seq<int>, containerHeight: int)
    ensures multiset(Flatten(Slides(heights, containerHeight))) == multiset(Indices(|heights|))
  {
    PrefixCoverage(heights, containerHeight, |heights|);
    var g := GroupPrefix(heights, containerHeight, |heights|);
    if |g.current| > 0 {
      FlattenSnoc(g.slides, g.current);
    } else {
      assert g.current == [];
      assert Flatten(g.slides) + g.current == Flatten(g.slides);
    }
  }

  /** With positive heights, reading the slides in order gives the steps in
      grid order. */
  lemma SlidesInGridOrder(heights: seq<int>, containerHeight: int)
    requires AllPositive(heights)
    ensures Flatten(Slides(heights, containerHeight)) == Indices(|heights|)
  {
    PrefixInOrder(heights, containerHeight, |heights|);
    var g := GroupPrefix(heights, containerHeight, |heights|);
    if |g.current| > 0 {
      FlattenSnoc(g.slides, g.current);
    } else {
      assert Flatten(g.slides) + g.current == Flatten(g.slides);
    }
  }

  /** A step taller than half the budget is a slide of its own. */
  lemma OversizedStepAlone(heights: seq<int>, containerHeight: int, i: nat)
    requires i < |heights| && Oversized(heights[i], containerHeight)
    ensures [i] in Slides(heights, containerHeight)
  {
    PrefixKeepsOversized(heights, containerHeight, |heights|);
  }

  /** With a non-negative budget, every slide is an oversized step alone or a
      group of smaller steps whose summed height is within the budget. */
  lemma SlidesWithinBudget(heights: seq<int>, containerHeight: int)
    requires containerHeight >= 0
    ensures forall s :: s in Slides(heights, containerHeight) ==>
      OversizedSingleton(s, heights, containerHeight) || FitsBudget(s, heights, containerHeight)
  {
    PrefixWithinBudget(heights, containerHeight, |heights|);
    PrefixTracksCurrent(heights, containerHeight, |heights|);
    var g := GroupPrefix(heights, containerHeight, |heights|);
    assert FitsBudget(g.current, heights, containerHeight);
  }

  /** With non-negative heights, no slide is empty. */
  lemma SlidesNonEmpty(heights: seq<int>, containerHeight: int)
    requires AllNonNegative(heights)
    ensures forall s :: s in Slides(heights, containerHeight) ==> |s| > 0
  {
    PrefixNonEmpty(heights, containerHeight, |heights|);
  }

  lemma IndicesLength(n: nat)
    ensures |Indices(n)| == n
  {
    if n > 0 {
      IndicesLength(n - 1);
    }
  }

  /** Slides name only existing steps, and there is a slide exactly when there
      is a step. */
  lemma SlidesInRange(heights: seq<int>, containerHeight: int)
    ensures forall s :: s in Slides(heights, containerHeight) ==> IndicesBelow(s, |heights|)
    ensures |Slides(heights, containerHeight)| > 0 <==> |heights| > 0
  {
    PrefixTracksCurrent(heights, containerHeight, |heights|);
    SlidesCoverSteps(heights, containerHeight);
    IndicesLength(|heights|);
    var slides := Slides(heights, containerHeight);
    assert |multiset(Flatten(slides))| == |heights|;
  }

  /** Zero-height steps placed before an oversized step end up after it: the
      flush before the oversized step is skipped because the accumulated
      height is still 0. */
  lemma ZeroHeightStepFollowsOversized()
    ensures Slides([0, 10], 10) == [[1], [0]]
    ensures Flatten(Slides([0, 10], 10)) != Indices(2)
  {
    assert GroupPrefix([0, 10], 10, 1) == Grouping([], [0], 0);
    assert GroupPrefix([0, 10], 10, 2) == Grouping([[1]], [0], 0);
    assert Flatten([[1], [0]]) == [1, 0];
    assert Indices(2) == [0, 1];
  }

  /** Three steps of 40 pixels in a 100-pixel container: the third does not fit
      with the first two. */
  lemma ThreeStepsExample()
    ensures Slides([40, 40, 40], 100) == [[0, 1], [2]]
  {
    assert GroupPrefix([40, 40, 40], 100, 2) == Grouping([], [0, 1], 80);
  }

  /** `calculateSlides`: one pass over the steps that pushes finished slides
      and grows the slide under construction in place. The container height is
      the grid's measured height less its vertical padding. */
  method CalculateSlides(heights: seq<int>, containerHeight: int) returns (slides: seq<seq<nat>>)
    ensures slides == Slides(heights, containerHeight)
    ensures multiset(Flatten(slides)) == multiset(Indices(|heights|))
    ensures AllPositive(heights) ==> Flatten(slides) == Indices(|heights|)
    ensures forall i :: 0 <= i < |heights| && Oversized(heights[i], containerHeight) ==> [i] in slides
    ensures containerHeight >= 0 ==> forall s :: s in slides ==>
      OversizedSingleton(s, heights, containerHeight) || FitsBudget(s, heights, containerHeight)
    ensures AllNonNegative(heights) ==> forall s :: s in slides ==> |s| > 0
  {
    slides := [];
    var currentSlide: seq<nat> := [];
    var totalHeight := 0;
    var i := 0;
    while i < |heights|
      invariant 0 <= i <= |heights|
      invariant GroupPrefix(heights, containerHeight, i) == Grouping(slides, currentSlide, totalHeight)
    {
      GroupPrefixStep(heights, containerHeight, i, i + 1);
      var stepHeight := heights[i];
      if Oversized(stepHeight, containerHeight) {
        if totalHeight > 0 {
          slides := slides + [currentSlide];
          currentSlide := [];
          totalHeight := 0;
        }
        slides := slides + [[i]];
      } else if totalHeight + stepHeight > containerHeight {
        slides := slides + [currentSlide];
        currentSlide := [i];
        totalHeight := stepHeight;
      } else {
        currentSlide := currentSlide + [i];
        totalHeight := totalHeight + stepHeight;
      }
      i := i + 1;
    }
    if |currentSlide| > 0 {
      slides := slides + [currentSlide];
    }
    assert slides == Slides(heights, containerHeight);
    SlidesCoverSteps(heights, containerHeight);
    if AllPositive(heights) {
      SlidesInGridOrder(heights, containerHeight);
    }
    forall j | 0 <= j < |heights| && Oversized(heights[j], containerHeight) ensures [j] in slides {
      OversizedStepAlone(heights, containerHeight, j);
    }
    if containerHeight >= 0 {
      SlidesWithinBudget(heights, containerHeight);
    }
    if AllNonNegative(heights) {
      SlidesNonEmpty(heights, containerHeight);
    }
  }

  // ---------------------------------------------------------------------------
  // The slideshow controller
  // ---------------------------------------------------------------------------

  /** The inline style of a step: the stylesheet's own (all three properties
      cleared), shown (`visible`, `relative`, opacity 1) or hidden (`hidden`,
      `absolute`, opacity 0). */
  datatype StepStyle = Unstyled | Shown | Hidden

  /** The state `createSlideShow` keeps in its closure, and the part of the page
      it writes: one style per step, the `disabled` state of the two
      navigation buttons, and one indicator button per slide, each with
      whether it carries the active class. Attaching the click listeners to the
      navigation buttons is recorded by `eventListenersAdded`. */
  class SlideShow {
    const stepCount: nat
    var currentSlideIndex: int
    var cachedSlides: seq<seq<nat>>
    var isSliderInitialized: bool
    var eventListenersAdded: bool
    var styles: seq<StepStyle>
    var indicators: seq<bool>
    var prevDisabled: bool
    var nextDisabled: bool
    /** The measurements the cached slides were computed from. */
    ghost var heights: seq<int>
    ghost var containerHeight: int

    ghost predicate Valid()
      reads this
    {
      && |styles| == stepCount
      && |heights| == stepCount
      && cachedSlides == Slides(heights, containerHeight)
      && (stepCount > 0 ==> 0 <= currentSlideIndex)
      && eventListenersAdded == isSliderInitialized
      && (indicators == [] || |indicators| == |cachedSlides|)
    }

    /** The page shows slide `j`: its steps and no other, only its indicator
        active, and each navigation button disabled at its own end. */
    ghost predicate Displays(j: int)
      reads this
    {
      && 0 <= j < |cachedSlides|
      && |styles| == stepCount
      && (forall k :: 0 <= k < stepCount ==> styles[k] == (if k in cachedSlides[j] then Shown else Hidden))
      && (forall m :: 0 <= m < |indicators| ==> indicators[m] == (m == j))
      && prevDisabled == (j == 0)
      && nextDisabled == (j == |cachedSlides| - 1)
    }

    ghost predicate AllHidden()
      reads this
    {
      forall k :: 0 <= k < |styles| ==> styles[k] == Hidden
    }

    ghost predicate AllUnstyled()
      reads this
    {
      forall k :: 0 <= k < |styles| ==> styles[k] == Unstyled
    }

    /** What `showCurrentSlide` leaves behind: the current slide is displayed,
        or, when there is no slide at the current index, the lookup has thrown
        after every step was hidden. */
    ghost predicate ShownOrThrown(ok: bool)
      reads this
    {
      && (ok <==> 0 <= currentSlideIndex < |cachedSlides|)
      && (ok ==> Displays(currentSlideIndex))
      && (!ok ==> AllHidden())
    }

    /** The closure's initial state, with slides computed from the first
        measurements; the steps keep their stylesheet styles. */
    constructor (stepHeights: seq<int>, gridHeight: int)
      ensures Valid() && stepCount == |stepHeights|
      ensures currentSlideIndex == 0 && cachedSlides == Slides(stepHeights, gridHeight)
      ensures !isSliderInitialized && !eventListenersAdded
      ensures |styles| == stepCount && AllUnstyled()
      ensures indicators == [] && !prevDisabled && !nextDisabled
    {
      var slides := CalculateSlides(stepHeights, gridHeight);
      stepCount := |stepHeights|;
      currentSlideIndex := 0;
      cachedSlides := slides;
      isSliderInitialized, eventListenersAdded := false, false;
      styles := seq(|stepHeights|, _ => Unstyled);
      indicators := [];
      prevDisabled, nextDisabled := false, false;
      heights, containerHeight := stepHeights, gridHeight;
    }

    /** `updateActiveIndicators`: only the indicator at the current index is
        active. */
    method UpdateActiveIndicators()
      modifies this`indicators
      ensures |indicators| == |old(indicators)|
      ensures forall m :: 0 <= m < |indicators| ==> indicators[m] == (m == currentSlideIndex)
    {
      var marks := indicators;
      var m := 0;
      while m < |marks|
        invariant 0 <= m <= |marks| == |indicators|
        invariant forall p :: 0 <= p < m ==> marks[p] == (p == currentSlideIndex)
      {
        marks := marks[m := m == currentSlideIndex];
        m := m + 1;
      }
      indicators := marks;
    }

    /** `addIndicators`: replaces the indicator buttons by one per slide. */
    method AddIndicators()
      modifies this`indicators
      ensures |indicators| == |cachedSlides|
      ensures forall m :: 0 <= m < |indicators| ==> indicators[m] == (m == currentSlideIndex)
    {
      var buttons: seq<bool> := [];
      var i := 0;
      while i < |cachedSlides|
        invariant 0 <= i <= |cachedSlides| && |buttons| == i
      {
        buttons := buttons + [false];
        i := i + 1;
      }
      indicators := buttons;
      UpdateActiveIndicators();
    }

    /** `showCurrentSlide`: hides every step, then shows the steps of the
        current slide, marks its indicator and sets the navigation buttons.
        When the current index names no slide, `cachedSlides[currentSlideIndex]`
        is `undefined` and the call throws; `ok` is false and only the hiding
        has happened. */
    method ShowCurrentSlide() returns (ok: bool)
      requires Valid()
      modifies this`styles, this`indicators, this`prevDisabled, this`nextDisabled
      ensures Valid()
      ensures ShownOrThrown(ok)
      ensures |indicators| == |old(indicators)|
      ensures !ok ==> indicators == old(indicators) && prevDisabled == old(prevDisabled) && nextDisabled == old(nextDisabled)
    {
      var hidden := styles;
      var k := 0;
      while k < stepCount
        invariant 0 <= k <= stepCount == |hidden|
        invariant forall p :: 0 <= p < k ==> hidden[p] == Hidden
      {
        hidden := hidden[k := Hidden];
        k := k + 1;
      }
      styles := hidden;
      if !(0 <= currentSlideIndex < |cachedSlides|) {
        return false;
      }
      SlidesInRange(heights, containerHeight);
      var slide := cachedSlides[currentSlideIndex];
      assert IndicesBelow(slide, stepCount);
      var shown := hidden;
      var j := 0;
      while j < |slide|
        invariant 0 <= j <= |slide| && |shown| == stepCount
        invariant forall p :: 0 <= p < stepCount ==> shown[p] == (if p in slide[..j] then Shown else Hidden)
      {
        assert slide[..j + 1] == slide[..j] + [slide[j]];
        shown := shown[slide[j] := Shown];
        j := j + 1;
      }
      assert slide[..|slide|] == slide;
      styles := shown;
      UpdateActiveIndicators();
      prevDisabled := currentSlideIndex == 0;
      nextDisabled := currentSlideIndex == |cachedSlides| - 1;
      ok := true;
    }

    /** `cachedSlides = calculateSlides()`, from fresh measurements. */
    method RecalculateSlides(newHeights: seq<int>, newContainerHeight: int)
      requires |newHeights| == stepCount
      modifies this`cachedSlides, this`heights, this`containerHeight
      ensures cachedSlides == Slides(newHeights, newContainerHeight)
      ensures heights == newHeights && containerHeight == newContainerHeight
      ensures |cachedSlides| > 0 <==> stepCount > 0
    {
      cachedSlides := CalculateSlides(newHeights, newContainerHeight);
      heights, containerHeight := newHeights, newContainerHeight;
      SlidesInRange(newHeights, newContainerHeight);
    }

    /** `initSlider`: on entering the paging mode, regroups the steps, clamps
        the index to the last slide, rebuilds the indicators, shows the current
        slide and attaches the navigation listeners once. Without any step the
        index becomes -1, showing throws, and the slider stays uninitialized. */
    method InitSlider(newHeights: seq<int>, newContainerHeight: int) returns (ok: bool)
      requires Valid() && |newHeights| == stepCount
      modifies this
      ensures Valid()
      ensures old(isSliderInitialized) ==> ok && unchanged(this)
      ensures !old(isSliderInitialized) ==>
        && cachedSlides == Slides(newHeights, newContainerHeight)
        && currentSlideIndex == Min(old(currentSlideIndex), |cachedSlides| - 1)
        && |indicators| == |cachedSlides|
        && ShownOrThrown(ok)
        && (ok <==> stepCount > 0)
        && (ok <==> isSliderInitialized)
        && eventListenersAdded == isSliderInitialized
        && (!ok ==> indicators == [] && prevDisabled == old(prevDisabled) && nextDisabled == old(nextDisabled))
    {
      if isSliderInitialized {
        return true;
      }
      RecalculateSlides(newHeights, newContainerHeight);
      currentSlideIndex := Min(currentSlideIndex, |cachedSlides| - 1);
      AddIndicators();
      ok := ShowCurrentSlide();
      if !ok {
        return;
      }
      if !eventListenersAdded {
        eventListenersAdded := true;
      }
      isSliderInitialized := true;
    }

    /** `deinitSlider`: on leaving the paging mode, gives every step back its
        stylesheet style, detaches the navigation listeners and clears both
        flags. The slides, the index, the indicators and the button states are
        left as they were. */
    method DeinitSlider()
      requires Valid()
      modifies this`styles, this`eventListenersAdded, this`isSliderInitialized
      ensures Valid()
      ensures !old(isSliderInitialized) ==> unchanged(this)
      ensures old(isSliderInitialized) ==> AllUnstyled() && !isSliderInitialized && !eventListenersAdded
    {
      if isSliderInitialized {
        var cleared := styles;
        var k := 0;
        while k < stepCount
          invariant 0 <= k <= stepCount == |cleared|
          invariant forall p :: 0 <= p < k ==> cleared[p] == Unstyled
        {
          cleared := cleared[k := Unstyled];
          k := k + 1;
        }
        styles := cleared;
        if eventListenersAdded {
          eventListenersAdded := false;
        }
        isSliderInitialized := false;
      }
    }

    /** `nextSlide`: one slide forward, only while not on the last slide; it
        never wraps around. */
    method NextSlide() returns (ok: bool)
      requires Valid()
      modifies this`currentSlideIndex, this`styles, this`indicators, this`prevDisabled, this`nextDisabled
      ensures Valid()
      ensures currentSlideIndex ==
        if old(currentSlideIndex) < |cachedSlides| - 1 then old(currentSlideIndex) + 1 else old(currentSlideIndex)
      ensures old(currentSlideIndex) < |cachedSlides| - 1 ==> ShownOrThrown(ok)
      ensures !ok ==> indicators == old(indicators) && prevDisabled == old(prevDisabled) && nextDisabled == old(nextDisabled)
      ensures old(currentSlideIndex) >= |cachedSlides| - 1 ==> ok && unchanged(this)
      ensures old(0 <= currentSlideIndex < |cachedSlides|) ==> ok && 0 <= currentSlideIndex < |cachedSlides|
    {
      ok := true;
      if currentSlideIndex < |cachedSlides| - 1 {
        currentSlideIndex := currentSlideIndex + 1;
        ok := ShowCurrentSlide();
      }
    }

    /** `prevSlide`: one slide back, only while past the first slide; it never
        wraps around. */
    method PrevSlide() returns (ok: bool)
      requires Valid()
      modifies this`currentSlideIndex, this`styles, this`indicators, this`prevDisabled, this`nextDisabled
      ensures Valid()
      ensures currentSlideIndex ==
        if old(currentSlideIndex) > 0 then old(currentSlideIndex) - 1 else old(currentSlideIndex)
      ensures old(currentSlideIndex) > 0 ==> ShownOrThrown(ok)
      ensures !ok ==> indicators == old(indicators) && prevDisabled == old(prevDisabled) && nextDisabled == old(nextDisabled)
      ensures old(currentSlideIndex) <= 0 ==> ok && unchanged(this)
      ensures old(0 <= currentSlideIndex < |cachedSlides|) ==> ok && 0 <= currentSlideIndex < |cachedSlides|
    {
      ok := true;
      if currentSlideIndex > 0 {
        currentSlideIndex := currentSlideIndex - 1;
        ok := ShowCurrentSlide();
      }
    }

    /** A click on the `i`-th indicator: jump to slide `i`. */
    method SelectSlide(i: nat)
      requires Valid() && i < |indicators|
      modifies this`currentSlideIndex, this`styles, this`indicators, this`prevDisabled, this`nextDisabled
      ensures Valid()
      ensures currentSlideIndex == i && Displays(i)
    {
      currentSlideIndex := i;
      var ok := ShowCurrentSlide();
    }

    /** `checkSlideShow`: on load and on every (debounced) resize, enters the
        paging mode on a narrow viewport and leaves it on a wide one. A resize
        while the mode is active regroups the steps and rebuilds the
        indicators but keeps the index as it is, even when it no longer names a
        slide; showing then throws. */
    method CheckSlideShow(narrow: bool, newHeights: seq<int>, newContainerHeight: int) returns (ok: bool)
      requires Valid() && |newHeights| == stepCount
      modifies this
      ensures Valid()
      ensures !narrow ==> ok && !isSliderInitialized && !eventListenersAdded
      ensures !narrow && old(isSliderInitialized) ==>
        && AllUnstyled() && currentSlideIndex == old(currentSlideIndex) && cachedSlides == old(cachedSlides)
        && indicators == old(indicators) && prevDisabled == old(prevDisabled) && nextDisabled == old(nextDisabled)
      ensures !narrow && !old(isSliderInitialized) ==> unchanged(this)
      ensures narrow ==>
        && cachedSlides == Slides(newHeights, newContainerHeight)
        && |indicators| == |cachedSlides|
        && ShownOrThrown(ok)
        && eventListenersAdded == isSliderInitialized
      ensures narrow && !ok ==>
        && (forall m :: 0 <= m < |indicators| ==> !indicators[m])
        && prevDisabled == old(prevDisabled) && nextDisabled == old(nextDisabled)
      ensures narrow && !old(isSliderInitialized) ==>
        && currentSlideIndex == Min(old(currentSlideIndex), |cachedSlides| - 1)
        && (ok <==> stepCount > 0)
        && (ok <==> isSliderInitialized)
      ensures narrow && old(isSliderInitialized) ==>
        isSliderInitialized && currentSlideIndex == old(currentSlideIndex)
    {
      if narrow {
        if !isSliderInitialized {
          ok := InitSlider(newHeights, newContainerHeight);
        } else {
          RecalculateSlides(newHeights, newContainerHeight);
          AddIndicators();
          ok := ShowCurrentSlide();
        }
      } else {
        DeinitSlider();
        ok := true;
      }
    }
  }

  /** `createSlideShow`: builds the controller from the first measurements and
      checks the viewport once. */
  method CreateSlideShow(stepHeights: seq<int>, gridHeight: int, narrow: bool) returns (show: SlideShow, ok: bool)
    ensures fresh(show) && show.Valid() && show.stepCount == |stepHeights|
    ensures narrow ==> (ok <==> |stepHeights| > 0) && (ok <==> show.isSliderInitialized)
    ensures narrow && ok ==> show.currentSlideIndex == 0 && show.Displays(0)
    ensures !narrow ==> ok && !show.isSliderInitialized && show.AllUnstyled()
  {
    show := new SlideShow(stepHeights, gridHeight);
    ok := show.CheckSlideShow(narrow, stepHeights, gridHeight);
  }

  /** Entering the paging mode and leaving it again gives every step back the
      style it had before, and leaves the controller uninitialized and without
      listeners, whatever the measurements in between. */
  method ModeRoundTrip(stepHeights: seq<int>, gridHeight: int, narrowHeights: seq<int>, narrowGridHeight: int)
    returns (before: seq<StepStyle>, after: seq<StepStyle>, initialized: bool, listening: bool)
    requires |narrowHeights| == |stepHeights|
    ensures after == before
    ensures !initialized && !listening
  {
    var show := new SlideShow(stepHeights, gridHeight);
    before := show.styles;
    var ok := show.CheckSlideShow(true, narrowHeights, narrowGridHeight);
    ok := show.CheckSlideShow(false, narrowHeights, narrowGridHeight);
    after := show.styles;
    initialized, listening := show.isSliderInitialized, show.eventListenersAdded;
    assert |after| == |before|;
    assert forall k :: 0 <= k < |after| ==> after[k] == before[k];
  }

  /** Two 10-pixel steps in a 10-pixel grid are each oversized and get a slide
      each; after moving to the second slide, the grid grows to 40 pixels and
      both steps share one slide. The resize keeps index 1, which names no
      slide, so showing throws: every step is left hidden, the one indicator
      is inactive, and the buttons keep the states of the old second slide. */
  method ResizeKeepsStaleIndex()
    returns (index: int, slideCount: nat, ok: bool, styles: seq<StepStyle>, indicators: seq<bool>,
             prevDisabled: bool, nextDisabled: bool)
    ensures index == 1 && slideCount == 1 && !ok
    ensures styles == [Hidden, Hidden] && indicators == [false]
    ensures !prevDisabled && nextDisabled
  {
    assert Slides([10, 10], 10) == [[0], [1]] by {
      assert GroupPrefix([10, 10], 10, 1) == Grouping([[0]], [], 0);
    }
    assert Slides([10, 10], 40) == [[0, 1]] by {
      assert GroupPrefix([10, 10], 40, 1) == Grouping([], [0], 10);
      assert GroupPrefix([10, 10], 40, 2) == Grouping([], [0, 1], 20);
    }
    var show := new SlideShow([10, 10], 10);
    ok := show.CheckSlideShow(true, [10, 10], 10);
    ok := show.NextSlide();
    ok := show.CheckSlideShow(true, [10, 10], 40);
    index, slideCount := show.currentSlideIndex, |show.cachedSlides|;
    styles, indicators := show.styles, show.indicators;
    prevDisabled, nextDisabled := show.prevDisabled, show.nextDisabled;
    assert |styles| == 2 && styles[0] == Hidden && styles[1] == Hidden;
    assert |indicators| == 1 && !indicators[0];
  }
}
