/**
  The participant carousel of `utils/carousel.js`.

  A fixed list of participant cards is shown a window of `visibleItems` cards
  at a time; `currentIndex` is the first card of the window. The buttons move
  the window by a whole window, a timer advances it on its own and starts
  over at the end, and a resize recomputes how many cards fit. Widths are the
  integer pixel widths the page measures.
*/
module ParticipantCarousel {
  import opened MathUtil

  // ---------------------------------------------------------------------------
  // How many cards fit
  // ---------------------------------------------------------------------------

  /** `calculateVisibleParticipants`: the whole number of cards that fit the
      list, plus one more when that card would be at least 95% visible. The
      source divides the widths as floating-point numbers and compares
      `1 - fraction <= 0.05`; with the fraction `remainder / itemWidth` this is
      `20 * (itemWidth - remainder) <= itemWidth` in exact arithmetic.

      The count is the largest number of cards whose total width exceeds the
      list by at most 5% of a card. */
  function CalculateVisibleParticipants(containerWidth: nat, itemWidth: nat): (count: nat)
    requires itemWidth > 0
    ensures 20 * (count * itemWidth - containerWidth) <= itemWidth
    ensures 20 * ((count + 1) * itemWidth - containerWidth) > itemWidth
  {
    var roundedCount := containerWidth / itemWidth;
    var remainder := containerWidth % itemWidth;
    assert containerWidth == roundedCount * itemWidth + remainder;
    assert (roundedCount + 1) * itemWidth == roundedCount * itemWidth + itemWidth;
    assert (roundedCount + 2) * itemWidth == roundedCount * itemWidth + 2 * itemWidth;
    if 20 * (itemWidth - remainder) <= itemWidth then roundedCount + 1 else roundedCount
  }

  lemma MulMonotone(a: int, b: int, w: nat)
    requires a <= b
    ensures a * w <= b * w
  {
    assert b * w - a * w == (b - a) * w;
  }

  /** The count is one of `floor(W / I)` and `floor(W / I) + 1`. */
  lemma VisibleCountIsFloorOrNext(containerWidth: nat, itemWidth: nat)
    requires itemWidth > 0
    ensures var count := CalculateVisibleParticipants(containerWidth, itemWidth);
      count == containerWidth / itemWidth || count == containerWidth / itemWidth + 1
  {
  }

  /** The only count within the two bounds of `CalculateVisibleParticipants`
      for a list exactly `k` cards wide is `k`. */
  lemma ExactFitBounds(k: nat, itemWidth: nat, count: nat)
    requires itemWidth > 0
    requires 20 * (count * itemWidth - k * itemWidth) <= itemWidth
    requires 20 * ((count + 1) * itemWidth - k * itemWidth) > itemWidth
    ensures count == k
  {
    if count > k {
      MulMonotone(k + 1, count, itemWidth);
      assert false;
    } else if count < k {
      MulMonotone(count + 1, k, itemWidth);
      assert false;
    }
  }

  /** When the cards fill the list exactly, the count is their number. */
  lemma VisibleCountOfExactFit(k: nat, itemWidth: nat)
    requires itemWidth > 0
    ensures CalculateVisibleParticipants(k * itemWidth, itemWidth) == k
  {
    ExactFitBounds(k, itemWidth, CalculateVisibleParticipants(k * itemWidth, itemWidth));
  }

  /** A wider list never shows fewer cards. */
  lemma VisibleCountMonotone(narrowWidth: nat, wideWidth: nat, itemWidth: nat)
    requires itemWidth > 0 && narrowWidth <= wideWidth
    ensures CalculateVisibleParticipants(narrowWidth, itemWidth) <= CalculateVisibleParticipants(wideWidth, itemWidth)
  {
    var narrow := CalculateVisibleParticipants(narrowWidth, itemWidth);
    var wide := CalculateVisibleParticipants(wideWidth, itemWidth);
    if narrow > wide {
      MulMonotone(wide + 1, narrow, itemWidth);
      assert false;
    }
  }

  /** 300 / 100 fits 3; 295 / 100 leaves the third card 95% visible, so 3;
      280 / 100 leaves it 80% visible, so 2. */
  lemma VisibleCountExamples()
    ensures CalculateVisibleParticipants(300, 100) == 3
    ensures CalculateVisibleParticipants(295, 100) == 3
    ensures CalculateVisibleParticipants(280, 100) == 2
  {
  }

  // ---------------------------------------------------------------------------
  // Moving the window
  // ---------------------------------------------------------------------------

  /** The extra spacing per card, in pixels, on viewports wider than 1350. */
  function Gap(innerWidth: int): nat
  {
    if innerWidth > 1350 then 20 else 0
  }

  /** The clamp of `moveParticipantsList`: the window may not start after the
      last full window. When more cards fit than there are, this is negative. */
  function Clamp(index: int, visible: nat, length: nat): (clamped: int)
    ensures clamped <= length - visible
    ensures index <= length - visible ==> clamped == index
    ensures visible > length ==> clamped < 0
  {
    Min(index, length - visible)
  }

  /** `handleClickNext` followed by the clamp: from a window in range, one
      window forward, stopping at the last window and never wrapping. */
  function NextIndex(index: int, visible: nat, length: nat): (next: int)
    ensures next <= length - visible
    ensures index <= length - visible ==> next == Min(index + visible, length - visible)
    ensures index <= length - visible ==> index <= next
    ensures index <= length - visible && visible > 0 ==> (next == index <==> index >= length - visible)
  {
    Clamp(if index + visible < length then index + visible else index, visible, length)
  }

  /** The auto-advance tick followed by the clamp: one window forward, and
      from the last window back to the first. */
  function TickIndex(index: int, visible: nat, length: nat): (next: int)
    ensures next <= length - visible
    ensures index < length - visible ==> next == Min(index + visible, length - visible)
    ensures visible <= length && index + visible >= length ==> next == 0
  {
    Clamp(if index + visible < length then index + visible else 0, visible, length)
  }

  /** `handleClickPrev` followed by the clamp: one window back, stopping at
      the first card; never negative when the cards fill the window. */
  function PrevIndex(index: int, visible: nat, length: nat): (prev: int)
    ensures prev <= length - visible
    ensures visible <= length ==> 0 <= prev
    ensures visible <= length && index <= length - visible ==> prev == Max(0, index - visible)
    ensures visible <= length && 0 <= index <= length - visible && visible > 0 ==> (prev == index <==> index <= 0)
  {
    Clamp(Max(0, index - visible), visible, length)
  }

  /** The resize handler's adjustment followed by the clamp, for the new
      number of visible cards: a window that still fits stays; one that no
      longer fits moves to the last full window. */
  function ResizeIndex(index: int, visible: nat, length: nat): (resized: int)
    ensures resized <= length - visible
    ensures index <= length - visible ==> resized == index
    ensures index > length - visible ==> resized == length - visible
  {
    Clamp(if index > length - visible then Max(0, length - visible) else index, visible, length)
  }

  /** `k` clicks on the next button. */
  function NextTimes(index: int, visible: nat, length: nat, k: nat): int
  {
    if k == 0 then index else NextIndex(NextTimes(index, visible, length, k - 1), visible, length)
  }

  /** `k` auto-advance ticks. */
  function TickTimes(index: int, visible: nat, length: nat, k: nat): int
  {
    if k == 0 then index else TickIndex(TickTimes(index, visible, length, k - 1), visible, length)
  }

  /** `k` clicks on the previous button. */
  function PrevTimes(index: int, visible: nat, length: nat, k: nat): int
  {
    if k == 0 then index else PrevIndex(PrevTimes(index, visible, length, k - 1), visible, length)
  }

  /** Manual navigation stops at the end: from the first card, `k` clicks on
      next reach window `k` or the last window, and stay there. */
  lemma {:induction false} ManualNextStopsAtEnd(visible: nat, length: nat, k: nat)
    requires visible <= length
    ensures NextTimes(0, visible, length, k) == Min(k * visible, length - visible)
  {
    if k > 0 {
      ManualNextStopsAtEnd(visible, length, k - 1);
      assert (k - 1) * visible + visible == k * visible;
    }
  }

  lemma MulSucc(m: nat, k: nat, w: nat)
    requires k == m + 1
    ensures k * w == m * w + w
  {
  }

  lemma PrevTimesStep(index: int, visible: nat, length: nat, m: nat, k: nat)
    requires k == m + 1
    ensures PrevTimes(index, visible, length, k) == PrevIndex(PrevTimes(index, visible, length, m), visible, length)
  {
  }

  /** One click on the previous button from `max(0, before)`, where `before`
      is at most the last window's start. */
  lemma PrevOfClamped(before: int, visible: nat, length: nat)
    requires visible <= length && before <= length - visible
    ensures PrevIndex(Max(0, before), visible, length) == Max(0, before - visible)
  {
  }

  /** Manual navigation back stops at the first card. */
  lemma {:induction false} ManualPrevStopsAtStart(index: int, visible: nat, length: nat, k: nat)
    requires visible <= length && 0 <= index <= length - visible
    ensures PrevTimes(index, visible, length, k) == Max(0, index - k * visible)
  {
    if k > 0 {
      var m: nat := k - 1;
      var before := index - m * visible;
      ManualPrevStopsAtStart(index, visible, length, m);
      PrevTimesStep(index, visible, length, m, k);
      MulSucc(m, k, visible);
      PrevOfClamped(before, visible, length);
    }
  }

  /** While a further window starts before the end, each tick moves one
      window forward (the last one clamped to the end of the list). */
  lemma {:induction false} AutoTickAdvances(visible: nat, length: nat, k: nat)
    requires 0 < visible <= length && k * visible < length
    ensures TickTimes(0, visible, length, k) == Min(k * visible, length - visible)
  {
    if k > 0 {
      assert (k - 1) * visible + visible == k * visible;
      AutoTickAdvances(visible, length, k - 1);
    }
  }

  /** Automatic playback loops: after as many ticks as there are windows
      (`pages`, the least `k` with `k * visible >= length`) the carousel is
      back at the first card, and not earlier. */
  lemma AutoTickLoops(visible: nat, length: nat, pages: nat)
    requires 0 < visible <= length
    requires pages > 0 && (pages - 1) * visible < length <= pages * visible
    ensures TickTimes(0, visible, length, pages) == 0
    ensures forall k :: 0 < k < pages ==> TickTimes(0, visible, length, k) > 0
  {
    AutoTickAdvances(visible, length, pages - 1);
    assert (pages - 1) * visible + visible == pages * visible;
    forall k | 0 < k < pages ensures TickTimes(0, visible, length, k) > 0 {
      MulMonotone(k, pages - 1, visible);
      MulMonotone(1, k, visible);
      AutoTickAdvances(visible, length, k);
    }
  }

  // ---------------------------------------------------------------------------
  // The carousel controller
  // ---------------------------------------------------------------------------

  /** The state `createCarousel` keeps in its closure, and what it writes to
      the page: the list's horizontal offset in pixels, the `disabled` state of
      the two buttons, and the two numbers of the "shown / count" indicator. */
  class Carousel {
    const participantsLength: nat
    var currentIndex: int
    var visibleItems: nat
    var offset: int
    var prevDisabled: bool
    var nextDisabled: bool
    var shownUpTo: int
    var shownCount: int

    /** The page agrees with the index, as `updateUI` leaves it. */
    ghost predicate Rendered()
      reads this
    {
      && currentIndex <= participantsLength - visibleItems
      && prevDisabled == (currentIndex <= 0)
      && nextDisabled == (currentIndex >= participantsLength - visibleItems)
      && shownUpTo == Min(currentIndex + visibleItems, participantsLength)
      && shownCount == participantsLength
    }

    /** `createCarousel` up to its first `updateUI`; the timer is not part of
        this model. The markup must hold at least one card: without one the
        first card is `null` and reading its width throws. */
    constructor (length: nat, listWidth: nat, itemWidth: nat, innerWidth: int)
      requires length > 0 && itemWidth > 0
      ensures Rendered() && participantsLength == length
      ensures visibleItems == CalculateVisibleParticipants(listWidth, itemWidth)
      ensures currentIndex == Clamp(0, visibleItems, length)
      ensures offset == currentIndex * (itemWidth + Gap(innerWidth))
    {
      participantsLength := length;
      currentIndex := 0;
      visibleItems := CalculateVisibleParticipants(listWidth, itemWidth);
      offset, prevDisabled, nextDisabled, shownUpTo, shownCount := 0, false, false, 0, 0;
      new;
      UpdateUI(itemWidth, innerWidth);
    }

    /** `moveParticipantsList`: clamps the index, then shifts the list left
        by one card width plus gap per card before the window. */
    method MoveParticipantsList(itemWidth: nat, innerWidth: int)
      modifies this`currentIndex, this`offset
      ensures currentIndex == Clamp(old(currentIndex), visibleItems, participantsLength)
      ensures offset == currentIndex * (itemWidth + Gap(innerWidth))
    {
      currentIndex := Min(currentIndex, participantsLength - visibleItems);
      offset := currentIndex * (itemWidth + Gap(innerWidth));
    }

    /** `updateButtonState` */
    method UpdateButtonState()
      modifies this`prevDisabled, this`nextDisabled
      ensures prevDisabled == (currentIndex <= 0)
      ensures nextDisabled == (currentIndex >= participantsLength - visibleItems)
    {
      prevDisabled := currentIndex <= 0;
      nextDisabled := currentIndex >= participantsLength - visibleItems;
    }

    /** `updateIndicator`: the number of the last card in the window. */
    method UpdateIndicator()
      modifies this`shownUpTo
      ensures shownUpTo == Min(currentIndex + visibleItems, participantsLength)
    {
      shownUpTo := Min(currentIndex + visibleItems, participantsLength);
    }

    /** `updateUI` */
    method UpdateUI(itemWidth: nat, innerWidth: int)
      modifies this`shownCount, this`currentIndex, this`offset, this`prevDisabled, this`nextDisabled, this`shownUpTo
      ensures Rendered()
      ensures currentIndex == Clamp(old(currentIndex), visibleItems, participantsLength)
      ensures offset == currentIndex * (itemWidth + Gap(innerWidth))
    {
      shownCount := participantsLength;
      MoveParticipantsList(itemWidth, innerWidth);
      UpdateButtonState();
      UpdateIndicator();
    }

    /** `handleClickNext`: one window forward while one starts before the end;
        otherwise the index stays (no wrap-around). */
    method HandleClickNext(itemWidth: nat, innerWidth: int)
      modifies this`shownCount, this`currentIndex, this`offset, this`prevDisabled, this`nextDisabled, this`shownUpTo
      ensures Rendered()
      ensures currentIndex == NextIndex(old(currentIndex), visibleItems, participantsLength)
      ensures offset == currentIndex * (itemWidth + Gap(innerWidth))
      ensures old(Rendered()) && old(nextDisabled) ==> currentIndex == old(currentIndex)
      ensures old(Rendered()) && visibleItems > 0 && !old(nextDisabled) ==> currentIndex > old(currentIndex)
    {
      if currentIndex + visibleItems < participantsLength {
        currentIndex := currentIndex + visibleItems;
      }
      UpdateUI(itemWidth, innerWidth);
    }

    /** `handleClickPrev`: one window back, not before the first card. */
    method HandleClickPrev(itemWidth: nat, innerWidth: int)
      modifies this`shownCount, this`currentIndex, this`offset, this`prevDisabled, this`nextDisabled, this`shownUpTo
      ensures Rendered()
      ensures currentIndex == PrevIndex(old(currentIndex), visibleItems, participantsLength)
      ensures offset == currentIndex * (itemWidth + Gap(innerWidth))
      ensures visibleItems <= participantsLength ==> 0 <= currentIndex
      ensures old(Rendered()) && visibleItems <= participantsLength && 0 <= old(currentIndex) && old(prevDisabled) ==>
        currentIndex == old(currentIndex)
    {
      currentIndex := Max(0, currentIndex - visibleItems);
      UpdateUI(itemWidth, innerWidth);
    }

    /** The body of the auto-advance timer: one window forward, or back to the
        first card when no further window starts before the end. */
    method AutoTick(itemWidth: nat, innerWidth: int)
      modifies this`shownCount, this`currentIndex, this`offset, this`prevDisabled, this`nextDisabled, this`shownUpTo
      ensures Rendered()
      ensures currentIndex == TickIndex(old(currentIndex), visibleItems, participantsLength)
      ensures offset == currentIndex * (itemWidth + Gap(innerWidth))
      ensures old(Rendered()) && visibleItems <= participantsLength && old(nextDisabled) ==> currentIndex == 0
    {
      if currentIndex + visibleItems < participantsLength {
        currentIndex := currentIndex + visibleItems;
      } else {
        currentIndex := 0;
      }
      UpdateUI(itemWidth, innerWidth);
    }

    /** The (debounced) resize handler: recounts the visible cards, moves a
        window that no longer fits to the last full window, and re-renders. */
    method HandleResize(listWidth: nat, itemWidth: nat, innerWidth: int)
      requires itemWidth > 0
      modifies this`visibleItems, this`shownCount, this`currentIndex, this`offset, this`prevDisabled, this`nextDisabled, this`shownUpTo
      ensures Rendered()
      ensures visibleItems == CalculateVisibleParticipants(listWidth, itemWidth)
      ensures currentIndex == ResizeIndex(old(currentIndex), visibleItems, participantsLength)
      ensures offset == currentIndex * (itemWidth + Gap(innerWidth))
      ensures visibleItems <= participantsLength && 0 <= old(currentIndex) ==> 0 <= currentIndex
    {
      visibleItems := CalculateVisibleParticipants(listWidth, itemWidth);
      if currentIndex > participantsLength - visibleItems {
        currentIndex := Max(0, participantsLength - visibleItems);
      }
      UpdateUI(itemWidth, innerWidth);
    }
  }

  /** Two participants in a list wide enough for three cards of 100 pixels:
      the clamp makes the index -1 and the offset -100 pixels; both buttons are
      disabled and the indicator reads 2 of 2. */
  method MoreRoomThanParticipants() returns (index: int, offsetPx: int, shown: int, prevOff: bool, nextOff: bool)
    ensures index == -1 && offsetPx == -100 && shown == 2 && prevOff && nextOff
  {
    VisibleCountExamples();
    var carousel := new Carousel(2, 300, 100, 1000);
    index, offsetPx, shown := carousel.currentIndex, carousel.offset, carousel.shownUpTo;
    prevOff, nextOff := carousel.prevDisabled, carousel.nextDisabled;
  }
}
