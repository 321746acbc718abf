/** The home-page units carousel of `scripts/carousel.js`: a closure holding
    the slide index and the largest index, moved by the arrow buttons, the
    `goNext`/`goPrev` globals and the indicator dots. */
module Carousel {

  /** Cards visible at once. */
  const SlidesToShow: int := 4
  /** Card width plus gap, in pixels. */
  const SlideWidth: int := 310

  /** What `updateCarousel` writes to the page. */
  datatype View = View(translateX: int, prevDisabled: bool, nextDisabled: bool, activeIndicator: int)

  class SimpleCarousel {
    var slideIndex: int
    var maxSlides: int
    /** False once `initSimpleCarousel` hid the arrow buttons. */
    var buttonsShown: bool
    /** Number of dots `createIndicators` made. */
    var indicators: int

    ghost predicate Valid()
      reads this
    {
      0 <= slideIndex <= maxSlides && indicators == maxSlides + 1
    }

    /** `start()`: `initSimpleCarousel` then `createIndicators`, on a page
      with `totalCards` cards. With at most four cards the buttons are
      hidden and the largest index stays 0. */
    constructor Start(totalCards: nat)
      ensures Valid() && slideIndex == 0
      ensures buttonsShown <==> totalCards > SlidesToShow
      ensures maxSlides == if totalCards <= SlidesToShow then 0 else totalCards - SlidesToShow
      ensures indicators == maxSlides + 1
    {
      var largest := if totalCards <= SlidesToShow then 0 else totalCards - SlidesToShow;
      slideIndex := 0;
      maxSlides := largest;
      buttonsShown := totalCards > SlidesToShow;
      indicators := largest + 1;
    }

    /** `updateCarousel`: the track offset and the button and dot states. */
    function Render(): (v: View)
      reads this
      requires Valid()
      ensures v.prevDisabled <==> slideIndex == 0
      ensures v.nextDisabled <==> slideIndex == maxSlides
      ensures 0 <= v.translateX <= SlideWidth * maxSlides
      ensures 0 <= v.activeIndicator < indicators
    {
      View(slideIndex * SlideWidth, slideIndex <= 0, slideIndex >= maxSlides, slideIndex)
    }

    /** The next button, or `goNext`: one step right unless at the end. */
    method Next()
      requires Valid()
      modifies this
      ensures Valid() && maxSlides == old(maxSlides) && buttonsShown == old(buttonsShown) && indicators == old(indicators)
      ensures slideIndex == Step(old(slideIndex), maxSlides, true)
    {
      if slideIndex < maxSlides {
        slideIndex := slideIndex + 1;
      }
    }

    /** The previous button, or `goPrev`: one step left unless at 0. */
    method Previous()
      requires Valid()
      modifies this
      ensures Valid() && maxSlides == old(maxSlides) && buttonsShown == old(buttonsShown) && indicators == old(indicators)
      ensures slideIndex == Step(old(slideIndex), maxSlides, false)
    {
      if slideIndex > 0 {
        slideIndex := slideIndex - 1;
      }
    }

    /** A click on dot `i`; the dots are numbered 0 to `maxSlides`. */
    method SelectIndicator(i: int)
      requires Valid() && 0 <= i < indicators
      modifies this
      ensures Valid() && maxSlides == old(maxSlides) && buttonsShown == old(buttonsShown) && indicators == old(indicators)
      ensures slideIndex == i
    {
      slideIndex := i;
    }
  }

  /** The index after one click on the next (`forward`) or previous arrow:
      it moves only when the guard lets it. */
  function Step(index: int, maxSlides: int, forward: bool): (r: int)
    requires 0 <= index <= maxSlides
    ensures 0 <= r <= maxSlides
    ensures forward ==> (r == index + 1 || (r == index && index == maxSlides))
    ensures !forward ==> (r == index - 1 || (r == index && index == 0))
  {
    if forward then (if index < maxSlides then index + 1 else index)
    else (if index > 0 then index - 1 else index)
  }

  /** A disabled button is exactly one whose click changes nothing, and a
      step back undoes a step forward that moved. */
  lemma DisabledMeansNoMove(index: int, maxSlides: int)
    requires 0 <= index <= maxSlides
    ensures Step(index, maxSlides, true) == index <==> index >= maxSlides
    ensures Step(index, maxSlides, false) == index <==> index <= 0
    ensures index < maxSlides ==> Step(Step(index, maxSlides, true), maxSlides, false) == index
  {
  }
}
