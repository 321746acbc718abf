/** The shared page script `scripts/main.js`: which navigation entry is the
    current page, the home-page units carousel (module globals moved by the
    arrow buttons, the dots and window resizes) and the testimonials slider
    (a closure with its own index and a ready flag). */
module MainPage {
  import opened Wrappers
  import opened JsText

  const Inicio: string := "inicio"
  const Unidades: string := "unidades"
  const Empresa: string := "empresa"
  const Contacto: string := "contacto"

  predicate IsPage(p: string) {
    p == Inicio || p == Unidades || p == Empresa || p == Contacto
  }

  /** `path.split('/').pop()`: the text after the last '/'. */
  function FileName(path: string): (r: string)
    ensures |r| <= |path| && r == path[|path| - |r|..]
    ensures forall k :: 0 <= k < |r| ==> r[k] != '/'
    ensures r == path || path[|path| - |r| - 1] == '/'
  {
    if path == [] || path[|path| - 1] == '/' then []
    else FileName(path[..|path| - 1]) + [path[|path| - 1]]
  }

  /** The `pageMap` table of `getCurrentPageName`: the page a file name
      belongs to; the root ('') and any unknown file count as the home page. */
  function PageOfFile(fileName: string): (r: string)
    ensures IsPage(r)
    ensures r == Unidades <==> fileName == "unidadesDisponibles.html"
    ensures r == Empresa <==> fileName == "LarrosaCamiones.html"
    ensures r == Contacto <==> fileName == "contacto.html"
  {
    if fileName == "unidadesDisponibles.html" then Unidades
    else if fileName == "LarrosaCamiones.html" then Empresa
    else if fileName == "contacto.html" then Contacto
    else Inicio
  }

  /** `getCurrentPageName`: the page of the last segment of the URL path. */
  function GetCurrentPageName(path: string): (r: string)
    ensures IsPage(r)
    ensures r == PageOfFile(FileName(path))
    ensures (forall k :: 0 <= k < |path| ==> path[k] != '/') ==> r == PageOfFile(path)
  {
    PageOfFile(FileName(path))
  }

  /** `getPageFromHref(href)` for the `href` attribute of a navigation link
      (`None` when the attribute is absent): the home anchor, 'index.html'
      and '/' first, then the first page file the link mentions. */
  function GetPageFromHref(href: Option<string>): (r: string)
    ensures IsPage(r)
    ensures (href.None? || href.value == "") ==> r == Inicio
    ensures r == Unidades <==> (href.Some? && !Contains(href.value, "#inicio") && href.value != "index.html"
                                && href.value != "/" && Contains(href.value, "unidadesDisponibles.html"))
    ensures r == Empresa <==> (href.Some? && !Contains(href.value, "#inicio") && href.value != "index.html"
                               && href.value != "/" && !Contains(href.value, "unidadesDisponibles.html")
                               && Contains(href.value, "LarrosaCamiones.html"))
  {
    if href.None? || href.value == "" then Inicio
    else
      var h := href.value;
      if Contains(h, "#inicio") || h == "index.html" || h == "/" then Inicio
      else if Contains(h, "unidadesDisponibles.html") then Unidades
      else if Contains(h, "LarrosaCamiones.html") then Empresa
      else if Contains(h, "contacto.html") then Contacto
      else Inicio
  }

  /** A navigation link whose `href` is a page's own file name is the one
      highlighted on that page: the link lookup agrees with the page table. */
  lemma LinkMatchesPage(file: string)
    requires file == "index.html" || file == "unidadesDisponibles.html" || file == "LarrosaCamiones.html"
      || file == "contacto.html"
    ensures GetPageFromHref(Some(file)) == PageOfFile(file)
  {
    if file == "unidadesDisponibles.html" {
      UnidadesLink(file);
    } else if file == "LarrosaCamiones.html" {
      EmpresaLink(file);
    } else if file == "contacto.html" {
      ContactoLink(file);
    }
  }

  lemma UnidadesLink(file: string)
    requires file == "unidadesDisponibles.html"
    ensures GetPageFromHref(Some(file)) == Unidades
  {
    ContainsSelf(file);
    Lacks(file, "#inicio", '#');
  }

  lemma EmpresaLink(file: string)
    requires file == "LarrosaCamiones.html"
    ensures GetPageFromHref(Some(file)) == Empresa
  {
    ContainsSelf(file);
    Lacks(file, "#inicio", '#');
    Lacks(file, "unidadesDisponibles.html", 'u');
  }

  lemma ContactoLink(file: string)
    requires file == "contacto.html"
    ensures GetPageFromHref(Some(file)) == Contacto
  {
    ContainsSelf(file);
    Lacks(file, "#inicio", '#');
    Lacks(file, "unidadesDisponibles.html", 'u');
    Lacks(file, "LarrosaCamiones.html", 'L');
  }

  /** A text without the needle's first character does not contain it. */
  lemma Lacks(s: string, p: string, c: char)
    requires |p| > 0 && p[0] == c && c !in s
    ensures !Contains(s, p)
  {
    if Contains(s, p) {
      ContainsNeeds(s, p);
    }
  }

  /** `updateCardsPerView`: cards visible at a window width. */
  function CardsPerView(width: int): (r: int)
    ensures 1 <= r <= 4
    ensures r == 1 <==> width <= 480
    ensures r == 4 <==> width > 1024
    ensures r == 2 <==> 480 < width <= 768
  {
    if width <= 480 then 1
    else if width <= 768 then 2
    else if width <= 1024 then 3
    else 4
  }

  /** A wider window never shows fewer cards. */
  lemma CardsPerViewMonotone(narrow: int, wide: int)
    requires narrow <= wide
    ensures CardsPerView(narrow) <= CardsPerView(wide)
  {
  }

  /** `Math.max(0, carouselTotalSlides - carouselCardsPerView)` */
  function MaxSlide(total: int, perView: int): (r: int)
    ensures r >= 0 && r >= total - perView
    ensures r == 0 || r == total - perView
  {
    if total - perView > 0 then total - perView else 0
  }

  /** Card width plus gap, in pixels. */
  const CardStep: int := 310

  /** What `updateCarouselDisplay` writes: the track offset (shown negated
      in `translateX`), the button states and the highlighted dot. */
  datatype Display = Display(offset: int, prevDisabled: bool, nextDisabled: bool, activeIndicator: int)

  /** The module globals `carouselCurrentSlide`, `carouselTotalSlides`,
      `carouselCardsPerView` and `carouselInitialized`, plus the number of
      indicator dots on the page. */
  class HomeCarousel {
    var currentSlide: int
    var totalSlides: int
    var cardsPerView: int
    var initialized: bool
    var indicators: int

    /** The slide is within the range the arrows keep it in. */
    predicate InBounds()
      reads this
    {
      0 <= currentSlide <= MaxSlide(totalSlides, cardsPerView)
    }

    /** The globals as the script declares them. */
    constructor ()
      ensures currentSlide == 0 && totalSlides == 0 && cardsPerView == 4
      ensures !initialized && indicators == 0
    {
      currentSlide := 0;
      totalSlides := 0;
      cardsPerView := 4;
      initialized := false;
      indicators := 0;
    }

    /** `initializeCarousel` on a page with `cards` unit cards and a window
      `width` wide: nothing after the first success; with no cards it
      records the count and stops; otherwise it sizes the view, draws
      `MaxSlide + 1` dots and marks itself initialised. */
    method Initialize(cards: nat, width: int)
      modifies this
      ensures currentSlide == old(currentSlide)
      ensures old(initialized) ==> (totalSlides == old(totalSlides) && cardsPerView == old(cardsPerView)
                                    && initialized && indicators == old(indicators))
      ensures !old(initialized) ==> totalSlides == cards
      ensures !old(initialized) && cards == 0 ==> (!initialized && cardsPerView == old(cardsPerView)
                                                   && indicators == old(indicators))
      ensures !old(initialized) && cards > 0 ==> (initialized && cardsPerView == CardsPerView(width)
                                                  && indicators == MaxSlide(cards, cardsPerView) + 1)
    {
      if initialized {
        return;
      }
      totalSlides := cards;
      if cards == 0 {
        return;
      }
      cardsPerView := CardsPerView(width);
      indicators := MaxSlide(totalSlides, cardsPerView) + 1;
      initialized := true;
    }

    /** `moveToPrevious`: one slide left unless at the first. */
    method MoveToPrevious()
      modifies this
      ensures currentSlide == (if old(currentSlide) > 0 then old(currentSlide) - 1 else old(currentSlide))
      ensures totalSlides == old(totalSlides) && cardsPerView == old(cardsPerView)
      ensures initialized == old(initialized) && indicators == old(indicators)
      ensures old(InBounds()) ==> InBounds()
    {
      if currentSlide > 0 {
        currentSlide := currentSlide - 1;
      }
    }

    /** `moveToNext`: one slide right unless the last card is in view. */
    method MoveToNext()
      modifies this
      ensures currentSlide == (if old(currentSlide) < MaxSlide(totalSlides, cardsPerView)
        then old(currentSlide) + 1 else old(currentSlide))
      ensures totalSlides == old(totalSlides) && cardsPerView == old(cardsPerView)
      ensures initialized == old(initialized) && indicators == old(indicators)
      ensures old(InBounds()) ==> InBounds()
    {
      var maxSlide := MaxSlide(totalSlides, cardsPerView);
      if currentSlide < maxSlide {
        currentSlide := currentSlide + 1;
      }
    }

    /** A click on dot `i`. */
    method SelectIndicator(i: int)
      requires 0 <= i < indicators
      modifies this
      ensures currentSlide == i
      ensures totalSlides == old(totalSlides) && cardsPerView == old(cardsPerView)
      ensures initialized == old(initialized) && indicators == old(indicators)
    {
      currentSlide := i;
    }

    /** The resize listener: the view is re-sized and the dots redrawn, but
      the current slide is left where it was. */
    method Resize(width: int)
      modifies this
      ensures cardsPerView == CardsPerView(width)
      ensures indicators == MaxSlide(totalSlides, cardsPerView) + 1
      ensures currentSlide == old(currentSlide) && totalSlides == old(totalSlides)
      ensures initialized == old(initialized)
    {
      cardsPerView := CardsPerView(width);
      indicators := MaxSlide(totalSlides, cardsPerView) + 1;
    }

    /** `updateCarouselDisplay` */
    function Render(): (d: Display)
      reads this
      ensures d.offset == CardStep * currentSlide
      ensures d.prevDisabled <==> currentSlide == 0
      ensures d.nextDisabled <==> currentSlide >= MaxSlide(totalSlides, cardsPerView)
      ensures InBounds() ==> 0 <= d.activeIndicator <= MaxSlide(totalSlides, cardsPerView)
    {
      Display(CardStep * currentSlide, currentSlide == 0,
        currentSlide >= MaxSlide(totalSlides, cardsPerView), currentSlide)
    }
  }

  /** Dots are drawn for slides 0 to `MaxSlide`, so every dot a click can
      reach is a slide the arrows could reach too. */
  lemma IndicatorsCoverSlides(total: int, perView: int, i: int)
    requires 0 <= i < MaxSlide(total, perView) + 1
    ensures 0 <= i <= MaxSlide(total, perView)
  {
  }

  /** Narrowing the window keeps the slide in range, since it can only
      raise the largest slide. */
  lemma NarrowingKeepsBound(total: int, slide: int, width: int, narrower: int)
    requires narrower <= width
    requires 0 <= slide <= MaxSlide(total, CardsPerView(width))
    ensures 0 <= slide <= MaxSlide(total, CardsPerView(narrower))
  {
    CardsPerViewMonotone(narrower, width);
  }

  /** Widening the window can leave the slide past the new largest slide:
      with eight cards a phone-width view can reach slide 6, a desktop view
      only slide 4. */
  lemma WideningBreaksBound()
    ensures 6 <= MaxSlide(8, CardsPerView(480))
    ensures MaxSlide(8, CardsPerView(1200)) < 6
  {
  }

  /** Pixels per testimonial card, gap included. */
  const TestimonialWidth: int := 350

  /** The largest testimonial index: two cards are in view. */
  function LastTestimonial(total: int): (r: int)
    ensures r >= 0 && r >= total - 2
    ensures r == 0 || r == total - 2
  {
    if total - 2 > 0 then total - 2 else 0
  }

  /** The index after `next` (`forward`) or `previous` on a ready slider:
      both wrap around between 0 and the last index. */
  function TestimonialStep(index: int, total: int, forward: bool): (r: int)
    requires 0 <= index <= LastTestimonial(total)
    ensures 0 <= r <= LastTestimonial(total)
    ensures forward ==> r == (if index == LastTestimonial(total) then 0 else index + 1)
    ensures !forward ==> r == (if index == 0 then LastTestimonial(total) else index - 1)
  {
    if forward then (if index < LastTestimonial(total) then index + 1 else 0)
    else (if index > 0 then index - 1 else LastTestimonial(total))
  }

  /** `previous` undoes `next` and `next` undoes `previous`: the slider is
      a rotation of the indices 0 to `LastTestimonial`. */
  lemma TestimonialStepsInverse(index: int, total: int)
    requires 0 <= index <= LastTestimonial(total)
    ensures TestimonialStep(TestimonialStep(index, total, true), total, false) == index
    ensures TestimonialStep(TestimonialStep(index, total, false), total, true) == index
  {
  }

  /** The closure variables `slideIndex`, `totalTestimonials` and `isReady`
      of `TestimonialsSystem`. */
  class Testimonials {
    var slideIndex: int
    var total: int
    var isReady: bool

    /** Once ready, the index is one the arrows can reach. */
    predicate Valid()
      reads this
    {
      isReady ==> 0 <= slideIndex <= LastTestimonial(total)
    }

    constructor ()
      ensures Valid() && slideIndex == 0 && total == 0 && !isReady
    {
      slideIndex := 0;
      total := 0;
      isReady := false;
    }

    /** `init()` after the elements were found, with `cards` testimonial
      cards: it fails on an empty track and otherwise starts at 0, ready. */
    method Init(cards: nat) returns (ok: bool)
      modifies this
      ensures total == cards
      ensures ok <==> cards > 0
      ensures ok ==> Valid() && slideIndex == 0 && isReady
      ensures !ok ==> slideIndex == old(slideIndex) && isReady == old(isReady)
      ensures !old(isReady) ==> Valid()
    {
      total := cards;
      if cards == 0 {
        return false;
      }
      slideIndex := 0;
      isReady := true;
      return true;
    }

    /** `next()`: a no-op until ready. */
    method Next()
      requires Valid()
      modifies this
      ensures Valid() && total == old(total) && isReady == old(isReady)
      ensures isReady ==> slideIndex == TestimonialStep(old(slideIndex), total, true)
      ensures !isReady ==> slideIndex == old(slideIndex)
    {
      if !isReady {
        return;
      }
      var maxSlide := LastTestimonial(total);
      if slideIndex < maxSlide {
        slideIndex := slideIndex + 1;
      } else {
        slideIndex := 0;
      }
    }

    /** `previous()`: a no-op until ready. */
    method Previous()
      requires Valid()
      modifies this
      ensures Valid() && total == old(total) && isReady == old(isReady)
      ensures isReady ==> slideIndex == TestimonialStep(old(slideIndex), total, false)
      ensures !isReady ==> slideIndex == old(slideIndex)
    {
      if !isReady {
        return;
      }
      if slideIndex > 0 {
        slideIndex := slideIndex - 1;
      } else {
        slideIndex := LastTestimonial(total);
      }
    }

    /** `reset()`: back to the first card. */
    method Reset()
      requires Valid()
      modifies this
      ensures Valid() && slideIndex == 0 && total == old(total) && isReady == old(isReady)
    {
      slideIndex := 0;
    }

    /** `repair()`: not ready until `init` runs again. */
    method Repair()
      requires Valid()
      modifies this
      ensures Valid() && !isReady && slideIndex == old(slideIndex) && total == old(total)
    {
      isReady := false;
    }

    /** `updateView`: the track offset. */
    function Offset(): (r: int)
      reads this
      requires Valid() && isReady
      ensures 0 <= r <= TestimonialWidth * LastTestimonial(total)
      ensures r % TestimonialWidth == 0
    {
      slideIndex * TestimonialWidth
    }
  }
}
