/** The company page of `scripts/LarrosaCamiones.js`: the facilities
    gallery with its keyboard navigation, the social-network share links,
    and the click counter of the hidden message. */
module CompanyPage {
  import opened Wrappers
  import opened JsText

  /** `galleryImages.findIndex(src => src === x)`: the first position of
      `x`, or -1 when it is not there. */
  function FindIndex(s: seq<string>, x: string): (r: int)
    ensures -1 <= r < |s|
    ensures r == -1 <==> x !in s
    ensures r >= 0 ==> s[r] == x && forall j :: 0 <= j < r ==> s[j] != x
  {
    if s == [] then -1
    else if s[0] == x then 0
    else
      var i := FindIndex(s[1..], x);
      if i == -1 then -1 else i + 1
  }

  /** The index `navigateGallery` computes before showing an image: past
      the end to the first, before the start to the last. */
  function Wrap(i: int, count: int): (r: int)
    requires count > 0
    ensures 0 <= r < count
    ensures 0 <= i < count ==> r == i
    ensures i >= count ==> r == 0
    ensures i < 0 ==> r == count - 1
  {
    if i >= count then 0 else if i < 0 then count - 1 else i
  }

  /** `currentGalleryImage` after `navigateGallery(direction)` as written:
      the wrapped index is shown, and then the index is looked up again by
      the shown source, which finds its first occurrence. */
  function NavigatedAsWritten(gallery: seq<string>, current: int, direction: int): int
    requires |gallery| > 0
  {
    FindIndex(gallery, gallery[Wrap(current + direction, |gallery|)])
  }

  /** `currentGalleryImage` after `navigateGallery(direction)` with the
      wrapped index kept. */
  function Navigated(gallery: seq<string>, current: int, direction: int): int
    requires |gallery| > 0
  {
    Wrap(current + direction, |gallery|)
  }

  predicate Distinct(gallery: seq<string>) {
    forall i, j :: 0 <= i < j < |gallery| ==> gallery[i] != gallery[j]
  }

  /** With no source twice in the gallery the lookup finds the wrapped
      index itself, so the code as written does what was meant. */
  lemma AsWrittenWithoutDuplicates(gallery: seq<string>, current: int, direction: int)
    requires |gallery| > 0 && Distinct(gallery)
    ensures NavigatedAsWritten(gallery, current, direction) == Navigated(gallery, current, direction)
  {
  }

  /** The index after `n` presses of the right arrow, as written. */
  function RightPressesAsWritten(gallery: seq<string>, current: int, n: nat): int
    requires |gallery| > 0
    decreases n
  {
    if n == 0 then current else RightPressesAsWritten(gallery, NavigatedAsWritten(gallery, current, 1), n - 1)
  }

  /** The index after `n` presses of the right arrow, with the index kept. */
  function RightPresses(gallery: seq<string>, current: int, n: nat): int
    requires |gallery| > 0
    decreases n
  {
    if n == 0 then current else RightPresses(gallery, Navigated(gallery, current, 1), n - 1)
  }

  /** A gallery whose main image is also its first thumbnail. */
  const Doubled: seq<string> := ["planta.jpg", "planta.jpg", "taller.jpg"]

  /** In `Doubled`, the right arrow from the first image shows the second
      copy, whose lookup sends the index back to 0: however often it is
      pressed, the index stays 0 and "taller.jpg" is never shown. */
  lemma {:induction false} StuckOnDuplicate(n: nat)
    ensures RightPressesAsWritten(Doubled, 0, n) == 0
    ensures Doubled[Wrap(RightPressesAsWritten(Doubled, 0, n) + 1, |Doubled|)] != "taller.jpg"
  {
    assert NavigatedAsWritten(Doubled, 0, 1) == 0 by {
      assert Doubled[1] == Doubled[0];
    }
    if n > 0 {
      StuckOnDuplicate(n - 1);
    }
  }

  /** Presses from `current` that stay before the end move one image on
      each. */
  lemma {:induction false} RightPressesStep(gallery: seq<string>, current: int, n: nat)
    requires 0 <= current && current + n < |gallery|
    ensures RightPresses(gallery, current, n) == current + n
    decreases n
  {
    if n > 0 {
      RightPressesStep(gallery, current + 1, n - 1);
    }
  }

  /** `a` presses and then `b` more are `a + b` presses. */
  lemma {:induction false} RightPressesAdd(gallery: seq<string>, current: int, a: nat, b: nat)
    requires |gallery| > 0
    ensures RightPresses(gallery, current, a + b) == RightPresses(gallery, RightPresses(gallery, current, a), b)
    decreases a
  {
    if a > 0 {
      RightPressesAdd(gallery, Navigated(gallery, current, 1), a - 1, b);
    }
  }

  /** With the index kept, the right arrow reaches every image, whatever
      the sources are: `target` is shown after fewer presses than there
      are images. */
  lemma RightPressesReachEvery(gallery: seq<string>, current: int, target: int)
    requires 0 <= current < |gallery| && 0 <= target < |gallery|
    ensures var n := if target >= current then target - current else |gallery| - current + target;
      n < |gallery| && RightPresses(gallery, current, n) == target
  {
    if target >= current {
      RightPressesStep(gallery, current, target - current);
    } else {
      var toLast := |gallery| - 1 - current;
      RightPressesStep(gallery, current, toLast);
      RightPressesAdd(gallery, current, toLast, 1);
      RightPressesAdd(gallery, current, toLast + 1, target);
      RightPressesStep(gallery, 0, target);
    }
  }

  /** The encoded share text, `encodeURIComponent` of the page's motto. */
  const EncodedTitle: string := "Larrosa%20Camiones%20-%2040%20a%C3%B1os%20comercializando%20camiones"
  const Https: string := "https://"
  const FacebookShare: string := Https + "www.facebook.com/sharer/sharer.php?u="
  const TwitterShare: string := Https + "twitter.com/intent/tweet?url="
  const LinkedinShare: string := Https + "www.linkedin.com/sharing/share-offsite/?url="
  const WhatsappShare: string := Https + "wa.me/?text="

  /** The address `shareOnSocial(platform)` opens for the encoded page
      address `url`; nothing for a platform it does not know. */
  function ShareUrl(platform: string, url: string): (r: Option<string>)
    ensures r.Some? <==> platform in {"facebook", "twitter", "linkedin", "whatsapp"}
  {
    if platform == "facebook" then Some(FacebookShare + url)
    else if platform == "twitter" then Some(TwitterShare + url + "&text=" + EncodedTitle)
    else if platform == "linkedin" then Some(LinkedinShare + url)
    else if platform == "whatsapp" then Some(WhatsappShare + EncodedTitle + " " + url)
    else None
  }

  /** Every share link is an https address that carries the page address. */
  lemma ShareCarriesPage(platform: string, url: string)
    requires ShareUrl(platform, url).Some?
    ensures var u := ShareUrl(platform, url).value; StartsWith(u, Https) && exists i :: OccursAt(u, url, i)
  {
    if platform == "facebook" {
      HttpsAddress("www.facebook.com/sharer/sharer.php?u=");
      CarriesUrl(FacebookShare, url);
    } else if platform == "twitter" {
      HttpsAddress("twitter.com/intent/tweet?url=");
      CarriesUrl(TwitterShare, url);
      var s1 := TwitterShare + url;
      KeepsUrl(s1, "&text=", url, |TwitterShare|);
      KeepsUrl(s1 + "&text=", EncodedTitle, url, |TwitterShare|);
    } else if platform == "linkedin" {
      HttpsAddress("www.linkedin.com/sharing/share-offsite/?url=");
      CarriesUrl(LinkedinShare, url);
    } else {
      HttpsAddress("wa.me/?text=");
      KeepsUrl(WhatsappShare, EncodedTitle, Https, 0);
      KeepsUrl(WhatsappShare + EncodedTitle, " ", Https, 0);
      CarriesUrl(WhatsappShare + EncodedTitle + " ", url);
    }
  }

  lemma HttpsAddress(rest: string)
    ensures StartsWith(Https + rest, Https) && OccursAt(Https + rest, Https, 0)
  {
    assert (Https + rest)[..|Https|] == Https;
  }

  /** An https address followed by the page address carries it. */
  lemma CarriesUrl(prefix: string, url: string)
    requires StartsWith(prefix, Https)
    ensures StartsWith(prefix + url, Https) && OccursAt(prefix + url, url, |prefix|)
  {
    assert (prefix + url)[..|Https|] == prefix[..|Https|];
    assert (prefix + url)[|prefix|..|prefix| + |url|] == url;
  }

  /** Appending text keeps what the address starts with and the page
      address where it was. */
  lemma KeepsUrl(s: string, t: string, url: string, i: int)
    requires StartsWith(s, Https) && OccursAt(s, url, i)
    ensures StartsWith(s + t, Https) && OccursAt(s + t, url, i)
  {
    assert (s + t)[..|Https|] == s[..|Https|];
    assert (s + t)[i..i + |url|] == s[i..i + |url|];
  }

  /** The counter of clicks on the company card after one click: a click
      on the card counts, and the fifth shows the message and starts over. */
  function ClickStep(count: int, onCard: bool): (int, bool) {
    if !onCard then (count, false)
    else if count + 1 == 5 then (0, true)
    else (count + 1, false)
  }

  /** The counter and how often the message was shown after `n` clicks on
      the card. */
  function CardClicks(count: int, n: nat): (int, nat) {
    if n == 0 then (count, 0)
    else
      var (c, shown) := CardClicks(count, n - 1);
      var (c2, fired) := ClickStep(c, true);
      (c2, shown + if fired then 1 else 0)
  }

  /** From a counter below 5, `n` card clicks leave `(count + n) % 5` and
      show the message once per fifth click. */
  lemma {:induction false} EveryFifthClick(count: int, n: nat)
    requires 0 <= count < 5
    ensures CardClicks(count, n) == ((count + n) % 5, (count + n) / 5)
  {
    if n > 0 {
      EveryFifthClick(count, n - 1);
    }
  }

  /** The page state the script keeps. */
  class Page {
    var galleryImages: seq<string>
    var currentGalleryImage: int
    var mainSrc: string
    var keysBound: bool
    var clickCount: int

    /** The gallery, once set up, has the main image and at least one
        thumbnail, and the index is a position in it or -1; the counter
        stays below 5. */
    predicate Valid()
      reads this
    {
      (keysBound <==> |galleryImages| > 0) &&
      (!keysBound ==> currentGalleryImage == 0) &&
      (keysBound ==> |galleryImages| >= 2 && -1 <= currentGalleryImage < |galleryImages|) &&
      0 <= clickCount < 5
    }

    constructor (mainImageSrc: string)
      ensures Valid() && galleryImages == [] && currentGalleryImage == 0 && mainSrc == mainImageSrc
      ensures !keysBound && clickCount == 0
    {
      galleryImages := [];
      currentGalleryImage := 0;
      mainSrc := mainImageSrc;
      keysBound := false;
      clickCount := 0;
    }

    /** `initializeGallery()`: without a main image or thumbnails nothing
        is set up; otherwise the main image and then every thumbnail are
        pushed, and the arrow keys are listened to. */
    method InitializeGallery(hasMainImage: bool, thumbnails: seq<string>)
      requires Valid() && !keysBound
      modifies this
      ensures Valid()
      ensures hasMainImage && |thumbnails| > 0 ==> galleryImages == [old(mainSrc)] + thumbnails && keysBound
      ensures !(hasMainImage && |thumbnails| > 0) ==> galleryImages == old(galleryImages) && !keysBound
      ensures currentGalleryImage == old(currentGalleryImage) && mainSrc == old(mainSrc) && clickCount == old(clickCount)
    {
      if !hasMainImage || |thumbnails| == 0 {
        return;
      }
      galleryImages := galleryImages + [mainSrc];
      var i := 0;
      while i < |thumbnails|
        invariant 0 <= i <= |thumbnails|
        invariant galleryImages == [mainSrc] + thumbnails[..i]
        invariant currentGalleryImage == old(currentGalleryImage) && mainSrc == old(mainSrc)
        invariant clickCount == old(clickCount) && keysBound == old(keysBound)
      {
        galleryImages := galleryImages + [thumbnails[i]];
        i := i + 1;
      }
      assert thumbnails[..i] == thumbnails;
      keysBound := true;
    }

    /** `changeGalleryImage(newSrc)`: the main image shows `newSrc` and
        the index is its first position in the gallery. */
    method ChangeGalleryImage(newSrc: string)
      requires Valid() && keysBound
      modifies this
      ensures Valid() && mainSrc == newSrc && currentGalleryImage == FindIndex(galleryImages, newSrc)
      ensures galleryImages == old(galleryImages) && keysBound && clickCount == old(clickCount)
    {
      mainSrc := newSrc;
      currentGalleryImage := FindIndex(galleryImages, newSrc);
    }

    /** A click on the `k`-th thumbnail. */
    method ClickThumbnail(k: int)
      requires Valid() && keysBound && 0 <= k < |galleryImages| - 1
      modifies this
      ensures galleryImages == old(galleryImages) && clickCount == old(clickCount)
      ensures Valid() && mainSrc == galleryImages[k + 1]
      ensures 0 <= currentGalleryImage <= k + 1 && galleryImages[currentGalleryImage] == mainSrc
    {
      ChangeGalleryImage(galleryImages[k + 1]);
    }

    /** `navigateGallery(direction)` as written. */
    method NavigateGalleryAsWritten(direction: int)
      requires Valid() && keysBound
      modifies this
      ensures galleryImages == old(galleryImages) && clickCount == old(clickCount)
      ensures Valid() && currentGalleryImage == NavigatedAsWritten(galleryImages, old(currentGalleryImage), direction)
      ensures mainSrc == galleryImages[Wrap(old(currentGalleryImage) + direction, |galleryImages|)]
    {
      currentGalleryImage := currentGalleryImage + direction;
      if currentGalleryImage >= |galleryImages| {
        currentGalleryImage := 0;
      } else if currentGalleryImage < 0 {
        currentGalleryImage := |galleryImages| - 1;
      }
      ChangeGalleryImage(galleryImages[currentGalleryImage]);
    }

    /** `navigateGallery(direction)` keeping the index it computed: the
        main image is the image at that index. */
    method NavigateGallery(direction: int)
      requires Valid() && keysBound
      modifies this
      ensures galleryImages == old(galleryImages) && clickCount == old(clickCount)
      ensures Valid() && currentGalleryImage == Navigated(galleryImages, old(currentGalleryImage), direction)
      ensures mainSrc == galleryImages[currentGalleryImage]
    {
      var next := currentGalleryImage + direction;
      if next >= |galleryImages| {
        next := 0;
      } else if next < 0 {
        next := |galleryImages| - 1;
      }
      currentGalleryImage := next;
      mainSrc := galleryImages[next];
    }

    /** The `keydown` listener `initializeGallery` adds: the arrows call
        `navigateGallery` as written, so the index is re-derived from the
        shown source. */
    method KeyDown(key: string)
      requires Valid()
      modifies this
      ensures Valid() && galleryImages == old(galleryImages) && clickCount == old(clickCount)
      ensures !keysBound || (key != "ArrowLeft" && key != "ArrowRight") ==>
        currentGalleryImage == old(currentGalleryImage) && mainSrc == old(mainSrc)
      ensures keysBound && key == "ArrowLeft" ==>
        currentGalleryImage == NavigatedAsWritten(galleryImages, old(currentGalleryImage), -1)
        && mainSrc == galleryImages[Navigated(galleryImages, old(currentGalleryImage), -1)]
      ensures keysBound && key == "ArrowRight" ==>
        currentGalleryImage == NavigatedAsWritten(galleryImages, old(currentGalleryImage), 1)
        && mainSrc == galleryImages[Navigated(galleryImages, old(currentGalleryImage), 1)]
    {
      if !keysBound {
        return;
      }
      if key == "ArrowLeft" {
        NavigateGalleryAsWritten(-1);
      } else if key == "ArrowRight" {
        NavigateGalleryAsWritten(1);
      }
    }

    /** The same listener over the corrected `navigateGallery`, which keeps
        the index it computed. */
    method KeyDownIntended(key: string)
      requires Valid()
      modifies this
      ensures Valid() && galleryImages == old(galleryImages) && clickCount == old(clickCount)
      ensures !keysBound || (key != "ArrowLeft" && key != "ArrowRight") ==>
        currentGalleryImage == old(currentGalleryImage) && mainSrc == old(mainSrc)
      ensures keysBound && key == "ArrowLeft" ==> currentGalleryImage == Navigated(galleryImages, old(currentGalleryImage), -1)
      ensures keysBound && key == "ArrowRight" ==> currentGalleryImage == Navigated(galleryImages, old(currentGalleryImage), 1)
      ensures keysBound && (key == "ArrowLeft" || key == "ArrowRight") ==> mainSrc == galleryImages[currentGalleryImage]
    {
      if !keysBound {
        return;
      }
      if key == "ArrowLeft" {
        NavigateGallery(-1);
      } else if key == "ArrowRight" {
        NavigateGallery(1);
      }
    }

    /** The document `click` listener; `modalShown` tells whether the
        message was shown. */
    method Click(onCard: bool) returns (modalShown: bool)
      requires Valid()
      modifies this
      ensures Valid() && (clickCount, modalShown) == ClickStep(old(clickCount), onCard)
      ensures galleryImages == old(galleryImages) && currentGalleryImage == old(currentGalleryImage)
      ensures mainSrc == old(mainSrc) && keysBound == old(keysBound)
    {
      modalShown := false;
      if onCard {
        clickCount := clickCount + 1;
        if clickCount == 5 {
          modalShown := true;
          clickCount := 0;
        }
      }
    }
  }
}
