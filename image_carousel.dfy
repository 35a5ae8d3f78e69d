/** `ImageCarousel`: a list of image URLs shown one at a time. A missing or
    empty list shows a placeholder, a single image is shown without
    controls, and a longer list has previous/next buttons that wrap around,
    one dot per image, and an "i/n" counter. */
module ImageCarousel {
  import opened Wrappers
  import JsNumber

  /** Shown for an empty URL or an index past the end. */
  const Placeholder: string := "/placeholder.svg"

  /** The previous index, wrapping from the first image to the last. */
  function Previous(i: int, count: int): (r: int)
    ensures 0 <= i < count ==> 0 <= r < count
    ensures 0 < i ==> r == i - 1
    ensures i == 0 ==> r == count - 1
  {
    if i == 0 then count - 1 else i - 1
  }

  /** The next index, wrapping from the last image to the first. */
  function Next(i: int, count: int): (r: int)
    ensures 0 <= i < count ==> 0 <= r < count
    ensures 0 <= i < count ==> Previous(r, count) == i
    ensures i < count - 1 ==> r == i + 1
    ensures i == count - 1 ==> r == 0
  {
    if i == count - 1 then 0 else i + 1
  }

  /** Going back and then forward returns to the same image. */
  lemma NextUndoesPrevious(i: int, count: int)
    requires 0 <= i < count
    ensures Next(Previous(i, count), count) == i
  {
  }

  /** `n` presses of the next button. */
  function Forward(i: int, count: int, n: nat): int
  {
    if n == 0 then i else Next(Forward(i, count, n - 1), count)
  }

  /** Short of the last image, `n` presses move `n` places. */
  lemma {:induction false} ForwardNoWrap(i: int, count: int, n: nat)
    requires 0 <= i && i + n < count
    ensures Forward(i, count, n) == i + n
  {
    if n > 0 {
      ForwardNoWrap(i, count, n - 1);
    }
  }

  /** Pressing `a` times and then `b` times is pressing `a + b` times. */
  lemma {:induction false} ForwardAdds(i: int, count: int, a: nat, b: nat)
    ensures Forward(Forward(i, count, a), count, b) == Forward(i, count, a + b)
  {
    if b > 0 {
      ForwardAdds(i, count, a, b - 1);
    }
  }

  /** Going all the way round returns to the starting image: the first
      `count - i` presses reach the last image and wrap to the first, the
      remaining `i` presses come back. */
  lemma FullCircle(i: int, count: int)
    requires 0 <= i < count
    ensures Forward(i, count, count) == i
  {
    ForwardNoWrap(i, count, count - 1 - i);
    assert Forward(i, count, count - i) == 0;
    if i > 0 {
      ForwardNoWrap(0, count, i);
    }
    ForwardAdds(i, count, count - i, i);
  }

  /** What the component renders. */
  datatype View =
    | NoImage
    | Single(src: string)
    | Slides(src: string, alt: string, counter: string, dots: nat)

  /** `images[k] || "/placeholder.svg"` */
  function Source(images: seq<string>, k: int): (src: string)
    ensures 0 <= k < |images| && images[k] != "" ==> src == images[k]
    ensures !(0 <= k < |images|) || images[k] == "" ==> src == Placeholder
  {
    if 0 <= k < |images| && images[k] != "" then images[k] else Placeholder
  }

  /** The render for a list and a current index. */
  function Render(images: Option<seq<string>>, index: int, alt: string): (v: View)
    ensures v == NoImage <==> images.None? || images.value == []
    ensures v.Single? <==> images.Some? && |images.value| == 1
    ensures v.Single? ==> v.src == Source(images.value, 0)
    ensures v.Slides? ==> v.src == Source(images.value, index) && v.dots == |images.value|
    ensures v.Slides? ==>
      v.counter == JsNumber.IntToString(index + 1) + "/" + JsNumber.IntToString(|images.value|)
    ensures v.Slides? ==> v.alt == alt + " - Image " + JsNumber.IntToString(index + 1)
  {
    if images.None? || images.value == [] then NoImage
    else if |images.value| == 1 then Single(Source(images.value, 0))
    else
      var n := |images.value|;
      Slides(Source(images.value, index),
             alt + " - Image " + JsNumber.IntToString(index + 1),
             JsNumber.IntToString(index + 1) + "/" + JsNumber.IntToString(n),
             n)
  }

  /** The component's one piece of state, `currentIndex`, over a fixed
      image list. */
  class Carousel {
    const images: Option<seq<string>>
    var currentIndex: int

    /** The number of images. */
    function Count(): (n: nat)
      ensures images.None? ==> n == 0
      ensures images.Some? ==> n == |images.value|
    {
      if images.None? then 0 else |images.value|
    }

    /** The index always names one of the images. */
    ghost predicate Valid()
      reads this
    {
      Count() == 0 || 0 <= currentIndex < Count()
    }

    constructor(images: Option<seq<string>>)
      ensures this.images == images && currentIndex == 0
      ensures Valid()
    {
      this.images := images;
      currentIndex := 0;
    }

    /** `goToPrevious`; its button exists only for two or more images. */
    method GoToPrevious()
      requires Valid() && Count() > 1
      modifies this
      ensures Valid()
      ensures currentIndex == Previous(old(currentIndex), Count())
    {
      currentIndex := if currentIndex == 0 then Count() - 1 else currentIndex - 1;
    }

    /** `goToNext`; its button exists only for two or more images. */
    method GoToNext()
      requires Valid() && Count() > 1
      modifies this
      ensures Valid()
      ensures currentIndex == Next(old(currentIndex), Count())
    {
      currentIndex := if currentIndex == Count() - 1 then 0 else currentIndex + 1;
    }

    /** `goToSlide(k)` from the dot of image `k`. */
    method GoToSlide(k: int)
      requires Valid() && 0 <= k < Count()
      modifies this
      ensures Valid()
      ensures currentIndex == k
    {
      currentIndex := k;
    }

    /** The current render. */
    method Shown(alt: string) returns (v: View)
      requires Valid()
      ensures v == Render(images, currentIndex, alt)
      ensures v.Slides? ==> v.src == Placeholder || v.src in images.value
    {
      v := Render(images, currentIndex, alt);
    }
  }
}
