/**
 * The image carousel of a project detail page: a main image with previous/next arrows,
 * thumbnails that jump to an image, and a zoom toggle.
 */
module ProjectImageCarousel {
  import opened Wrappers
  import opened Wraparound

  /** The carousel's state over the list of image URLs it was given. */
  class Carousel {
    const images: seq<string>
    var currentImageIndex: int
    var isZoomed: bool

    /** The index is on an image, or 0 when there are none (only the placeholder is shown then). */
    ghost predicate Valid()
      reads this
    {
      if |images| == 0 then currentImageIndex == 0 else 0 <= currentImageIndex < |images|
    }

    constructor(images: seq<string>)
      ensures Valid()
      ensures this.images == images && currentImageIndex == 0 && !isZoomed
    {
      this.images := images;
      currentImageIndex := 0;
      isZoomed := false;
    }

    /** The image on display: none for an empty list, where the placeholder is rendered instead. */
    function MainImage(): (r: Option<string>)
      requires Valid()
      reads this
      ensures r.None? <==> |images| == 0
      ensures r.Some? ==> r.value == images[currentImageIndex]
    {
      if |images| == 0 then None else Some(images[currentImageIndex])
    }

    /** `handlePrevious`: one image back, wrapping from the first to the last. */
    method HandlePrevious()
      requires Valid() && |images| > 0
      modifies this
      ensures Valid()
      ensures currentImageIndex == Pred(old(currentImageIndex), |images|)
      ensures isZoomed == old(isZoomed)
    {
      currentImageIndex := if currentImageIndex == 0 then |images| - 1 else currentImageIndex - 1;
    }

    /** `handleNext`: one image forward, wrapping from the last to the first. */
    method HandleNext()
      requires Valid() && |images| > 0
      modifies this
      ensures Valid()
      ensures currentImageIndex == Succ(old(currentImageIndex), |images|)
      ensures isZoomed == old(isZoomed)
    {
      currentImageIndex := if currentImageIndex == |images| - 1 then 0 else currentImageIndex + 1;
    }

    /** `handleThumbnailClick`: thumbnails are rendered one per image and pass their own index. */
    method HandleThumbnailClick(index: int)
      requires Valid() && 0 <= index < |images|
      modifies this
      ensures Valid()
      ensures currentImageIndex == index && MainImage() == Some(images[index])
      ensures isZoomed == old(isZoomed)
    {
      currentImageIndex := index;
    }

    /** `toggleZoom`: flips the zoom, so a second toggle restores it. */
    method ToggleZoom()
      requires Valid()
      modifies this
      ensures Valid()
      ensures isZoomed == !old(isZoomed)
      ensures currentImageIndex == old(currentImageIndex)
    {
      isZoomed := !isZoomed;
    }
  }

  /** The carousel's "next" expression is the cyclic successor. */
  lemma NextIsSucc(i: nat, n: nat)
    requires i < n
    ensures (if i == n - 1 then 0 else i + 1) == Succ(i, n)
  {
    if i < n - 1 {
      ModOfSmall(i + 1, n);
    }
  }
}
