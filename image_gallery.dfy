/**
 * The listing's image gallery: a main image with arrows, dots and
 * thumbnails, and a lightbox with a grid view, zoom and keyboard control.
 */
module Gallery {

  /** `(i + 1) % n`: the next image, wrapping from the last to the first. */
  function NextIndex(i: int, n: int): (r: int)
    requires n > 0 && 0 <= i < n
    ensures 0 <= r < n
    ensures r == if i == n - 1 then 0 else i + 1
  {
    (i + 1) % n
  }

  /** `(i - 1 + n) % n`: the previous image, wrapping from the first to the last. */
  function PrevIndex(i: int, n: int): (r: int)
    requires n > 0 && 0 <= i < n
    ensures 0 <= r < n
    ensures r == if i == 0 then n - 1 else i - 1
  {
    (i - 1 + n) % n
  }

  /** Going back after going forward, or forward after going back, returns to the same image. */
  lemma NextPrevInverse(i: int, n: int)
    requires n > 0 && 0 <= i < n
    ensures PrevIndex(NextIndex(i, n), n) == i
    ensures NextIndex(PrevIndex(i, n), n) == i
  {
  }

  /** The index after `k` presses of the next arrow. */
  function Advance(i: int, k: nat, n: int): (r: int)
    requires n > 0 && 0 <= i < n
    ensures 0 <= r < n
  {
    if k == 0 then i else NextIndex(Advance(i, k - 1, n), n)
  }

  /** Pressing `a` times and then `b` times is pressing `a + b` times. */
  lemma {:induction false} AdvanceAdd(i: int, a: nat, b: nat, n: int)
    requires n > 0 && 0 <= i < n
    ensures Advance(i, a + b, n) == Advance(Advance(i, a, n), b, n)
  {
    if b > 0 {
      AdvanceAdd(i, a, b - 1, n);
      assert a + b - 1 == a + (b - 1);
    }
  }

  /** Short of the end, `k` presses move exactly `k` places. */
  lemma {:induction false} AdvanceNoWrap(i: int, k: nat, n: int)
    requires n > 0 && 0 <= i < n && i + k < n
    ensures Advance(i, k, n) == i + k
  {
    if k > 0 {
      AdvanceNoWrap(i, k - 1, n);
    }
  }

  /** Pressing the next arrow once per image comes back to the image one started from. */
  lemma FullCycle(i: int, n: int)
    requires n > 0 && 0 <= i < n
    ensures Advance(i, n, n) == i
  {
    AdvanceNoWrap(i, n - i - 1, n);
    assert Advance(i, n - i, n) == 0;
    AdvanceAdd(i, n - i, i, n);
    assert n - i + i == n;
    if i > 0 {
      AdvanceNoWrap(0, i, n);
    }
  }

  /** What the gallery draws for `n` images, outside the lightbox. */
  datatype Layout = Layout(rendered: bool, arrows: bool, dots: nat, thumbnails: nat, overflow: nat)

  /**
   * Nothing renders without images; the arrows and the thumbnail strip need
   * two or more; the strip holds the first four at most, the fourth carrying
   * a `+(n-4)` overlay when there are more; one dot per image shows only up
   * to eight images.
   */
  function GalleryLayout(n: nat): (l: Layout)
    ensures l.rendered <==> n > 0
    ensures l.arrows <==> n > 1
    ensures l.dots == (if 1 < n <= 8 then n else 0)
    ensures l.thumbnails <= 4 && l.thumbnails <= n
    ensures l.thumbnails == 0 <==> n <= 1
    ensures 1 < n <= 4 ==> l.thumbnails == n
    ensures l.overflow > 0 <==> n > 4
    ensures l.overflow > 0 ==> l.thumbnails == 4 && l.thumbnails + l.overflow == n
  {
    Layout(
      n > 0,
      n > 1,
      if n > 1 && n <= 8 then n else 0,
      if n > 1 then (if n < 4 then n else 4) else 0,
      if n > 1 && n > 4 then n - 4 else 0)
  }

  class ImageGallery {
    const images: seq<string>
    var currentIndex: int
    var lightboxOpen: bool
    var showGrid: bool
    var isZoomed: bool

    /** The index names an image, and the lightbox is open only when there are images to show. */
    ghost predicate Valid()
      reads this
    {
      && (|images| > 0 ==> 0 <= currentIndex < |images|)
      && (|images| == 0 ==> currentIndex == 0 && !lightboxOpen)
    }

    constructor (images: seq<string>)
      ensures this.images == images
      ensures Valid()
      ensures currentIndex == 0 && !lightboxOpen && !showGrid && !isZoomed
    {
      this.images := images;
      currentIndex := 0;
      lightboxOpen := false;
      showGrid := false;
      isZoomed := false;
    }

    /** `goToNext`: one image on, wrapping round, and zoom off. */
    method GoToNext()
      requires Valid() && |images| > 0
      modifies this`currentIndex, this`isZoomed
      ensures Valid()
      ensures currentIndex == NextIndex(old(currentIndex), |images|)
      ensures !isZoomed
    {
      currentIndex := (currentIndex + 1) % |images|;
      isZoomed := false;
    }

    /** `goToPrev`: one image back, wrapping round, and zoom off. */
    method GoToPrev()
      requires Valid() && |images| > 0
      modifies this`currentIndex, this`isZoomed
      ensures Valid()
      ensures currentIndex == PrevIndex(old(currentIndex), |images|)
      ensures !isZoomed
    {
      currentIndex := (currentIndex - 1 + |images|) % |images|;
      isZoomed := false;
    }

    /** `goToImage`, from a tile of the lightbox grid or strip: that image, grid closed, zoom off. */
    method GoToImage(idx: int)
      requires Valid() && 0 <= idx < |images|
      modifies this`currentIndex, this`showGrid, this`isZoomed
      ensures Valid()
      ensures currentIndex == idx && !showGrid && !isZoomed
    {
      currentIndex := idx;
      showGrid := false;
      isZoomed := false;
    }

    /** A dot or thumbnail click: only the index changes, zoom and grid stay as they are. */
    method ShowImage(idx: int)
      requires Valid() && 0 <= idx < |images|
      modifies this`currentIndex
      ensures Valid()
      ensures currentIndex == idx
    {
      currentIndex := idx;
    }

    /** Opening (a click on the main image or on "View All Photos") or closing the lightbox. */
    method SetLightboxOpen(open: bool)
      requires Valid() && (open ==> |images| > 0)
      modifies this`lightboxOpen
      ensures Valid()
      ensures lightboxOpen == open
    {
      lightboxOpen := open;
    }

    /** The `+(n-4)` overlay on the fourth thumbnail opens the lightbox on its grid. */
    method OpenOverflow()
      requires Valid() && |images| > 4
      modifies this`lightboxOpen, this`showGrid
      ensures Valid()
      ensures lightboxOpen && showGrid
    {
      lightboxOpen := true;
      showGrid := true;
    }

    /** The grid button of the lightbox. */
    method ToggleGrid()
      modifies this`showGrid
      ensures showGrid == !old(showGrid)
    {
      showGrid := !showGrid;
    }

    /** A click on the lightbox image. */
    method ToggleZoom()
      modifies this`isZoomed
      ensures isZoomed == !old(isZoomed)
    {
      isZoomed := !isZoomed;
    }

    /**
     * The key handler, installed only while the lightbox is open: the arrows
     * navigate, Escape closes the lightbox, `g` toggles the grid, and every
     * other key (and every key while the lightbox is closed) does nothing.
     */
    method HandleKey(key: string)
      requires Valid()
      modifies this`currentIndex, this`isZoomed, this`lightboxOpen, this`showGrid
      ensures Valid()
      ensures !old(lightboxOpen) ==> unchanged(this)
      ensures old(lightboxOpen) && key == "ArrowRight" ==>
        currentIndex == NextIndex(old(currentIndex), |images|) && !isZoomed
        && lightboxOpen && showGrid == old(showGrid)
      ensures old(lightboxOpen) && key == "ArrowLeft" ==>
        currentIndex == PrevIndex(old(currentIndex), |images|) && !isZoomed
        && lightboxOpen && showGrid == old(showGrid)
      ensures old(lightboxOpen) && key == "Escape" ==>
        !lightboxOpen && currentIndex == old(currentIndex) && showGrid == old(showGrid) && isZoomed == old(isZoomed)
      ensures old(lightboxOpen) && key == "g" ==>
        showGrid == !old(showGrid) && lightboxOpen && currentIndex == old(currentIndex) && isZoomed == old(isZoomed)
      ensures key !in {"ArrowRight", "ArrowLeft", "Escape", "g"} ==> unchanged(this)
    {
      if !lightboxOpen {
        return;
      }
      if key == "ArrowRight" {
        GoToNext();
      } else if key == "ArrowLeft" {
        GoToPrev();
      } else if key == "Escape" {
        lightboxOpen := false;
      } else if key == "g" {
        showGrid := !showGrid;
      }
    }
  }
}
