/** The screen-to-PDF arithmetic of `downloadPdf`: where on the first page
    the signature image is drawn, given where the user left it on screen.

    Screen space is CSS pixels with the origin at the top-left and Y growing
    downwards; PDF space is points with the origin at the bottom-left of the
    page and Y growing upwards. One scale factor (container pixels per page
    point, taken from the widths) is used for both axes. */
module Placement {
  import opened Geometry

  /** The page index and the options handed to pdf-lib's `drawImage`. */
  datatype DrawOptions = DrawOptions(pageIndex: nat, x: real, y: real, width: real, height: real)

  /** The drawn image is its natural PNG size divided by this factor. */
  const SizeDivisor: real := 2.0

  /** The draw always targets the first page of the document. */
  const TargetPage: nat := 0

  /** What the division by the scale needs: a page and a container of positive width. */
  predicate ValidGeometry(page: Size, container: Rect)
  {
    page.width > 0.0 && container.width > 0.0
  }

  /** Screen pixels per PDF point. */
  function PdfScale(containerWidth: real, pageWidth: real): (s: real)
    requires containerWidth > 0.0 && pageWidth > 0.0
    ensures s > 0.0
    ensures s * pageWidth == containerWidth
  {
    containerWidth / pageWidth
  }

  /** The inverse projection: the screen position of the top-left corner of
      the image drawn at `p`, for a page shown in `container`. */
  function ScreenTopLeft(p: DrawOptions, page: Size, container: Rect): Point
    requires ValidGeometry(page, container)
  {
    var scale := PdfScale(container.width, page.width);
    Point(container.left + p.x * scale, container.top + (page.height - (p.y + p.height)) * scale)
  }

  /** Where `downloadPdf` draws the signature: `page` is the first page's
      size in points, `png` the embedded image's natural size, `container`
      and `signature` the two elements' viewport rectangles. The drawn
      image's top-left corner is the image of the on-screen top-left corner;
      the on-screen width and height of the signature play no part. */
  function Place(page: Size, png: Size, container: Rect, signature: Rect): (p: DrawOptions)
    requires ValidGeometry(page, container)
    ensures p.pageIndex == TargetPage
    ensures ScreenTopLeft(p, page, container) == signature.TopLeft()
    ensures p.width * SizeDivisor == png.width && p.height * SizeDivisor == png.height
  {
    var scale := PdfScale(container.width, page.width);
    var width := png.width / SizeDivisor;
    var height := png.height / SizeDivisor;
    var x := (signature.left - container.left) / scale;
    var y := page.height - (signature.top - container.top) / scale - height;
    DivideThenScale(signature.left - container.left, scale);
    DivideThenScale(signature.top - container.top, scale);
    assert page.height - (y + height) == (signature.top - container.top) / scale;
    var p := DrawOptions(TargetPage, x, y, width, height);
    assert ScreenTopLeft(p, page, container).x == container.left + x * scale;
    assert ScreenTopLeft(p, page, container).y == container.top + (page.height - (y + height)) * scale;
    p
  }

  /** Dividing by a positive scale and multiplying back is the identity. */
  lemma DivideThenScale(d: real, scale: real)
    requires scale > 0.0
    ensures (d / scale) * scale == d
  {
  }

  /** Placing an image at the screen position of an existing placement
      reproduces that placement: together with `Place`'s own contract,
      `Place` and `ScreenTopLeft` are inverse bijections between screen
      top-left corners and first-page placements of the given size. */
  lemma PlaceOfScreenTopLeft(page: Size, png: Size, container: Rect, p: DrawOptions, w: real, h: real)
    requires ValidGeometry(page, container)
    requires p.pageIndex == TargetPage && p.width * SizeDivisor == png.width && p.height * SizeDivisor == png.height
    ensures var q := ScreenTopLeft(p, page, container);
      Place(page, png, container, Rect(q.x, q.y, w, h)) == p
  {
    var scale := PdfScale(container.width, page.width);
    var q := ScreenTopLeft(p, page, container);
    var r := Place(page, png, container, Rect(q.x, q.y, w, h));
    assert r.x * scale == p.x * scale;
    assert (r.y + r.height) * scale == (p.y + p.height) * scale;
  }

  /** A signature whose left edge is on the container's left edge lands on
      x = 0; one whose top edge is on the container's top edge hangs from
      the top of the page. */
  lemma PlaceAtContainerEdges(page: Size, png: Size, container: Rect, signature: Rect)
    requires ValidGeometry(page, container)
    ensures signature.left == container.left ==> Place(page, png, container, signature).x == 0.0
    ensures signature.top == container.top ==>
      Place(page, png, container, signature).y == page.height - png.height / 2.0
  {
  }

  /** Moving the signature down on screen strictly lowers it on the page;
      moving it right strictly moves it right. */
  lemma PlaceIsMonotone(page: Size, png: Size, container: Rect, s1: Rect, s2: Rect)
    requires ValidGeometry(page, container)
    ensures s1.top < s2.top ==> Place(page, png, container, s2).y < Place(page, png, container, s1).y
    ensures s1.left < s2.left ==> Place(page, png, container, s1).x < Place(page, png, container, s2).x
  {
  }

  /** Only the signature's position relative to the container matters:
      scrolling, which moves both viewport rectangles alike, does not
      change the placement. */
  lemma PlaceIgnoresScrolling(page: Size, png: Size, container: Rect, signature: Rect, dx: real, dy: real)
    requires ValidGeometry(page, container)
    ensures Place(page, png, container.Shifted(dx, dy), signature.Shifted(dx, dy))
         == Place(page, png, container, signature)
  {
  }

  /** Zooming the viewer by a factor k, which scales the container's width
      and the signature's offset within it alike, does not change the
      placement. */
  lemma PlaceIgnoresZoom(page: Size, png: Size, container: Rect, signature: Rect, k: real)
    requires ValidGeometry(page, container) && k > 0.0
    ensures
      var zoomed := Rect(container.left, container.top, k * container.width, container.height);
      var moved := Rect(container.left + k * (signature.left - container.left),
                        container.top + k * (signature.top - container.top),
                        signature.width, signature.height);
      Place(page, png, zoomed, moved) == Place(page, png, container, signature)
  {
  }

  /** The drawn size depends on the PNG alone: neither the on-screen size
      of the signature nor where it is, nor the zoom, changes it. */
  lemma PlaceSizeIgnoresScreen(page: Size, png: Size, c1: Rect, s1: Rect, c2: Rect, s2: Rect)
    requires ValidGeometry(page, c1) && ValidGeometry(page, c2)
    ensures Place(page, png, c1, s1).width == Place(page, png, c2, s2).width
    ensures Place(page, png, c1, s1).height == Place(page, png, c2, s2).height
  {
  }

  /** The drawn image lies wholly on the page exactly when its footprint,
      scaled back to screen pixels and hung from the signature's on-screen
      top-left corner, lies wholly on the rendered page (which spans the
      container's width and the page height times the scale). */
  lemma PlacementOnPageIff(page: Size, png: Size, container: Rect, signature: Rect)
    requires ValidGeometry(page, container)
    ensures
      var p := Place(page, png, container, signature);
      var s := PdfScale(container.width, page.width);
      (0.0 <= p.x && p.x + p.width <= page.width && 0.0 <= p.y && p.y + p.height <= page.height)
      <==>
      (container.left <= signature.left && signature.left + p.width * s <= container.left + container.width
       && container.top <= signature.top && signature.top + p.height * s <= container.top + page.height * s)
  {
  }

  /** A US-letter page (612 x 792 points) shown 306 pixels wide, so at half
      size; a 400 x 200 PNG whose top-left is 50 pixels right of and below
      the container's top-left is drawn at (100, 592) with size 200 x 100. */
  lemma PlaceLetterPageAtHalfSize(containerLeft: real, containerTop: real)
    ensures
      var container := Rect(containerLeft, containerTop, 306.0, 396.0);
      var signature := Rect(containerLeft + 50.0, containerTop + 50.0, 400.0, 200.0);
      Place(Size(612.0, 792.0), Size(400.0, 200.0), container, signature)
        == DrawOptions(0, 100.0, 592.0, 200.0, 100.0)
  {
  }
}
