/** The state of the signing page's component: the loaded document, the
    signature pad dialog, the captured signature, and the position and drag
    state of the signature shown over the document. Browser and library
    calls are not part of the model: what the component reads from the DOM,
    from the signature pad or from pdf-lib arrives as a method parameter. */
module AppComponentModel {
  import opened Wrappers
  import opened Geometry
  import opened Placement
  import opened DragModel

  /** JavaScript truthiness of an optional string: `undefined` and the empty
      string are both falsy. */
  predicate Truthy(v: Option<string>)
  {
    v.Some? && v.value != ""
  }

  /** How a call of `downloadPdf` ends. */
  datatype DownloadOutcome =
    | NothingToSign                  // no signature or no document: returns at once
    | Thrown                         // pdf-lib or the container lookup threw; the catch logs it
    | SignatureElementMissing        // the overlay image is not in the DOM: logs and returns
    | Drawn(placement: DrawOptions)    // the signature is drawn at this placement

  class AppComponent {
    /** The uploaded document as a data URL. */
    var src: Option<string>
    var showSignaturePad: bool
    /** The captured signature as a PNG data URL. */
    var signatureDataURL: Option<string>
    var signaturePosition: Point
    var isDragging: bool
    var dragOffset: Point
    /** Whether `pdfContainerElement` refers to an element. */
    var hasPdfContainer: bool
    /** Whether the `signaturePad` field has been assigned. */
    var hasSignaturePad: bool

    /** The part of the state the drag handlers work on. */
    function DragView(): DragState
      reads this
    {
      DragState(isDragging, dragOffset, signaturePosition)
    }

    /** The field initialisers: nothing loaded, pad hidden, no signature,
        the signature's position at (100, 100), no drag in progress. */
    constructor ()
      ensures src == None && signatureDataURL == None
      ensures !showSignaturePad && !hasPdfContainer && !hasSignaturePad
      ensures DragView() == Initial
    {
      src := None;
      showSignaturePad := false;
      signatureDataURL := None;
      signaturePosition := Point(100.0, 100.0);
      isDragging := false;
      dragOffset := Point(0.0, 0.0);
      hasPdfContainer := false;
      hasSignaturePad := false;
    }

    /** `ngAfterViewInit`: look up the PDF container; `found` is whether the
        query matched an element. */
    method NgAfterViewInit(found: bool)
      modifies this`hasPdfContainer
      ensures hasPdfContainer == found
    {
      hasPdfContainer := found;
    }

    /** The file reader's `onload` callback: a truthy result becomes the
        document; a falsy one leaves the previous document in place. */
    method OnFileLoaded(result: Option<string>)
      modifies this`src
      ensures src == if Truthy(result) then result else old(src)
    {
      if Truthy(result) {
        src := result;
      }
    }

    method OpenSignaturePad()
      modifies this`showSignaturePad
      ensures showSignaturePad
    {
      showSignaturePad := true;
    }

    /** The deferred half of `openSignaturePad`: the pad is created on the
        canvas. */
    method InitializeSignaturePad()
      modifies this`hasSignaturePad
      ensures hasSignaturePad
    {
      hasSignaturePad := true;
    }

    method CloseSignaturePad()
      modifies this`showSignaturePad
      ensures !showSignaturePad
    {
      showSignaturePad := false;
    }

    /** `showSignatureOnPdf`: with a signature and a container, a draggable
        image of the signature is put at the current signature position and
        its closure-based drag handlers are returned; otherwise nothing
        happens. */
    method ShowSignatureOnPdf() returns (overlay: Option<ImageDrag>)
      ensures overlay.Some? <==> Truthy(signatureDataURL) && hasPdfContainer
      ensures overlay.Some? ==>
        fresh(overlay.value) && overlay.value.app == this
        && overlay.value.left == signaturePosition.x && overlay.value.top == signaturePosition.y
        && overlay.value.offsetX == 0.0 && overlay.value.offsetY == 0.0
    {
      if !Truthy(signatureDataURL) {
        return None;
      }
      if hasPdfContainer {
        var image := new ImageDrag(this, signaturePosition.x, signaturePosition.y);
        overlay := Some(image);
      } else {
        overlay := None;
      }
    }

    /** `saveSignature`: `padIsEmpty` is the pad's answer to `isEmpty()` and
        `dataURL` its `toDataURL('image/png')`. Only an existing, non-empty
        pad replaces the signature (and shows it over the document); the
        dialog is closed in every case. */
    method SaveSignature(padIsEmpty: bool, dataURL: string) returns (overlay: Option<ImageDrag>)
      modifies this`signatureDataURL, this`showSignaturePad
      ensures signatureDataURL == if hasSignaturePad && !padIsEmpty then Some(dataURL) else old(signatureDataURL)
      ensures !showSignaturePad
      ensures overlay.Some? <==> hasSignaturePad && !padIsEmpty && dataURL != "" && hasPdfContainer
      ensures overlay.Some? ==>
        fresh(overlay.value) && overlay.value.app == this
        && overlay.value.left == signaturePosition.x && overlay.value.top == signaturePosition.y
        && overlay.value.offsetX == 0.0 && overlay.value.offsetY == 0.0
    {
      overlay := None;
      if hasSignaturePad && !padIsEmpty {
        signatureDataURL := Some(dataURL);
        overlay := ShowSignatureOnPdf();
      }
      CloseSignaturePad();
    }

    /** `startDrag`: `image` is the signature image's bounding rectangle,
        None when there is no signature image. */
    method StartDrag(pointer: Point, image: Option<Rect>)
      modifies this`isDragging, this`dragOffset
      ensures DragView() == Step(old(DragView()), Down(pointer, image))
    {
      if image.None? {
        return;
      }
      isDragging := true;
      dragOffset := Offset(pointer, image.value.TopLeft());
    }

    /** `drag`: `imagePresent` says whether the signature image exists. */
    method Drag(pointer: Point, imagePresent: bool)
      modifies this`signaturePosition
      ensures DragView() == Step(old(DragView()), Move(pointer, imagePresent))
    {
      if !isDragging || !imagePresent {
        return;
      }
      signaturePosition := Point(pointer.x - dragOffset.x, pointer.y - dragOffset.y);
    }

    method StopDrag()
      modifies this`isDragging
      ensures DragView() == Step(old(DragView()), Up)
    {
      isDragging := false;
    }

    /** `downloadPdf` up to the call of `drawImage`. The parameters are what
        the libraries and the DOM answer: `page` the first page's size, None
        when loading failed or there is no page; `png` the embedded image's
        size, None when embedding failed; `container` the PDF container's
        rectangle, None when there is no container; `signatureElement` the
        signature image's rectangle, None when it is not found. The method
        changes no field of the component. */
    method DownloadPdf(page: Option<Size>, png: Option<Size>, container: Option<Rect>,
                       signatureElement: Option<Rect>) returns (outcome: DownloadOutcome)
      requires Truthy(signatureDataURL) && Truthy(src) && page.Some? && png.Some? && container.Some?
               ==> ValidGeometry(page.value, container.value)
      ensures outcome.NothingToSign? <==> !Truthy(signatureDataURL) || !Truthy(src)
      ensures outcome.Thrown? <==>
        Truthy(signatureDataURL) && Truthy(src) && (page.None? || png.None? || container.None?)
      ensures outcome.SignatureElementMissing? <==>
        Truthy(signatureDataURL) && Truthy(src) && page.Some? && png.Some? && container.Some?
        && signatureElement.None?
      ensures outcome.Drawn? ==>
        page.Some? && png.Some? && container.Some? && signatureElement.Some?
        && outcome.placement == Place(page.value, png.value, container.value, signatureElement.value)
    {
      if !Truthy(signatureDataURL) || !Truthy(src) {
        return NothingToSign;
      }
      if page.None? || png.None? || container.None? {
        return Thrown;
      }
      if signatureElement.None? {
        return SignatureElementMissing;
      }
      outcome := Drawn(Place(page.value, png.value, container.value, signatureElement.value));
    }
  }

  /** The closure state of `enableDragFunctionality` for one signature
      image: the grab offset the closures share and the image's inline
      `left`/`top`. Its handlers share `isDragging` with the component. */
  class ImageDrag {
    const app: AppComponent
    var offsetX: real
    var offsetY: real
    var left: real
    var top: real

    /** `enableDragFunctionality` on an image placed at (left, top). */
    constructor (app: AppComponent, left: real, top: real)
      ensures this.app == app && this.left == left && this.top == top
      ensures offsetX == 0.0 && offsetY == 0.0
    {
      this.app := app;
      this.left := left;
      this.top := top;
      offsetX := 0.0;
      offsetY := 0.0;
    }

    /** The `mousedown` closure: (offsetLeft, offsetTop) is the image's
        layout position. */
    method StartDrag(pointer: Point, offsetLeft: real, offsetTop: real)
      modifies this`offsetX, this`offsetY, app`isDragging
      ensures app.isDragging
      ensures offsetLeft + offsetX == pointer.x && offsetTop + offsetY == pointer.y
    {
      app.isDragging := true;
      offsetX := pointer.x - offsetLeft;
      offsetY := pointer.y - offsetTop;
    }

    /** The `mousemove` closure: while the component is dragging, the image
        follows the pointer at the recorded grab offset. */
    method Drag(pointer: Point)
      modifies this`left, this`top
      ensures app.isDragging ==> left + offsetX == pointer.x && top + offsetY == pointer.y
      ensures !app.isDragging ==> left == old(left) && top == old(top)
    {
      if app.isDragging {
        left := pointer.x - offsetX;
        top := pointer.y - offsetY;
      }
    }

    /** The `mouseup` closure: the drag ends and the component's signature
        position becomes the image's viewport top-left, `bounds`. */
    method EndDrag(bounds: Rect)
      modifies app`isDragging, app`signaturePosition
      ensures !app.isDragging && app.signaturePosition == bounds.TopLeft()
    {
      app.isDragging := false;
      app.signaturePosition := bounds.TopLeft();
    }
  }

  /** Pressing on the image and moving without moving the pointer leaves
      the image at the layout position it had when pressed. */
  method ClosureFirstDragDoesNotJump(drag: ImageDrag, pointer: Point, offsetLeft: real, offsetTop: real)
    modifies drag, drag.app
    ensures drag.left == offsetLeft && drag.top == offsetTop
  {
    drag.StartDrag(pointer, offsetLeft, offsetTop);
    drag.Drag(pointer);
  }

  /** After `stopDrag`, a `drag` does not move the signature. */
  method StopThenDragKeepsPosition(app: AppComponent, pointer: Point, imagePresent: bool)
    modifies app
    ensures !app.isDragging && app.signaturePosition == old(app.signaturePosition)
  {
    app.StopDrag();
    app.Drag(pointer, imagePresent);
  }
}
