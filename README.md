# Doc-E-Sign signing component, modelled in Dafny

Doc-E-Sign is an Angular page for signing PDFs in the browser. The user loads a
PDF, draws a signature on a signature pad, and drags the signature over the
rendered page. On download, the signature PNG is drawn into the first page of
the PDF. All of this lives in one component, `AppComponent`
(`src/app/app.component.ts`). This project models that component's logic:

- `placement.dfy` (module `Placement`): the arithmetic `downloadPdf` uses to turn the
  signature's on-screen rectangle into the `drawImage` options. The scale is container
  width over page width. The Y axis is flipped because PDF space starts at the
  bottom-left. The drawn size is half the PNG's natural size. The page is always page 0.
  Exact `real` arithmetic is used.
- `drag_model.dfy` (module `DragModel`): the drag state touched by the `startDrag`,
  `drag` and `stopDrag` handlers, as a value with one `Step` per handler call. It also
  has lemmas about whole sequences of pointer events.
- `app_component.dfy` (module `AppComponentModel`): class `AppComponent` with the
  component's fields and one method per handler. Each drag handler is specified by
  `DragModel.Step`. `DownloadPdf` models the guards and the placement handed to
  `drawImage`. Class `ImageDrag` models the closures of `enableDragFunctionality`: its
  own grab offset, the image's inline `left`/`top`, and the `isDragging` flag it
  shares with the component.
- `geometry.dfy` and `wrappers.dfy`: points, rectangles, sizes and `Option`.

Everything the component reads from the browser becomes a method parameter:
bounding rectangles, whether an element exists, the pad's `isEmpty()` and
`toDataURL()`, and pdf-lib's page and image sizes or its failures. The one
exception is the container lookup made in `ngAfterViewInit`: as in the
component, its result is kept in a field (`hasPdfContainer`). JavaScript truthiness is modelled (`Truthy`): an empty
string counts as no value in the guards.

The code has these particulars, and the model keeps them:

- The Y formula subtracts the drawn height (PNG height / 2). It does not subtract the
  on-screen height divided by the scale. So the drawn image's top-left corner maps back
  exactly to the on-screen top-left corner (`Place`), but the drawn size does not depend
  on the on-screen size (`PlaceSizeIgnoresScreen`).
- The size divisor is 2. The page is always index 0.
- Dragging is absolute (pointer minus grab offset). There is no resizing, no
  finalize/undo step, no page navigation and no page-index check, so
  the model has none of them either.

## Model

| member | source | states |
|---|---|---|
| Placement.PdfScale | src/app/app.component.ts:159 | the scale is positive and, times the page width, gives the container width |
| Placement.Place | src/app/app.component.ts:148-179 | the placement targets page 0; mapped back to screen, its top-left corner is the signature's on-screen top-left (X scaled from the container's left edge, Y flipped from the page top); its width and height are half the PNG's |
| Placement.PlaceOfScreenTopLeft | src/app/app.component.ts:170-171 | placing at the screen position of any page-0, half-PNG-size placement gives back that placement, so `Place` and `ScreenTopLeft` are inverse |
| Placement.PlaceAtContainerEdges | src/app/app.component.ts:170-171 | a signature on the container's left edge gets x = 0; one on the container's top edge gets y = page height − PNG height / 2 |
| Placement.PlaceIsMonotone | src/app/app.component.ts:170-171 | moving the signature down on screen strictly lowers y; moving it right strictly raises x |
| Placement.PlaceIgnoresScrolling | src/app/app.component.ts:167-171 | shifting the container and the signature by the same amount does not change the placement |
| Placement.PlaceIgnoresZoom | src/app/app.component.ts:159-171 | scaling the container width and the signature's offset inside it by the same k > 0 does not change the placement |
| Placement.PlaceSizeIgnoresScreen | src/app/app.component.ts:152-154 | the drawn width and height are the same for every container and every on-screen signature rectangle |
| Placement.PlacementOnPageIff | src/app/app.component.ts:170-178 | the drawn image lies on the page exactly when its footprint, scaled to pixels from the on-screen top-left, lies on the rendered page (both directions) |
| Placement.PlaceLetterPageAtHalfSize | src/app/app.component.ts:153-171 | a 612×792 page at 306 px wide, a 400×200 PNG at (50, 50) inside the container: drawn at (100, 592), size 200×100, page 0 |
| DragModel.Step | src/app/app.component.ts:196-225 | a press on the image starts dragging and records a grab offset so that image top-left + offset = pointer; a move while dragging with the image present puts the image at pointer − offset, keeping the flag and the offset; a release stops dragging and keeps the position; a press with no image, or a move when idle or with no image, changes nothing |
| DragModel.FirstMoveDoesNotJump | src/app/app.component.ts:199-217 | a press then a move at the same pointer leaves the image at the top-left it had when pressed |
| DragModel.IdleIgnoresAllButPress | src/app/app.component.ts:212-225 | when not dragging, any sequence of moves and releases leaves the whole drag state unchanged |
| DragModel.StopThenMovesKeepsPosition | src/app/app.component.ts:223-225 | after a release, moves and releases up to the next press leave the state as the release left it |
| DragModel.LastMoveDecides | src/app/app.component.ts:216-217 | during a drag, a run of moves ends with the image at the last pointer − offset, whatever came before; dragging and offset are kept |
| DragModel.DragIsPathIndependent | src/app/app.component.ts:216-217 | two runs of moves from the same drag state that end at the same pointer give the same state |
| AppComponentModel.AppComponent.constructor | src/app/app.component.ts:12-17 | no document, no signature, pad hidden, position (100, 100), not dragging, offset (0, 0) |
| AppComponentModel.AppComponent.NgAfterViewInit | src/app/app.component.ts:31-33 | the container reference is set from the lookup's result; nothing else changes |
| AppComponentModel.AppComponent.OnFileLoaded | src/app/app.component.ts:43-47 | a truthy read result becomes the document; a falsy one leaves the old document; nothing else changes |
| AppComponentModel.AppComponent.OpenSignaturePad | src/app/app.component.ts:52-57 | the pad dialog is shown; nothing else changes |
| AppComponentModel.AppComponent.InitializeSignaturePad | src/app/app.component.ts:80-83 | the pad exists afterwards; nothing else changes |
| AppComponentModel.AppComponent.CloseSignaturePad | src/app/app.component.ts:59-61 | the pad dialog is hidden; nothing else changes |
| AppComponentModel.AppComponent.ShowSignatureOnPdf | src/app/app.component.ts:86-105 | a draggable image is created exactly when there is a signature and a container, at the current signature position with closure offsets (0, 0); the component is not changed |
| AppComponentModel.AppComponent.SaveSignature | src/app/app.component.ts:69-78 | the signature is replaced only when the pad exists and is not empty, otherwise kept; the dialog always ends hidden; an overlay is created exactly when a non-empty signature was saved and a container exists, at the signature position with closure offsets (0, 0) |
| AppComponentModel.AppComponent.StartDrag | src/app/app.component.ts:196-209 | the drag state after the call is `Step` of the old one with a press; only `isDragging` and `dragOffset` may change |
| AppComponentModel.AppComponent.Drag | src/app/app.component.ts:212-220 | the drag state after the call is `Step` of the old one with a move; only `signaturePosition` may change |
| AppComponentModel.AppComponent.StopDrag | src/app/app.component.ts:223-229 | the drag state after the call is `Step` of the old one with a release; only `isDragging` changes |
| AppComponentModel.AppComponent.DownloadPdf | src/app/app.component.ts:137-179 | returns early exactly when the signature or the document is missing; ends in the catch exactly when loading, embedding or the container lookup fails; stops exactly when the signature element is missing; otherwise draws at `Place` of the page, PNG, container and signature rectangles; changes no field in any case |
| AppComponentModel.ImageDrag.constructor | src/app/app.component.ts:107-108 | the closures start with offset (0, 0) for an image at the given position, bound to the component |
| AppComponentModel.ImageDrag.StartDrag | src/app/app.component.ts:110-115 | the component is dragging, and layout position + closure offset = pointer |
| AppComponentModel.ImageDrag.Drag | src/app/app.component.ts:117-122 | while the component is dragging, image position + offset = pointer; otherwise the image does not move |
| AppComponentModel.ImageDrag.EndDrag | src/app/app.component.ts:124-130 | dragging stops and the component's signature position becomes the image's viewport top-left |
| AppComponentModel.ClosureFirstDragDoesNotJump | src/app/app.component.ts:110-122 | a mousedown then a mousemove at the same pointer leaves the image at its layout position |
| AppComponentModel.StopThenDragKeepsPosition | src/app/app.component.ts:212-225 | after `stopDrag`, a `drag` leaves the signature position unchanged |

## Left out

- File selection and `FileReader` (src/app/app.component.ts:36-50) are browser I/O. Only the `onload` assignment is modelled (`OnFileLoaded`).
- `clearSignaturePad` (src/app/app.component.ts:63-67) only calls into the signature pad library. It changes no component field.
- The signature pad itself: canvas construction, its options, `isEmpty` and `toDataURL`. These come from a foreign library and appear as parameters.
- The pdf-lib calls (`load`, `embedPng`, `getPages`, `drawImage`, `save`) are not modelled. Their results appear as parameters, and their failures as `None`. A failure of `drawImage` or `save` after the placement is computed is not modelled either.
- Blob and object-URL creation and the download link click (src/app/app.component.ts:183-189) are I/O.
- DOM side effects are left out: creating and appending the image element, `style.position`/`cursor`, the body cursor, and the class `drag` writing `style.left`/`top` (src/app/app.component.ts:218-219). For the closures, the image's inline `left`/`top` is kept in `ImageDrag`, because that is the only thing their `mousemove` handler changes.
- Event listener registration and removal are left out. The `removeEventListener` calls pass new `.bind(this)` functions, so they never remove anything. The model makes no claim that listeners are paired.
- `setTimeout` deferrals are not modelled. `OpenSignaturePad` and `InitializeSignaturePad` are two separate steps. `ShowSignatureOnPdf` runs its deferred body at once.
- IEEE floating point is replaced by exact reals: no rounding, no NaN, no Infinity.
- AppComponentModel.AppComponent.DownloadPdf: requires a positive page width and container width only once a signature, a document, the page, the image and the container are all there, which is when the scale is computed. JavaScript would go on with an infinite or NaN scale there.
- Console logging (`console.error` at src/app/app.component.ts:75, 164 and 191) is a diagnostic side effect and is not modelled.
- src/app/app.module.ts is Angular module wiring with no logic.
