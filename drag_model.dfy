/** The drag state that `AppComponent`'s `startDrag`, `drag` and `stopDrag`
    handlers update, as a value, with one transition per handler call.
    `AppComponent` (app_component.dfy) specifies each handler by `Step`;
    the lemmas here follow whole sequences of pointer events. */
module DragModel {
  import opened Wrappers
  import opened Geometry

  /** One handler call. The DOM reads the handler makes are carried by the
      event: `Down` holds the signature image's bounding rectangle, or None
      when there is no signature image; `Move` says whether the signature
      image is present. */
  datatype PointerEvent =
    | Down(pointer: Point, image: Option<Rect>)   // startDrag
    | Move(pointer: Point, imagePresent: bool)    // drag
    | Up                                          // stopDrag

  /** The component fields the three handlers touch. */
  datatype DragState = DragState(isDragging: bool, dragOffset: Point, position: Point)

  /** The state the component starts with: not dragging, no offset, the
      signature at (100, 100). */
  const Initial: DragState := DragState(false, Point(0.0, 0.0), Point(100.0, 100.0))

  /** The effect of one handler call. A press on the image records where
      in the image it was grabbed; a move while dragging puts the image so
      that it is grabbed at that same spot again (an absolute position, not
      a step added to the old one); a release stops the drag. */
  function Step(s: DragState, e: PointerEvent): (r: DragState)
    ensures e.Down? && e.image.Some? ==>
      r.isDragging && r.position == s.position
      && e.image.value.left + r.dragOffset.x == e.pointer.x
      && e.image.value.top + r.dragOffset.y == e.pointer.y
    ensures e.Move? ==> r.isDragging == s.isDragging && r.dragOffset == s.dragOffset
    ensures e.Move? && s.isDragging && e.imagePresent ==>
      r.position.x + s.dragOffset.x == e.pointer.x && r.position.y + s.dragOffset.y == e.pointer.y
    ensures e.Up? ==> !r.isDragging && r.position == s.position && r.dragOffset == s.dragOffset
    ensures (e.Down? && e.image.None?) || (e.Move? && !(s.isDragging && e.imagePresent)) ==> r == s
  {
    match e
    case Down(pointer, image) =>
      if image.None? then s
      else s.(isDragging := true, dragOffset := Offset(pointer, image.value.TopLeft()))
    case Move(pointer, imagePresent) =>
      if !s.isDragging || !imagePresent then s
      else s.(position := Point(pointer.x - s.dragOffset.x, pointer.y - s.dragOffset.y))
    case Up =>
      s.(isDragging := false)
  }

  /** The state after the handlers run on `events`, in order. */
  function Run(s: DragState, events: seq<PointerEvent>): DragState
    decreases |events|
  {
    if events == [] then s else Run(Step(s, events[0]), events[1..])
  }

  /** Running two event sequences one after the other. */
  lemma {:induction false} RunAppend(s: DragState, a: seq<PointerEvent>, b: seq<PointerEvent>)
    ensures Run(s, a + b) == Run(Run(s, a), b)
    decreases |a|
  {
    if a == [] {
      assert a + b == b;
    } else {
      assert (a + b)[0] == a[0];
      assert (a + b)[1..] == a[1..] + b;
      RunAppend(Step(s, a[0]), a[1..], b);
    }
  }

  /** Pressing on the image and moving without moving the pointer leaves the
      image where it was: the first move does not make it jump. */
  lemma FirstMoveDoesNotJump(s: DragState, pointer: Point, image: Rect)
    ensures Run(s, [Down(pointer, Some(image)), Move(pointer, true)]).position == image.TopLeft()
  {
    var pressed := Step(s, Down(pointer, Some(image)));
    assert [Down(pointer, Some(image)), Move(pointer, true)][1..] == [Move(pointer, true)];
    assert [Move(pointer, true)][1..] == [];
    assert Run(pressed, [Move(pointer, true)]) == Step(pressed, Move(pointer, true));
  }

  /** While no drag is in progress, nothing but a press changes the state:
      every move and release up to the next press is ignored. */
  lemma {:induction false} IdleIgnoresAllButPress(s: DragState, events: seq<PointerEvent>)
    requires !s.isDragging
    requires forall i :: 0 <= i < |events| ==> !events[i].Down?
    ensures Run(s, events) == s
    decreases |events|
  {
    if events != [] {
      assert Step(s, events[0]) == s;
      IdleIgnoresAllButPress(s, events[1..]);
    }
  }

  /** After a release, any number of moves and releases leave the image
      where the release left it. */
  lemma StopThenMovesKeepsPosition(s: DragState, events: seq<PointerEvent>)
    requires forall i :: 0 <= i < |events| ==> !events[i].Down?
    ensures Run(s, [Up] + events) == s.(isDragging := false)
  {
    RunAppend(s, [Up], events);
    IdleIgnoresAllButPress(Step(s, Up), events);
  }

  /** During a drag, a run of moves over the image ends with the image at
      the last pointer position minus the grab offset, whatever the earlier
      moves were; the drag stays in progress with the same offset. */
  lemma {:induction false} LastMoveDecides(s: DragState, events: seq<PointerEvent>)
    requires s.isDragging && events != []
    requires forall i :: 0 <= i < |events| ==> events[i].Move? && events[i].imagePresent
    ensures var last := events[|events| - 1].pointer;
      Run(s, events) == s.(position := Point(last.x - s.dragOffset.x, last.y - s.dragOffset.y))
    decreases |events|
  {
    if |events| > 1 {
      var s' := Step(s, events[0]);
      LastMoveDecides(s', events[1..]);
      assert events[1..][|events[1..]| - 1] == events[|events| - 1];
    }
  }

  /** Two drags from the same state that end with a move at the same pointer
      position leave the image at the same place. */
  lemma DragIsPathIndependent(s: DragState, a: seq<PointerEvent>, b: seq<PointerEvent>)
    requires s.isDragging && a != [] && b != []
    requires forall i :: 0 <= i < |a| ==> a[i].Move? && a[i].imagePresent
    requires forall i :: 0 <= i < |b| ==> b[i].Move? && b[i].imagePresent
    requires a[|a| - 1].pointer == b[|b| - 1].pointer
    ensures Run(s, a) == Run(s, b)
  {
    LastMoveDecides(s, a);
    LastMoveDecides(s, b);
  }
}
