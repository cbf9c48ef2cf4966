/**
 * The drag behaviour of one sticky note (client/src/components/StickyNote.tsx).
 *
 * The component registers window listeners while a drag is in progress; here each listener
 * invocation is an explicit pointer event. `Step` is the specification of one event and
 * `Run` of a sequence of events; the class `StickyNote` holds the component's state and
 * its handlers are proved to follow `Step`.
 */
module NoteDrag {

  datatype Point = Point(x: int, y: int)

  function Plus(a: Point, b: Point): Point
  {
    Point(a.x + b.x, a.y + b.y)
  }

  function Minus(a: Point, b: Point): Point
  {
    Point(a.x - b.x, a.y - b.y)
  }

  /** One call of the `onPositionUpdate(id, x, y)` callback. */
  datatype PositionUpdate = PositionUpdate(id: int, x: int, y: int)

  /** A pointer event as the handlers see it; touch events use their first touch point. */
  datatype Pointer = Down(at: Point) | Move(at: Point) | Up

  /**
   * The component's state: `isDragging`, `position`, the refs `dragStartPos` and
   * `initialPos`, and the position updates issued so far.
   */
  datatype DragState = DragState(
    isDragging: bool,
    position: Point,
    dragStartPos: Point,
    initialPos: Point,
    updates: seq<PositionUpdate>)

  /** The state right after mounting with the props `position_x`, `position_y`. */
  function Mounted(positionX: int, positionY: int): DragState
  {
    DragState(false, Point(positionX, positionY), Point(0, 0), Point(0, 0), [])
  }

  /** One pointer event, as handled by `handleMouseDown`, `handleMouseMove` and `handleMouseUp`. */
  function Step(id: int, s: DragState, e: Pointer): DragState
  {
    match e
    case Down(p) => s.(isDragging := true, dragStartPos := p, initialPos := s.position)
    case Move(p) =>
      if !s.isDragging then s
      else s.(position := Plus(s.initialPos, Minus(p, s.dragStartPos)))
    case Up =>
      if !s.isDragging then s
      else s.(isDragging := false,
              updates := s.updates + [PositionUpdate(id, s.position.x, s.position.y)])
  }

  /** A sequence of pointer events, handled in order. */
  function Run(id: int, s: DragState, es: seq<Pointer>): DragState
    decreases |es|
  {
    if es == [] then s else Run(id, Step(id, s, es[0]), es[1..])
  }

  /** The move events for a sequence of pointer positions. */
  function Moves(ps: seq<Point>): (es: seq<Pointer>)
    ensures |es| == |ps|
    ensures forall i :: 0 <= i < |ps| ==> es[i] == Move(ps[i])
  {
    if ps == [] then [] else [Move(ps[0])] + Moves(ps[1..])
  }

  /** Where a drag from `origin` through `ps` would move a note, relative to its start. */
  function Travel(origin: Point, ps: seq<Point>): Point
  {
    if ps == [] then Point(0, 0) else Minus(ps[|ps| - 1], origin)
  }

  /** A complete gesture: press at `origin`, move through `ps`, release. */
  function Gesture(origin: Point, ps: seq<Point>): seq<Pointer>
  {
    [Down(origin)] + Moves(ps) + [Up]
  }

  /** Handling events one batch after another is handling their concatenation. */
  lemma {:induction false} RunConcat(id: int, s: DragState, a: seq<Pointer>, b: seq<Pointer>)
    ensures Run(id, s, a + b) == Run(id, Run(id, s, a), b)
    decreases |a|
  {
    if a == [] {
      assert a + b == b;
    } else {
      assert (a + b)[0] == a[0];
      assert (a + b)[1..] == a[1..] + b;
      RunConcat(id, Step(id, s, a[0]), a[1..], b);
    }
  }

  /** A move while no drag is in progress changes nothing. */
  lemma MoveWhileIdleIgnored(id: int, s: DragState, p: Point)
    requires !s.isDragging
    ensures Step(id, s, Move(p)) == s
  {
  }

  /** Any number of moves while no drag is in progress change nothing. */
  lemma {:induction false} MovesWhileIdleIgnored(id: int, s: DragState, ps: seq<Point>)
    requires !s.isDragging
    ensures Run(id, s, Moves(ps)) == s
  {
    if ps != [] {
      assert Moves(ps)[1..] == Moves(ps[1..]);
      MovesWhileIdleIgnored(id, s, ps[1..]);
    }
  }

  /**
   * During a drag a move to `p` puts the note at the initial position plus the pointer's
   * displacement from the press point, and changes nothing else.
   */
  lemma MoveSetsAbsoluteOffset(id: int, s: DragState, p: Point)
    requires s.isDragging
    ensures Step(id, s, Move(p)).position
            == Point(s.initialPos.x + (p.x - s.dragStartPos.x), s.initialPos.y + (p.y - s.dragStartPos.y))
    ensures Step(id, s, Move(p)) == s.(position := Step(id, s, Move(p)).position)
  {
  }

  /**
   * During a drag, a burst of moves has the effect of a single move to the last pointer:
   * the result does not depend on how many intermediate moves were delivered.
   */
  lemma {:induction false} MovesDependOnlyOnLastPointer(id: int, s: DragState, ps: seq<Point>)
    requires s.isDragging && ps != []
    ensures Run(id, s, Moves(ps)) == Step(id, s, Move(ps[|ps| - 1]))
    decreases |ps|
  {
    var s1 := Step(id, s, Move(ps[0]));
    assert Moves(ps)[1..] == Moves(ps[1..]);
    if |ps| > 1 {
      MovesDependOnlyOnLastPointer(id, s1, ps[1..]);
    } else {
      assert Run(id, s1, Moves(ps[1..])) == s1;
    }
  }

  /** The moves of a drag issue no position update and keep the drag going. */
  lemma MovesKeepDragging(id: int, s: DragState, ps: seq<Point>)
    requires s.isDragging
    ensures Run(id, s, Moves(ps)).isDragging
    ensures Run(id, s, Moves(ps)).updates == s.updates
    ensures Run(id, s, Moves(ps)).initialPos == s.initialPos
    ensures Run(id, s, Moves(ps)).dragStartPos == s.dragStartPos
  {
    if ps != [] {
      MovesDependOnlyOnLastPointer(id, s, ps);
    }
  }

  /** A press snapshots the current position as the drag's initial position. */
  lemma DownSnapshotsPosition(id: int, s: DragState, p: Point)
    ensures var t := Step(id, s, Down(p));
      t.isDragging && t.dragStartPos == p && t.initialPos == s.position
      && t.position == s.position && t.updates == s.updates
  {
  }

  /**
   * A release during a drag ends it and issues exactly one update carrying the current
   * position; a release with no drag in progress does nothing and issues no update.
   */
  lemma UpReportsOnce(id: int, s: DragState)
    ensures var t := Step(id, s, Up);
      !t.isDragging && t.position == s.position
      && (s.isDragging ==> t.updates == s.updates + [PositionUpdate(id, s.position.x, s.position.y)])
      && (!s.isDragging ==> t == s)
  {
  }

  /** Press then release with no move in between leaves the note where it was. */
  lemma PressReleaseKeepsPosition(id: int, s: DragState, p: Point)
    ensures Run(id, s, [Down(p), Up]).position == s.position
    ensures Run(id, s, [Down(p), Up]).updates
            == s.updates + [PositionUpdate(id, s.position.x, s.position.y)]
  {
    var s1 := Step(id, s, Down(p));
    assert [Down(p), Up][1..] == [Up];
    assert Run(id, s1, [Up]) == Step(id, s1, Up);
  }

  /**
   * A whole gesture moves the note by the pointer's travel from press to last move, ends the
   * drag, and reports the final position exactly once.
   */
  lemma {:induction false} GestureEffect(id: int, s: DragState, origin: Point, ps: seq<Point>)
    ensures var t := Run(id, s, Gesture(origin, ps));
      var q := Plus(s.position, Travel(origin, ps));
      !t.isDragging && t.position == q
      && t.updates == s.updates + [PositionUpdate(id, q.x, q.y)]
  {
    var s1 := Step(id, s, Down(origin));
    RunConcat(id, s, [Down(origin)] + Moves(ps), [Up]);
    RunConcat(id, s, [Down(origin)], Moves(ps));
    assert Run(id, s, [Down(origin)]) == s1;
    var s2 := Run(id, s1, Moves(ps));
    if ps == [] {
      assert s2 == s1;
    } else {
      MovesDependOnlyOnLastPointer(id, s1, ps);
    }
    assert Run(id, s2, [Up]) == Step(id, s2, Up);
  }

  /**
   * Successive drags compose: the second starts from where the first ended, so the note ends
   * at its start plus both travels, and each drag reports its own end position once.
   */
  lemma {:induction false} DragsCompose(id: int, s: DragState, o1: Point, ps1: seq<Point>, o2: Point, ps2: seq<Point>)
    ensures var t := Run(id, s, Gesture(o1, ps1) + Gesture(o2, ps2));
      var q1 := Plus(s.position, Travel(o1, ps1));
      var q2 := Plus(q1, Travel(o2, ps2));
      !t.isDragging && t.position == q2
      && t.updates == s.updates + [PositionUpdate(id, q1.x, q1.y), PositionUpdate(id, q2.x, q2.y)]
  {
    RunConcat(id, s, Gesture(o1, ps1), Gesture(o2, ps2));
    GestureEffect(id, s, o1, ps1);
    GestureEffect(id, Run(id, s, Gesture(o1, ps1)), o2, ps2);
  }

  /** How many releases a sequence of events holds. */
  function CountUps(es: seq<Pointer>): nat
  {
    if es == [] then 0 else (if es[0].Up? then 1 else 0) + CountUps(es[1..])
  }

  /**
   * Whatever the events, updates are only ever appended, and at most one per release: the
   * number of position updates is bounded by the gestures, not by the move events.
   */
  lemma {:induction false} UpdatesOnlyOnRelease(id: int, s: DragState, es: seq<Pointer>)
    ensures var t := Run(id, s, es);
      |s.updates| <= |t.updates| <= |s.updates| + CountUps(es)
      && t.updates[..|s.updates|] == s.updates
    decreases |es|
  {
    if es != [] {
      var s1 := Step(id, s, es[0]);
      UpdatesOnlyOnRelease(id, s1, es[1..]);
      assert s1.updates[..|s.updates|] == s.updates;
    }
  }

  /**
   * The component: the `useState` and `useRef` cells of one rendered note, and the calls made
   * to `onPositionUpdate`.
   */
  class StickyNote {
    const id: int
    var isDragging: bool
    var position: Point
    var dragStartPos: Point
    var initialPos: Point
    var updates: seq<PositionUpdate>

    function State(): DragState
      reads this
    {
      DragState(isDragging, position, dragStartPos, initialPos, updates)
    }

    /** Mounting: not dragging, at the position given by the props, refs at the origin. */
    constructor (id: int, positionX: int, positionY: int)
      ensures this.id == id
      ensures State() == Mounted(positionX, positionY)
      ensures position == Point(positionX, positionY) && !isDragging && updates == []
    {
      this.id := id;
      isDragging := false;
      position := Point(positionX, positionY);
      dragStartPos := Point(0, 0);
      initialPos := Point(0, 0);
      updates := [];
    }

    /** `handleMouseDown`: start dragging from the pointer, remembering where the note is. */
    method HandleMouseDown(clientX: int, clientY: int)
      modifies this
      ensures State() == Step(id, old(State()), Down(Point(clientX, clientY)))
      ensures isDragging && dragStartPos == Point(clientX, clientY) && initialPos == old(position)
      ensures position == old(position) && updates == old(updates)
    {
      isDragging := true;
      dragStartPos := Point(clientX, clientY);
      initialPos := Point(position.x, position.y);
    }

    /** `handleTouchStart`: the same as a mouse press at the first touch point. */
    method HandleTouchStart(touches: seq<Point>)
      requires |touches| > 0
      modifies this
      ensures State() == Step(id, old(State()), Down(touches[0]))
    {
      isDragging := true;
      var touch := touches[0];
      dragStartPos := Point(touch.x, touch.y);
      initialPos := Point(position.x, position.y);
    }

    /** `handleMouseMove`: ignored unless dragging; otherwise the absolute offset from the press. */
    method HandleMouseMove(clientX: int, clientY: int)
      modifies this
      ensures State() == Step(id, old(State()), Move(Point(clientX, clientY)))
      ensures !old(isDragging) ==> State() == old(State())
      ensures old(isDragging) ==>
        position == Point(initialPos.x + (clientX - dragStartPos.x), initialPos.y + (clientY - dragStartPos.y))
    {
      if !isDragging {
        return;
      }
      var dx := clientX - dragStartPos.x;
      var dy := clientY - dragStartPos.y;
      var newX := initialPos.x + dx;
      var newY := initialPos.y + dy;
      position := Point(newX, newY);
    }

    /**
     * `handleTouchMove`: the same as a mouse move to the first touch point. The touch list is
     * read only while dragging, and a touch move always carries at least one touch.
     */
    method HandleTouchMove(touches: seq<Point>)
      requires isDragging ==> |touches| > 0
      modifies this
      ensures !old(isDragging) ==> State() == old(State())
      ensures old(isDragging) ==> State() == Step(id, old(State()), Move(touches[0]))
    {
      if !isDragging {
        return;
      }
      var touch := touches[0];
      var dx := touch.x - dragStartPos.x;
      var dy := touch.y - dragStartPos.y;
      var newX := initialPos.x + dx;
      var newY := initialPos.y + dy;
      position := Point(newX, newY);
    }

    /** `handleMouseUp` (also the `touchend` listener): end the drag and report the position once. */
    method HandleMouseUp()
      modifies this
      ensures State() == Step(id, old(State()), Up)
      ensures !isDragging && position == old(position)
      ensures updates == if old(isDragging)
                         then old(updates) + [PositionUpdate(id, position.x, position.y)]
                         else old(updates)
    {
      if isDragging {
        isDragging := false;
        updates := updates + [PositionUpdate(id, position.x, position.y)];
      }
    }
  }
}
