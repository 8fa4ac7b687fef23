/**
 * The pointer input of the floating ball: which action a button press with its
 * modifiers selects, and the press/move/release drag state machine over the
 * fields `is_pressing`, `is_moving` and `press_pos` and the window position.
 */
module Input {
  datatype Button = LeftButton | RightButton | MiddleButton | OtherButton
  datatype Modifier = ControlModifier | ShiftModifier | AltModifier | MetaModifier

  /** A point in global screen coordinates (QPoint), with its component-wise arithmetic. */
  datatype Point = Point(x: int, y: int) {
    function Minus(o: Point): Point { Point(x - o.x, y - o.y) }
    function Plus(o: Point): Point { Point(x + o.x, y + o.y) }
  }

  /** What a press on the ball does. */
  datatype PressAction = Quit | BeginDrag | ChangeSavePath | ChangeEmoji | AddSnippet | NoAction

  /**
   * Press dispatch: Ctrl+left quits, any other left press begins a drag; on the right
   * button Ctrl wins over Shift, and only a press with neither adds a snippet.
   */
  function PressActionOf(button: Button, modifiers: set<Modifier>): (a: PressAction)
    ensures a == Quit <==> button == LeftButton && ControlModifier in modifiers
    ensures a == BeginDrag <==> button == LeftButton && ControlModifier !in modifiers
    ensures a == ChangeSavePath <==> button == RightButton && ControlModifier in modifiers
    ensures a == ChangeEmoji <==>
              button == RightButton && ControlModifier !in modifiers && ShiftModifier in modifiers
    ensures a == AddSnippet <==>
              button == RightButton && ControlModifier !in modifiers && ShiftModifier !in modifiers
    ensures a == NoAction <==> button != LeftButton && button != RightButton
  {
    if button == LeftButton then
      if ControlModifier in modifiers then Quit else BeginDrag
    else if button == RightButton then
      if ControlModifier in modifiers then ChangeSavePath
      else if ShiftModifier in modifiers then ChangeEmoji
      else AddSnippet
    else NoAction
  }

  /** The drag fields of the ball and the window's position. */
  datatype DragState = DragState(isPressing: bool, isMoving: bool, pressPos: Point, windowPos: Point)

  /** A left press without Ctrl: remember the grab offset and start pressing. */
  function Press(d: DragState, globalPos: Point): (r: DragState)
    ensures r.isPressing && !r.isMoving && r.windowPos == d.windowPos
    ensures r.windowPos.Plus(r.pressPos) == globalPos
  {
    d.(isMoving := false, pressPos := globalPos.Minus(d.windowPos), isPressing := true)
  }

  /** A move: only with exactly the left button held while pressing does the window follow. */
  function Move(d: DragState, held: set<Button>, globalPos: Point): (r: DragState)
    ensures r.isPressing == d.isPressing && r.pressPos == d.pressPos
    ensures held == {LeftButton} && d.isPressing ==> r.isMoving && r.windowPos.Plus(d.pressPos) == globalPos
    ensures !(held == {LeftButton} && d.isPressing) ==> r == d
  {
    if held == {LeftButton} && d.isPressing then
      d.(windowPos := globalPos.Minus(d.pressPos), isMoving := true)
    else d
  }

  /** A release: a left release clears both flags. */
  function Release(d: DragState, button: Button): (r: DragState)
    ensures r.pressPos == d.pressPos && r.windowPos == d.windowPos
    ensures button == LeftButton ==> !r.isMoving && !r.isPressing
    ensures button != LeftButton ==> r == d
  {
    if button == LeftButton then d.(isMoving := false, isPressing := false) else d
  }

  /** Whether a release in state `d` opens the popup menu. */
  function OpensMenu(d: DragState, button: Button): (r: bool)
    ensures r ==> Release(d, button) == d.(isPressing := false)
  {
    button == LeftButton && !d.isMoving
  }

  datatype Event =
    | Pressed(button: Button, modifiers: set<Modifier>, globalPos: Point)
    | Moved(held: set<Button>, globalPos: Point)
    | Released(released: Button)

  /** The effect of one event on the drag state. */
  function Step(d: DragState, e: Event): (r: DragState)
    ensures DragInvariant(d) ==> DragInvariant(r)
    ensures !e.Pressed? ==> r.pressPos == d.pressPos
  {
    match e
    case Pressed(b, m, g) => if PressActionOf(b, m) == BeginDrag then Press(d, g) else d
    case Moved(h, g) => Move(d, h, g)
    case Released(b) => Release(d, b)
  }

  function Run(d: DragState, es: seq<Event>): (r: DragState)
    ensures (forall k :: 0 <= k < |es| ==> !es[k].Pressed?) ==> r.pressPos == d.pressPos
    decreases |es|
  {
    if es == [] then d else Run(Step(d, es[0]), es[1..])
  }

  /** The ball is only ever moving while the left button is pressed on it. */
  predicate DragInvariant(d: DragState) {
    d.isMoving ==> d.isPressing
  }

  lemma {:induction false} RunKeepsDragInvariant(d: DragState, es: seq<Event>)
    requires DragInvariant(d)
    ensures DragInvariant(Run(d, es))
    decreases |es|
  {
    if es != [] {
      RunKeepsDragInvariant(Step(d, es[0]), es[1..]);
    }
  }

  predicate IsLeftDrag(e: Event) {
    e.Moved? && e.held == {LeftButton}
  }

  /** Moves with exactly the left button held, one per point. */
  function LeftDrags(ps: seq<Point>): (es: seq<Event>)
    ensures |es| == |ps|
    ensures forall k :: 0 <= k < |es| ==> es[k] == Moved({LeftButton}, ps[k])
    decreases |ps|
  {
    if ps == [] then [] else [Moved({LeftButton}, ps[0])] + LeftDrags(ps[1..])
  }

  /** Without a left-held move, the window stays put and a left release opens the menu. */
  lemma {:induction false} NoDragOpensMenu(d: DragState, es: seq<Event>)
    requires !d.isMoving
    requires forall k :: 0 <= k < |es| ==> !IsLeftDrag(es[k])
    ensures Run(d, es).windowPos == d.windowPos
    ensures OpensMenu(Run(d, es), LeftButton)
    decreases |es|
  {
    if es != [] {
      assert !IsLeftDrag(es[0]);
      forall k | 0 <= k < |es[1..]| ensures !IsLeftDrag(es[1..][k]) {
        assert es[1..][k] == es[k + 1];
      }
      NoDragOpensMenu(Step(d, es[0]), es[1..]);
    }
  }

  /** An event that can end a drag: a left release, or a left press that starts a new one. */
  predicate EndsDrag(e: Event) {
    (e.Released? && e.released == LeftButton) ||
    (e.Pressed? && PressActionOf(e.button, e.modifiers) == BeginDrag)
  }

  /** Once the ball is moving, no event short of ending the drag lets a left release open the menu. */
  lemma {:induction false} DragSuppressesMenu(d: DragState, es: seq<Event>)
    requires d.isMoving
    requires forall k :: 0 <= k < |es| ==> !EndsDrag(es[k])
    ensures !OpensMenu(Run(d, es), LeftButton)
    decreases |es|
  {
    if es != [] {
      assert !EndsDrag(es[0]);
      forall k | 0 <= k < |es[1..]| ensures !EndsDrag(es[1..][k]) {
        assert es[1..][k] == es[k + 1];
      }
      DragSuppressesMenu(Step(d, es[0]), es[1..]);
    }
  }

  /** Running two stretches of events one after the other. */
  lemma {:induction false} RunSplit(d: DragState, a: seq<Event>, b: seq<Event>)
    ensures Run(d, a + b) == Run(Run(d, a), b)
    decreases |a|
  {
    if a == [] {
      assert a + b == b;
    } else {
      assert (a + b)[0] == a[0] && (a + b)[1..] == a[1..] + b;
      RunSplit(Step(d, a[0]), a[1..], b);
    }
  }

  /** Events that end no drag keep the ball pressed. */
  lemma {:induction false} PressingStays(d: DragState, es: seq<Event>)
    requires d.isPressing
    requires forall k :: 0 <= k < |es| ==> !EndsDrag(es[k])
    ensures Run(d, es).isPressing
    decreases |es|
  {
    if es != [] {
      assert !EndsDrag(es[0]);
      forall k | 0 <= k < |es[1..]| ensures !EndsDrag(es[1..][k]) {
        assert es[1..][k] == es[k + 1];
      }
      PressingStays(Step(d, es[0]), es[1..]);
    }
  }

  /**
   * The press-history form: after a left press at `start`, events `a` that end no drag,
   * one move holding exactly the left button, and events `b` that end no drag, a left
   * release does not open the menu.
   */
  lemma PressedDragSuppressesMenu(d: DragState, start: Point, a: seq<Event>, p: Point, b: seq<Event>)
    requires forall k :: 0 <= k < |a| ==> !EndsDrag(a[k])
    requires forall k :: 0 <= k < |b| ==> !EndsDrag(b[k])
    ensures !OpensMenu(Run(Press(d, start), a + [Moved({LeftButton}, p)] + b), LeftButton)
  {
    var d0 := Press(d, start);
    PressingStays(d0, a);
    var d1 := Run(d0, a);
    RunSplit(d0, a, [Moved({LeftButton}, p)]);
    RunSplit(d0, a + [Moved({LeftButton}, p)], b);
    assert Run(d1, [Moved({LeftButton}, p)]) == Step(d1, Moved({LeftButton}, p));
    DragSuppressesMenu(Run(d0, a + [Moved({LeftButton}, p)]), b);
  }

  lemma {:induction false} DragsFollow(d: DragState, ps: seq<Point>)
    requires d.isPressing && |ps| > 0
    ensures Run(d, LeftDrags(ps)) == d.(windowPos := ps[|ps| - 1].Minus(d.pressPos), isMoving := true)
    decreases |ps|
  {
    var es := LeftDrags(ps);
    assert es[1..] == LeftDrags(ps[1..]);
    if |ps| > 1 {
      DragsFollow(Step(d, es[0]), ps[1..]);
    }
  }

  /**
   * A left press at `start` followed by left-held moves ending at `p` moves the window
   * by exactly the pointer's displacement `p - start`; the release that follows opens no
   * menu and clears both flags.
   */
  lemma DragFollowsPointer(d: DragState, start: Point, ps: seq<Point>)
    requires |ps| > 0
    ensures Run(Press(d, start), LeftDrags(ps)).windowPos == d.windowPos.Plus(ps[|ps| - 1].Minus(start))
    ensures !OpensMenu(Run(Press(d, start), LeftDrags(ps)), LeftButton)
    ensures var r := Release(Run(Press(d, start), LeftDrags(ps)), LeftButton);
            !r.isMoving && !r.isPressing
  {
    DragsFollow(Press(d, start), ps);
  }
}
