/**
 * The drag gesture of makeDraggable in content.js: the closure's
 * posX/posY/mouseX/mouseY, the panel's top/left pixel offsets, and
 * whether document.onmousemove / document.onmouseup hold the closure's
 * handlers (they are set and cleared together, so one flag says both).
 * offsetTop/offsetLeft are taken to be the last top/left written.
 */
module Drag {

  datatype Point = Point(x: int, y: int)

  datatype DragState = DragState(
    top: int, left: int,
    posX: int, posY: int,
    mouseX: int, mouseY: int,
    attached: bool)

  /** dragMouseDown: record the cursor and (re)assign both document handlers. */
  function Down(s: DragState, p: Point): (r: DragState)
    ensures r.attached && r.mouseX == p.x && r.mouseY == p.y
    ensures r.top == s.top && r.left == s.left
  {
    s.(mouseX := p.x, mouseY := p.y, attached := true)
  }

  /**
   * A mousemove on the document: while attached, elementDrag moves the
   * panel by the cursor's travel since the last recorded point; otherwise
   * no handler runs.
   */
  function Move(s: DragState, p: Point): (r: DragState)
    ensures !s.attached ==> r == s
    ensures s.attached ==>
      r.left - s.left == p.x - s.mouseX && r.top - s.top == p.y - s.mouseY &&
      r.mouseX == p.x && r.mouseY == p.y && r.attached
  {
    if !s.attached then s
    else
      var posX := s.mouseX - p.x;
      var posY := s.mouseY - p.y;
      s.(posX := posX, posY := posY, mouseX := p.x, mouseY := p.y,
         top := s.top - posY, left := s.left - posX)
  }

  /** closeDragElement: both document handlers are set to null. */
  function Up(s: DragState): (r: DragState)
    ensures !r.attached
    ensures r.top == s.top && r.left == s.left
    ensures forall p :: Move(r, p) == r
  {
    s.(attached := false)
  }

  function Moves(s: DragState, path: seq<Point>): DragState
    decreases |path|
  {
    if path == [] then s else Moves(Move(s, path[0]), path[1..])
  }

  /** Where the cursor is last seen: the end of the path, or the press point. */
  function LastPoint(press: Point, path: seq<Point>): Point {
    if path == [] then press else path[|path| - 1]
  }

  /** A whole gesture: press, a path of moves, release. */
  function Gesture(s: DragState, press: Point, path: seq<Point>): DragState {
    Up(Moves(Down(s, press), path))
  }

  /** Moves telescope: the panel travels exactly as far as the cursor. */
  lemma {:induction false} MovesTelescope(s: DragState, path: seq<Point>)
    requires s.attached
    ensures var r := Moves(s, path);
      var last := LastPoint(Point(s.mouseX, s.mouseY), path);
      r.attached &&
      r.left - s.left == last.x - s.mouseX && r.top - s.top == last.y - s.mouseY &&
      r.mouseX == last.x && r.mouseY == last.y
    decreases |path|
  {
    if path != [] {
      var t := Move(s, path[0]);
      MovesTelescope(t, path[1..]);
      if path[1..] != [] {
        assert path[1..][|path[1..]| - 1] == path[|path| - 1];
      }
    }
  }

  /**
   * Over a gesture the panel's offset changes by the final cursor position
   * minus the press position, and the handlers end up detached.
   */
  lemma GestureOffset(s: DragState, press: Point, path: seq<Point>)
    ensures var r := Gesture(s, press, path);
      var last := LastPoint(press, path);
      !r.attached && r.left - s.left == last.x - press.x && r.top - s.top == last.y - press.y
  {
    MovesTelescope(Down(s, press), path);
  }

  /** After the release, moving the mouse any number of times changes nothing. */
  lemma {:induction false} MovesAfterUp(s: DragState, path: seq<Point>)
    requires !s.attached
    ensures Moves(s, path) == s
    decreases |path|
  {
    if path != [] {
      MovesAfterUp(Move(s, path[0]), path[1..]);
    }
  }

  /**
   * A second mousedown replaces the handlers instead of adding a second
   * pair: the next move shifts the panel once, from the newer press point.
   */
  lemma DownTwice(s: DragState, p: Point, q: Point, m: Point)
    ensures Down(Down(s, p), q) == Down(s, q)
    ensures Move(Down(Down(s, p), q), m).left - s.left == m.x - q.x
    ensures Move(Down(Down(s, p), q), m).top - s.top == m.y - q.y
  {
  }

  /** The panel element and the closure makeDraggable builds around it. */
  class Draggable {
    var top: int
    var left: int
    var posX: int
    var posY: int
    var mouseX: int
    var mouseY: int
    var attached: bool

    function State(): DragState
      reads this
    {
      DragState(top, left, posX, posY, mouseX, mouseY, attached)
    }

    /** makeDraggable on a panel at (top, left): all closure variables 0, nothing attached. */
    constructor (top: int, left: int)
      ensures State() == DragState(top, left, 0, 0, 0, 0, false)
    {
      this.top, this.left := top, left;
      posX, posY, mouseX, mouseY := 0, 0, 0, 0;
      attached := false;
    }

    method MouseDown(clientX: int, clientY: int)
      modifies this
      ensures State() == Down(old(State()), Point(clientX, clientY))
    {
      mouseX := clientX;
      mouseY := clientY;
      attached := true;
    }

    method MouseMove(clientX: int, clientY: int)
      modifies this
      ensures State() == Move(old(State()), Point(clientX, clientY))
    {
      if attached {
        posX := mouseX - clientX;
        posY := mouseY - clientY;
        mouseX := clientX;
        mouseY := clientY;
        top := top - posY;
        left := left - posX;
      }
    }

    method MouseUp()
      modifies this
      ensures State() == Up(old(State()))
    {
      attached := false;
    }
  }
}
