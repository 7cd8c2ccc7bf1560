/**
 * The terminal application's window inside the computer screen: its
 * position is kept inside the container, every move and resize remembers
 * the previous position and size, the title bar drags it, and a button
 * toggles between maximized and the size and place it had before.
 *
 * The page is not modelled: `rooted` says whether the window's element is
 * still there (it is dropped by `destroy`), `hasContainer` whether the
 * container element was found, and each operation receives the container's
 * current bounding size.
 */
module TerminalWindow {
  import opened Common

  datatype Point = Point(x: real, y: real)
  datatype Size = Size(width: real, height: real)

  /** The size a maximized window takes when the container gives none. */
  const FallbackSize: real := 500.0

  datatype WindowState = WindowState(
    position: Point,
    size: Size,
    maximized: bool,
    prevPosition: Point,
    prevSize: Size,
    dragging: bool,
    offset: Point)

  /** The state the constructor starts from, before its first resize and move. */
  const InitialState := WindowState(Point(0.0, 0.0), Size(100.0, 100.0), false, Point(0.0, 0.0),
                                    Size(100.0, 100.0), false, Point(0.0, 0.0))

  /** `rect?.width || Infinity`: a missing container or a zero dimension is no bound at all. */
  function Bound(hasContainer: bool, dim: real): (b: Option<real>)
    ensures b.None? <==> !hasContainer || dim == 0.0
    ensures b.Some? ==> b.value == dim
  {
    if hasContainer && dim != 0.0 then Some(dim) else None
  }

  /** One coordinate of `_moveApp`: at most the bound minus the window's extent, and never below 0. */
  function ClampCoord(p: real, bound: Option<real>, extent: real): (r: real)
    ensures r >= 0.0
    ensures bound.None? ==> r == Max(0.0, p)
    ensures bound.Some? && bound.value - extent >= 0.0 ==> r <= bound.value - extent
    ensures bound.Some? && bound.value - extent < 0.0 ==> r == 0.0
    ensures p >= 0.0 && (bound.None? || p <= bound.value - extent) ==> r == p
    ensures bound.Some? && p >= bound.value - extent ==> r == Max(0.0, bound.value - extent)
    ensures p <= 0.0 ==> r == 0.0
  {
    match bound
    case None => Max(0.0, p)
    case Some(b) => Max(0.0, Min(p, b - extent))
  }

  /** Both coordinates clamped: never negative, and a position already inside the container is kept. */
  function ClampPosition(p: Point, hasContainer: bool, rect: Size, size: Size): (r: Point)
    ensures r.x >= 0.0 && r.y >= 0.0
    ensures p.x >= 0.0 && (!hasContainer || rect.width == 0.0 || p.x <= rect.width - size.width) ==> r.x == p.x
    ensures p.y >= 0.0 && (!hasContainer || rect.height == 0.0 || p.y <= rect.height - size.height) ==> r.y == p.y
    ensures hasContainer && rect.width != 0.0 && rect.width >= size.width ==> r.x <= rect.width - size.width
    ensures hasContainer && rect.height != 0.0 && rect.height >= size.height ==> r.y <= rect.height - size.height
  {
    Point(ClampCoord(p.x, Bound(hasContainer, rect.width), size.width),
          ClampCoord(p.y, Bound(hasContainer, rect.height), size.height))
  }

  /** `_moveApp`: without the window element nothing changes; otherwise clamp, remember the old position, move. */
  function Move(w: WindowState, rooted: bool, hasContainer: bool, rect: Size, p: Point): (r: WindowState)
    ensures !rooted ==> r == w
    ensures rooted ==> r.position == ClampPosition(p, hasContainer, rect, w.size) && r.prevPosition == w.position
    ensures rooted ==> r.position.x >= 0.0 && r.position.y >= 0.0
    ensures r.size == w.size && r.prevSize == w.prevSize && r.maximized == w.maximized
    ensures r.dragging == w.dragging && r.offset == w.offset
  {
    if !rooted then w
    else w.(prevPosition := w.position, position := ClampPosition(p, hasContainer, rect, w.size))
  }

  /** `_resizeApp`: without the window element nothing changes; otherwise remember the old size, resize. */
  function Resize(w: WindowState, rooted: bool, s: Size): (r: WindowState)
    ensures !rooted ==> r == w
    ensures rooted ==> r.size == s && r.prevSize == w.size
    ensures r.position == w.position && r.prevPosition == w.prevPosition && r.maximized == w.maximized
    ensures r.dragging == w.dragging && r.offset == w.offset
  {
    if !rooted then w else w.(prevSize := w.size, size := s)
  }

  /** `_onMouseDown`: unless maximized, start dragging, holding the pointer's offset from the window's corner. */
  function MouseDown(w: WindowState, client: Point): (r: WindowState)
    ensures w.maximized ==> r == w
    ensures !w.maximized ==> r == w.(dragging := true, offset := Point(client.x - w.position.x, client.y - w.position.y))
  {
    if w.maximized then w
    else w.(dragging := true, offset := Point(client.x - w.position.x, client.y - w.position.y))
  }

  /** `_onMouseMove`: while dragging, move so that the pointer keeps its offset. */
  function MouseMove(w: WindowState, rooted: bool, hasContainer: bool, rect: Size, client: Point): (r: WindowState)
    ensures !w.dragging ==> r == w
    ensures w.dragging ==> r == Move(w, rooted, hasContainer, rect, Point(client.x - w.offset.x, client.y - w.offset.y))
  {
    if !w.dragging then w
    else Move(w, rooted, hasContainer, rect, Point(client.x - w.offset.x, client.y - w.offset.y))
  }

  /** `_onMouseUp`: dragging always ends. */
  function MouseUp(w: WindowState): (r: WindowState)
    ensures !r.dragging && r == w.(dragging := false)
  {
    w.(dragging := false)
  }

  /** `rect?.width || 500`. */
  function MaximizedExtent(hasContainer: bool, dim: real): (e: real)
    ensures hasContainer && dim != 0.0 ==> e == dim
    ensures !hasContainer || dim == 0.0 ==> e == FallbackSize
  {
    if hasContainer && dim != 0.0 then dim else FallbackSize
  }

  /**
   * `_onToggleWindowSize`: when maximized, go back to the remembered size
   * and then to the remembered place (clamped for that size); otherwise move
   * to the corner and take the container's size. Either way the flag flips,
   * even when the window element is gone.
   */
  function Toggle(w: WindowState, rooted: bool, hasContainer: bool, rect: Size): (r: WindowState)
    ensures r.maximized == !w.maximized
    ensures rooted && !w.maximized ==> r.position == Point(0.0, 0.0)
    ensures rooted && !w.maximized ==> r.size == Size(MaximizedExtent(hasContainer, rect.width),
                                                      MaximizedExtent(hasContainer, rect.height))
    ensures rooted && !w.maximized ==> r.prevPosition == w.position && r.prevSize == w.size
    ensures rooted && w.maximized ==> r.size == w.prevSize
    ensures rooted && w.maximized ==> r.position == ClampPosition(w.prevPosition, hasContainer, rect, w.prevSize)
    ensures !rooted ==> r == w.(maximized := !w.maximized)
    ensures rooted ==> r.prevPosition == w.position && r.prevSize == w.size
    ensures r.dragging == w.dragging && r.offset == w.offset
  {
    var moved :=
      if w.maximized then
        var resized := Resize(w, rooted, w.prevSize);
        Move(resized, rooted, hasContainer, rect, w.prevPosition)
      else
        var cornered := Move(w, rooted, hasContainer, rect, Point(0.0, 0.0));
        Resize(cornered, rooted, Size(MaximizedExtent(hasContainer, rect.width), MaximizedExtent(hasContainer, rect.height)));
    moved.(maximized := !w.maximized)
  }

  /**
   * Maximize and restore: the window gets back exactly the size it had, and
   * the place it had, clamped again for the container as it is now.
   */
  lemma MaximizeThenRestore(w: WindowState, hasContainer: bool, rect1: Size, rect2: Size)
    requires !w.maximized
    ensures var r := Toggle(Toggle(w, true, hasContainer, rect1), true, hasContainer, rect2);
            && !r.maximized
            && r.size == w.size
            && r.position == ClampPosition(w.position, hasContainer, rect2, w.size)
  {
  }

  /** A window already inside the container comes back to exactly where it was. */
  lemma RestoreInsideIsExact(w: WindowState, hasContainer: bool, rect: Size)
    requires !w.maximized && w.position.x >= 0.0 && w.position.y >= 0.0
    requires Bound(hasContainer, rect.width).Some? ==> w.position.x <= rect.width - w.size.width
    requires Bound(hasContainer, rect.height).Some? ==> w.position.y <= rect.height - w.size.height
    ensures Toggle(Toggle(w, true, hasContainer, rect), true, hasContainer, rect).position == w.position
  {
  }

  /** Grabbing the title bar and moving the pointer by (dx, dy) moves the window by the same amount, clamped. */
  lemma DragFollowsPointer(w: WindowState, hasContainer: bool, rect: Size, client: Point, dx: real, dy: real)
    requires !w.maximized
    ensures var moved := MouseMove(MouseDown(w, client), true, hasContainer, rect, Point(client.x + dx, client.y + dy));
            moved.position == ClampPosition(Point(w.position.x + dx, w.position.y + dy), hasContainer, rect, w.size)
  {
  }

  class ComputerApp {
    var state: WindowState
    /** Whether the window's element exists (`_dom.root`). */
    var rooted: bool
    /** Whether the container element is known (`_dom.container`). */
    var hasContainer: bool

    /** Starts at 100×100 in the corner, then resizes to 500×500 and moves to (20, 20). */
    constructor (hasContainer: bool, rect: Size)
      ensures rooted && this.hasContainer == hasContainer
      ensures state == Move(Resize(InitialState, true, Size(500.0, 500.0)), true, hasContainer, rect, Point(20.0, 20.0))
      ensures state.size == Size(500.0, 500.0) && !state.maximized && !state.dragging
    {
      state := InitialState;
      rooted := true;
      this.hasContainer := hasContainer;
      new;
      ResizeApp(Size(500.0, 500.0));
      MoveApp(rect, Point(20.0, 20.0));
    }

    /** `destroy`: the element and the container are dropped. */
    method Destroy()
      modifies this`rooted, this`hasContainer
      ensures !rooted && !hasContainer
    {
      rooted := false;
      hasContainer := false;
    }

    method MoveApp(rect: Size, p: Point)
      modifies this`state
      ensures state == Move(old(state), rooted, hasContainer, rect, p)
    {
      if !rooted {
        return;
      }
      var final := ClampPosition(p, hasContainer, rect, state.size);
      state := state.(prevPosition := state.position);
      state := state.(position := final);
    }

    method ResizeApp(s: Size)
      modifies this`state
      ensures state == Resize(old(state), rooted, s)
    {
      if !rooted {
        return;
      }
      state := state.(prevSize := state.size);
      state := state.(size := s);
    }

    method OnMouseDown(client: Point)
      modifies this`state
      ensures state == MouseDown(old(state), client)
    {
      if state.maximized {
        return;
      }
      state := state.(dragging := true);
      state := state.(offset := Point(client.x - state.position.x, client.y - state.position.y));
    }

    method OnMouseMove(rect: Size, client: Point)
      modifies this`state
      ensures state == MouseMove(old(state), rooted, hasContainer, rect, client)
    {
      if !state.dragging {
        return;
      }
      MoveApp(rect, Point(client.x - state.offset.x, client.y - state.offset.y));
    }

    method OnMouseUp()
      modifies this`state
      ensures state == MouseUp(old(state))
    {
      state := state.(dragging := false);
    }

    method OnToggleWindowSize(rect: Size)
      modifies this`state
      ensures state == Toggle(old(state), rooted, hasContainer, rect)
    {
      if state.maximized {
        var before := state.prevPosition;
        ResizeApp(state.prevSize);
        MoveApp(rect, before);
      } else {
        MoveApp(rect, Point(0.0, 0.0));
        ResizeApp(Size(MaximizedExtent(hasContainer, rect.width), MaximizedExtent(hasContainer, rect.height)));
      }
      state := state.(maximized := !state.maximized);
    }
  }
}
