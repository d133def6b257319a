/**
  The pointer-to-segment state machine of the `useDrawStore` hook
  (client/src/hooks/use-draw-store.ts).

  The first half gives each handler's effect as a function on
  `AppCanvasState`, the delivery of DOM events to the handlers (`Step`) and
  whole event sequences (`Run`), with the facts the hook promises. The second
  half is the hook itself: a class whose fields are the shared state object,
  the listener registrations and the calls made to `onDraw` and `clearRect`,
  each handler proved against its function.
*/
module UseDrawStore {
  import opened Wrappers
  import opened CanvasTypes

  /** The events a hook instance sees. `MouseMove` names the canvas under the pointer. */
  datatype Event =
    | MouseDown
    | MouseMove(target: nat, clientX: int, clientY: int)
    | MouseUp
    | SetCanvas(element: Option<Canvas>)
    | Clear

  /** A state with the `onDraw` calls and `clearRect` rectangles produced on the way to it. */
  datatype Outcome = Outcome(state: AppCanvasState, drawn: seq<Draw>, cleared: seq<Rect>)

  const Initial := AppCanvasState(false, None, None)

  /** A released mouse never has a stroke in progress. */
  predicate StrokeInvariant(s: AppCanvasState)
  {
    !s.isMouseDown ==> s.prevPoint.None?
  }

  /** Each segment starts where the one before it ended; the first starts at `start`. */
  predicate Chained(start: Option<Point>, drawn: seq<Draw>)
  {
    && (|drawn| > 0 ==> drawn[0].prevPoint == start)
    && (forall i :: 0 < i < |drawn| ==> drawn[i].prevPoint == Some(drawn[i - 1].currentPoint))
  }

  /** Where the next segment starts after `drawn` has been emitted from `start`. */
  function LastPoint(start: Option<Point>, drawn: seq<Draw>): Option<Point>
  {
    if drawn == [] then start else Some(drawn[|drawn| - 1].currentPoint)
  }

  // ---------------------------------------------------------------------
  // The handlers as functions

  /** `handleComputePointInCanvas`: client coordinates relative to the canvas's bounding rectangle. */
  function PointInCanvas(canvasRef: Option<Canvas>, clientX: int, clientY: int): (p: Option<Point>)
    ensures p.None? <==> canvasRef.None?
    ensures p.Some? ==> p.value.x + canvasRef.value.left == clientX && p.value.y + canvasRef.value.top == clientY
  {
    match canvasRef
    case None => None
    case Some(c) => Some(Point(clientX - c.left, clientY - c.top))
  }

  /** `mouseUpHandler`: ends any stroke, whatever the state. */
  function AfterMouseUp(s: AppCanvasState): (r: AppCanvasState)
    ensures !r.isMouseDown && r.prevPoint.None? && r.canvasRef == s.canvasRef
    ensures StrokeInvariant(r)
  {
    s.(isMouseDown := false, prevPoint := None)
  }

  /** `onMouseDown`: presses the mouse and leaves the previous point alone. */
  function AfterMouseDown(s: AppCanvasState): (r: AppCanvasState)
    ensures r.isMouseDown && r.prevPoint == s.prevPoint && r.canvasRef == s.canvasRef
    ensures StrokeInvariant(r)
  {
    s.(isMouseDown := true)
  }

  /**
    `mouseMoveHandler`: with the mouse pressed, a canvas attached and a 2D
    context, calls `onDraw` once with the previous and the current point and
    advances the previous point; otherwise does nothing.
  */
  function AfterMouseMove(s: AppCanvasState, clientX: int, clientY: int): (r: (AppCanvasState, Option<Draw>))
    ensures !s.isMouseDown ==> r == (s, None)
    ensures r.1.Some? <==> s.isMouseDown && s.canvasRef.Some? && s.canvasRef.value.hasContext
    ensures r.1.None? ==> r.0 == s
    ensures r.1.Some? ==>
      && r.1.value.prevPoint == s.prevPoint
      && Some(r.1.value.currentPoint) == PointInCanvas(s.canvasRef, clientX, clientY)
      && r.0 == s.(prevPoint := Some(r.1.value.currentPoint))
    ensures StrokeInvariant(s) ==> StrokeInvariant(r.0)
  {
    if !s.isMouseDown then (s, None)
    else
      var currentPoint := PointInCanvas(s.canvasRef, clientX, clientY);
      var hasCtx := s.canvasRef.Some? && s.canvasRef.value.hasContext;
      if !hasCtx || currentPoint.None? then (s, None)
      else (s.(prevPoint := currentPoint), Some(Draw(currentPoint.value, s.prevPoint)))
  }

  /** `setCanvasState`: attaches `element` (or nothing) and changes nothing else. */
  function AfterSetCanvas(s: AppCanvasState, element: Option<Canvas>): (r: AppCanvasState)
    ensures r.canvasRef == element && r.isMouseDown == s.isMouseDown && r.prevPoint == s.prevPoint
  {
    s.(canvasRef := element)
  }

  /** `handleOnClear`: the rectangle cleared, if a canvas with a 2D context is attached. */
  function ClearedRect(s: AppCanvasState): (r: Option<Rect>)
    ensures r.Some? <==> s.canvasRef.Some? && s.canvasRef.value.hasContext
    ensures r.Some? ==> r.value == Rect(0, 0, s.canvasRef.value.width, s.canvasRef.value.height)
  {
    match s.canvasRef
    case None => None
    case Some(c) => if c.hasContext then Some(Rect(0, 0, c.width, c.height)) else None
  }

  // ---------------------------------------------------------------------
  // Delivery of events and whole runs

  /**
    One event. The mousemove listener sits on the attached canvas only, and
    the window's mouseup listener is registered only while a canvas is
    attached, so a mouse-up with no canvas attached reaches no handler.
  */
  function Step(s: AppCanvasState, e: Event): (o: Outcome)
    ensures StrokeInvariant(s) ==> StrokeInvariant(o.state)
    ensures |o.drawn| <= 1 && |o.cleared| <= 1
    ensures o.state.canvasRef == (if e.SetCanvas? then e.element else s.canvasRef)
    ensures !e.MouseMove? ==> o.drawn == []
    ensures !e.Clear? ==> o.cleared == []
    ensures e.Clear? ==> o.state == s
    ensures e.MouseUp? ==> o.state.prevPoint.None? || o.state == s
    ensures !e.MouseUp? ==> o.state.prevPoint == LastPoint(s.prevPoint, o.drawn)
    ensures Chained(s.prevPoint, o.drawn)
  {
    match e
    case MouseDown => Outcome(AfterMouseDown(s), [], [])
    case MouseMove(target, x, y) =>
      if s.canvasRef.Some? && s.canvasRef.value.id == target then
        var (s', d) := AfterMouseMove(s, x, y);
        Outcome(s', OptionToSeq(d), [])
      else Outcome(s, [], [])
    case MouseUp => Outcome(if s.canvasRef.Some? then AfterMouseUp(s) else s, [], [])
    case SetCanvas(element) => Outcome(AfterSetCanvas(s, element), [], [])
    case Clear => Outcome(s, [], OptionToSeq(ClearedRect(s)))
  }

  /** A sequence of events from state `s`, the last event applied last. */
  function Run(s: AppCanvasState, events: seq<Event>): (o: Outcome)
    ensures StrokeInvariant(s) ==> StrokeInvariant(o.state)
    ensures |o.drawn| <= |events| && |o.cleared| <= |events|
    decreases |events|
  {
    if events == [] then Outcome(s, [], [])
    else
      var before := Run(s, events[..|events| - 1]);
      var last := Step(before.state, events[|events| - 1]);
      Outcome(last.state, before.drawn + last.drawn, before.cleared + last.cleared)
  }

  // ---------------------------------------------------------------------
  // Facts about runs

  /** Running `a` and then `b` is running `a + b`. */
  lemma {:induction false} RunAppend(s: AppCanvasState, a: seq<Event>, b: seq<Event>)
    ensures var ra := Run(s, a);
            var rb := Run(ra.state, b);
            Run(s, a + b) == Outcome(rb.state, ra.drawn + rb.drawn, ra.cleared + rb.cleared)
    decreases |b|
  {
    if b == [] {
      assert a + b == a;
    } else {
      var b' := b[..|b| - 1];
      assert (a + b)[..|a + b| - 1] == a + b';
      assert (a + b)[|a + b| - 1] == b[|b| - 1];
      RunAppend(s, a, b');
      var ra := Run(s, a);
      var rb' := Run(ra.state, b');
      var last := Step(rb'.state, b[|b| - 1]);
      ConcatAssoc(ra.drawn, rb'.drawn, last.drawn);
      ConcatAssoc(ra.cleared, rb'.cleared, last.cleared);
    }
  }

  lemma ConcatAssoc<T>(x: seq<T>, y: seq<T>, z: seq<T>)
    ensures (x + y) + z == x + (y + z)
  {
  }

  /** Appending one step's segments keeps a chain a chain. */
  lemma ChainedExtend(start: Option<Point>, drawn: seq<Draw>, more: seq<Draw>)
    requires Chained(start, drawn)
    requires Chained(LastPoint(start, drawn), more)
    requires |more| <= 1
    ensures Chained(start, drawn + more)
    ensures LastPoint(start, drawn + more) == LastPoint(LastPoint(start, drawn), more)
  {
  }

  /**
    Without a mouse-up, the segments of a run form one chain from the
    previous point the run started with, and the run ends at the last
    segment's current point.
  */
  lemma {:induction false} RunChains(s: AppCanvasState, events: seq<Event>)
    requires forall i :: 0 <= i < |events| ==> !events[i].MouseUp?
    ensures Chained(s.prevPoint, Run(s, events).drawn)
    ensures Run(s, events).state.prevPoint == LastPoint(s.prevPoint, Run(s, events).drawn)
    decreases |events|
  {
    if events != [] {
      var prefix := events[..|events| - 1];
      RunChains(s, prefix);
      var before := Run(s, prefix);
      var last := Step(before.state, events[|events| - 1]);
      ChainedExtend(s.prevPoint, before.drawn, last.drawn);
    }
  }

  /**
    Within one press: starting released, a mouse-down followed by events
    without a mouse-up emits a chain whose first segment has no previous
    point.
  */
  lemma PressStartsStroke(s: AppCanvasState, events: seq<Event>)
    requires StrokeInvariant(s) && !s.isMouseDown
    requires forall i :: 0 <= i < |events| ==> !events[i].MouseUp?
    ensures Chained(None, Run(s, [MouseDown] + events).drawn)
    ensures |Run(s, [MouseDown] + events).drawn| > 0 ==> Run(s, [MouseDown] + events).drawn[0].prevPoint.None?
  {
    RunAppend(s, [MouseDown], events);
    var pressed := Run(s, [MouseDown]);
    assert [MouseDown][..0] == [];
    assert pressed.state.prevPoint.None? && pressed.drawn == [];
    RunChains(pressed.state, events);
  }

  /** Moves while the mouse is up emit nothing and change nothing. */
  lemma {:induction false} IdleMovesEmitNothing(s: AppCanvasState, events: seq<Event>)
    requires !s.isMouseDown
    requires forall i :: 0 <= i < |events| ==> events[i].MouseMove?
    ensures Run(s, events) == Outcome(s, [], [])
    decreases |events|
  {
    if events != [] {
      IdleMovesEmitNothing(s, events[..|events| - 1]);
    }
  }

  /**
    While the mouse is down over an attached canvas with a 2D context, every
    move over that canvas emits exactly one segment, ending at that move's
    point in canvas coordinates.
  */
  lemma {:induction false} MovesWhileDrawingEmitOnePerSample(s: AppCanvasState, events: seq<Event>)
    requires s.isMouseDown && s.canvasRef.Some? && s.canvasRef.value.hasContext
    requires forall i :: 0 <= i < |events| ==> events[i].MouseMove? && events[i].target == s.canvasRef.value.id
    ensures var o := Run(s, events);
            && |o.drawn| == |events|
            && o.state.isMouseDown && o.state.canvasRef == s.canvasRef
            && o.cleared == []
            && forall i :: 0 <= i < |events| ==>
                 o.drawn[i].currentPoint == Point(events[i].clientX - s.canvasRef.value.left, events[i].clientY - s.canvasRef.value.top)
    decreases |events|
  {
    if events != [] {
      var prefix := events[..|events| - 1];
      MovesWhileDrawingEmitOnePerSample(s, prefix);
    }
  }

  /** Two mouse-ups act as one. */
  lemma MouseUpIdempotent(s: AppCanvasState)
    ensures Run(s, [MouseUp, MouseUp]) == Run(s, [MouseUp])
  {
    assert [MouseUp, MouseUp][..1] == [MouseUp];
    assert [MouseUp][..0] == [];
  }

  // ---------------------------------------------------------------------
  // The hook

  /** One `useDrawStore` instance: the `canvasState` object and the listeners it has registered. */
  class DrawStore {
    var isMouseDown: bool
    var prevPoint: Option<Point>
    var canvasRef: Option<Canvas>
    /** The calls made to `onDraw`, oldest first. */
    var drawn: seq<Draw>
    /** The rectangles passed to `clearRect`, oldest first. */
    var cleared: seq<Rect>
    /** The canvases carrying this hook's mousemove listener. */
    var moveListeners: set<nat>
    /** Whether the window carries this hook's mouseup listener. */
    var upListener: bool

    function State(): AppCanvasState
      reads this
    {
      AppCanvasState(isMouseDown, prevPoint, canvasRef)
    }

    /** At most the attached canvas carries listeners, and a released mouse has no previous point. */
    ghost predicate Valid()
      reads this
    {
      && StrokeInvariant(State())
      && moveListeners == (if canvasRef.Some? then {canvasRef.value.id} else {})
      && upListener == canvasRef.Some?
    }

    constructor ()
      ensures Valid() && State() == Initial
      ensures drawn == [] && cleared == []
    {
      isMouseDown, prevPoint, canvasRef := false, None, None;
      drawn, cleared := [], [];
      moveListeners, upListener := {}, false;
    }

    function ComputePointInCanvas(clientX: int, clientY: int): (p: Option<Point>)
      reads this
      ensures p == PointInCanvas(canvasRef, clientX, clientY)
    {
      if canvasRef.None? then None
      else Some(Point(clientX - canvasRef.value.left, clientY - canvasRef.value.top))
    }

    method MouseUpHandler()
      requires Valid()
      modifies this`isMouseDown, this`prevPoint
      ensures Valid() && State() == AfterMouseUp(old(State()))
    {
      isMouseDown := false;
      prevPoint := None;
    }

    method MouseMoveHandler(clientX: int, clientY: int)
      requires Valid()
      modifies this`prevPoint, this`drawn
      ensures Valid()
      ensures State() == AfterMouseMove(old(State()), clientX, clientY).0
      ensures drawn == old(drawn) + OptionToSeq(AfterMouseMove(old(State()), clientX, clientY).1)
    {
      if !isMouseDown {
        return;
      }
      var currentPoint := ComputePointInCanvas(clientX, clientY);
      var hasCtx := canvasRef.Some? && canvasRef.value.hasContext;
      if !hasCtx || currentPoint.None? {
        return;
      }
      drawn := drawn + [Draw(currentPoint.value, prevPoint)];
      prevPoint := currentPoint;
    }

    method AddEventListeners(canvas: Canvas)
      modifies this`moveListeners, this`upListener
      ensures moveListeners == old(moveListeners) + {canvas.id} && upListener
    {
      moveListeners := moveListeners + {canvas.id};
      upListener := true;
    }

    method RemoveEventListeners(canvas: Canvas)
      modifies this`moveListeners, this`upListener
      ensures moveListeners == old(moveListeners) - {canvas.id} && !upListener
    {
      moveListeners := moveListeners - {canvas.id};
      upListener := false;
    }

    /** Detaches the listeners from the old canvas before attaching them to the new one. */
    method SetCanvasState(element: Option<Canvas>)
      requires Valid()
      modifies this`canvasRef, this`moveListeners, this`upListener
      ensures Valid() && State() == AfterSetCanvas(old(State()), element)
      ensures moveListeners == (if element.Some? then {element.value.id} else {})
    {
      if canvasRef.Some? {
        RemoveEventListeners(canvasRef.value);
      }
      canvasRef := element;
      if canvasRef.Some? {
        AddEventListeners(canvasRef.value);
      }
    }

    method OnMouseDown()
      requires Valid()
      modifies this`isMouseDown
      ensures Valid() && State() == AfterMouseDown(old(State()))
    {
      isMouseDown := true;
    }

    method OnClear()
      requires Valid()
      modifies this`cleared
      ensures Valid()
      ensures cleared == old(cleared) + OptionToSeq(ClearedRect(State()))
    {
      if canvasRef.None? {
        return;
      }
      if !canvasRef.value.hasContext {
        return;
      }
      cleared := cleared + [Rect(0, 0, canvasRef.value.width, canvasRef.value.height)];
    }

    /** Hands an event to the handler listening for it, if any. */
    method Dispatch(e: Event)
      requires Valid()
      modifies this
      ensures Valid()
      ensures var o := Step(old(State()), e);
              State() == o.state && drawn == old(drawn) + o.drawn && cleared == old(cleared) + o.cleared
    {
      match e
      case MouseDown => OnMouseDown();
      case MouseMove(target, x, y) =>
        if target in moveListeners {
          MouseMoveHandler(x, y);
        }
      case MouseUp =>
        if upListener {
          MouseUpHandler();
        }
      case SetCanvas(element) => SetCanvasState(element);
      case Clear => OnClear();
    }
  }

  /** A fresh hook fed `events` ends in the state and with the calls `Run` gives. */
  method RunDrawStore(events: seq<Event>) returns (o: Outcome)
    ensures o == Run(Initial, events)
    ensures StrokeInvariant(o.state)
  {
    var store := new DrawStore();
    var i := 0;
    while i < |events|
      invariant 0 <= i <= |events|
      invariant store.Valid()
      invariant Outcome(store.State(), store.drawn, store.cleared) == Run(Initial, events[..i])
    {
      store.Dispatch(events[i]);
      assert events[..i + 1][..i] == events[..i];
      i := i + 1;
    }
    assert events[..|events|] == events;
    o := Outcome(store.State(), store.drawn, store.cleared);
  }
}
