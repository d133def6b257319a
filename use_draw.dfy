/**
  The two drawing hooks of client/src/hooks/use-draw.ts: a second copy of
  `useDrawStore`, whose handlers update a shared state object, and `useDraw`,
  whose handlers update closure variables. Both are proved against the
  handler functions of `UseDrawStore`, and so are shown to agree with each
  other and with the hook of use-draw-store.ts on every event sequence.
*/
module UseDraw {
  import opened Wrappers
  import opened CanvasTypes
  import opened UseDrawStore

  /** One instance of this file's `useDrawStore`: the `canvasState` object and its listeners. */
  class DrawStore {
    var isMouseDown: bool
    var prevPoint: Option<Point>
    var canvasRef: Option<Canvas>
    /** The calls made to `onDrawTrigger`, oldest first. */
    var drawn: seq<Draw>
    /** The rectangles passed to `clearRect`, oldest first. */
    var cleared: seq<Rect>
    var moveListeners: set<nat>
    var upListener: bool

    function State(): AppCanvasState
      reads this
    {
      AppCanvasState(isMouseDown, prevPoint, canvasRef)
    }

    ghost predicate Valid()
      reads this
    {
      && StrokeInvariant(State())
      && moveListeners == (if canvasRef.Some? then {canvasRef.value.id} else {})
      && upListener == canvasRef.Some?
    }

    constructor ()
      ensures Valid() && State() == Initial
      ensures drawn == [] && cleared == []
    {
      isMouseDown, prevPoint, canvasRef := false, None, None;
      drawn, cleared := [], [];
      moveListeners, upListener := {}, false;
    }

    function ComputePointInCanvas(clientX: int, clientY: int): (p: Option<Point>)
      reads this
      ensures p == PointInCanvas(canvasRef, clientX, clientY)
    {
      if canvasRef.None? then None
      else Some(Point(clientX - canvasRef.value.left, clientY - canvasRef.value.top))
    }

    method MouseMoveHandler(clientX: int, clientY: int)
      requires Valid()
      modifies this`prevPoint, this`drawn
      ensures Valid()
      ensures State() == AfterMouseMove(old(State()), clientX, clientY).0
      ensures drawn == old(drawn) + OptionToSeq(AfterMouseMove(old(State()), clientX, clientY).1)
    {
      if !isMouseDown {
        return;
      }
      var currentPoint := ComputePointInCanvas(clientX, clientY);
      var hasCtx := canvasRef.Some? && canvasRef.value.hasContext;
      if !hasCtx || currentPoint.None? {
        return;
      }
      drawn := drawn + [Draw(currentPoint.value, prevPoint)];
      prevPoint := currentPoint;
    }

    method MouseUpHandler()
      requires Valid()
      modifies this`isMouseDown, this`prevPoint
      ensures Valid() && State() == AfterMouseUp(old(State()))
    {
      isMouseDown := false;
      prevPoint := None;
    }

    method AddEventListeners(canvas: Canvas)
      modifies this`moveListeners, this`upListener
      ensures moveListeners == old(moveListeners) + {canvas.id} && upListener
    {
      moveListeners := moveListeners + {canvas.id};
      upListener := true;
    }

    method RemoveEventListeners(canvas: Canvas)
      modifies this`moveListeners, this`upListener
      ensures moveListeners == old(moveListeners) - {canvas.id} && !upListener
    {
      moveListeners := moveListeners - {canvas.id};
      upListener := false;
    }

    method SetCanvasState(element: Option<Canvas>)
      requires Valid()
      modifies this`canvasRef, this`moveListeners, this`upListener
      ensures Valid() && State() == AfterSetCanvas(old(State()), element)
      ensures moveListeners == (if element.Some? then {element.value.id} else {})
    {
      if canvasRef.Some? {
        RemoveEventListeners(canvasRef.value);
      }
      canvasRef := element;
      if canvasRef.Some? {
        AddEventListeners(canvasRef.value);
      }
    }

    method OnMouseDown()
      requires Valid()
      modifies this`isMouseDown
      ensures Valid() && State() == AfterMouseDown(old(State()))
    {
      isMouseDown := true;
    }

    method OnClear()
      requires Valid()
      modifies this`cleared
      ensures Valid()
      ensures cleared == old(cleared) + OptionToSeq(ClearedRect(State()))
    {
      if canvasRef.None? {
        return;
      }
      if !canvasRef.value.hasContext {
        return;
      }
      cleared := cleared + [Rect(0, 0, canvasRef.value.width, canvasRef.value.height)];
    }

    method Dispatch(e: Event)
      requires Valid()
      modifies this
      ensures Valid()
      ensures var o := Step(old(State()), e);
              State() == o.state && drawn == old(drawn) + o.drawn && cleared == old(cleared) + o.cleared
    {
      match e
      case MouseDown => OnMouseDown();
      case MouseMove(target, x, y) =>
        if target in moveListeners {
          MouseMoveHandler(x, y);
        }
      case MouseUp =>
        if upListener {
          MouseUpHandler();
        }
      case SetCanvas(element) => SetCanvasState(element);
      case Clear => OnClear();
    }
  }

  /** One instance of `useDraw`: its closure variables and its listeners. */
  class DrawHook {
    var mouseDown: bool
    var prevPoint: Option<Point>
    var canvasRef: Option<Canvas>
    /** The calls made to `onDraw`, oldest first. */
    var drawn: seq<Draw>
    /** The rectangles passed to `clearRect`, oldest first. */
    var cleared: seq<Rect>
    var moveListeners: set<nat>
    var upListener: bool

    function State(): AppCanvasState
      reads this
    {
      AppCanvasState(mouseDown, prevPoint, canvasRef)
    }

    ghost predicate Valid()
      reads this
    {
      && StrokeInvariant(State())
      && moveListeners == (if canvasRef.Some? then {canvasRef.value.id} else {})
      && upListener == canvasRef.Some?
    }

    constructor ()
      ensures Valid() && State() == Initial
      ensures drawn == [] && cleared == []
    {
      mouseDown, prevPoint, canvasRef := false, None, None;
      drawn, cleared := [], [];
      moveListeners, upListener := {}, false;
    }

    method OnMouseDown()
      requires Valid()
      modifies this`mouseDown
      ensures Valid() && State() == AfterMouseDown(old(State()))
    {
      mouseDown := true;
    }

    method Clear()
      requires Valid()
      modifies this`cleared
      ensures Valid()
      ensures cleared == old(cleared) + OptionToSeq(ClearedRect(State()))
    {
      if canvasRef.None? {
        return;
      }
      if !canvasRef.value.hasContext {
        return;
      }
      cleared := cleared + [Rect(0, 0, canvasRef.value.width, canvasRef.value.height)];
    }

    /** The mousemove listener. */
    method Handler(clientX: int, clientY: int)
      requires Valid()
      modifies this`prevPoint, this`drawn
      ensures Valid()
      ensures State() == AfterMouseMove(old(State()), clientX, clientY).0
      ensures drawn == old(drawn) + OptionToSeq(AfterMouseMove(old(State()), clientX, clientY).1)
    {
      if !mouseDown {
        return;
      }
      var currentPoint := ComputePointInCanvas(clientX, clientY);
      var hasCtx := canvasRef.Some? && canvasRef.value.hasContext;
      if !hasCtx || currentPoint.None? {
        return;
      }
      drawn := drawn + [Draw(currentPoint.value, prevPoint)];
      prevPoint := currentPoint;
    }

    function ComputePointInCanvas(clientX: int, clientY: int): (p: Option<Point>)
      reads this
      ensures p == PointInCanvas(canvasRef, clientX, clientY)
    {
      if canvasRef.None? then None
      else
        var x := clientX - canvasRef.value.left;
        var y := clientY - canvasRef.value.top;
        Some(Point(x, y))
    }

    method MouseUpHandler()
      requires Valid()
      modifies this`mouseDown, this`prevPoint
      ensures Valid() && State() == AfterMouseUp(old(State()))
    {
      mouseDown := false;
      prevPoint := None;
    }

    method AddEventListeners(canvas: Canvas)
      modifies this`moveListeners, this`upListener
      ensures moveListeners == old(moveListeners) + {canvas.id} && upListener
    {
      moveListeners := moveListeners + {canvas.id};
      upListener := true;
    }

    method RemoveEventListeners(canvas: Canvas)
      modifies this`moveListeners, this`upListener
      ensures moveListeners == old(moveListeners) - {canvas.id} && !upListener
    {
      moveListeners := moveListeners - {canvas.id};
      upListener := false;
    }

    /** `canvasRefSetter`, returned as `setCanvasState`. */
    method CanvasRefSetter(element: Option<Canvas>)
      requires Valid()
      modifies this`canvasRef, this`moveListeners, this`upListener
      ensures Valid() && State() == AfterSetCanvas(old(State()), element)
      ensures moveListeners == (if element.Some? then {element.value.id} else {})
    {
      if canvasRef.Some? {
        RemoveEventListeners(canvasRef.value);
      }
      canvasRef := element;
      if canvasRef.Some? {
        AddEventListeners(canvasRef.value);
      }
    }

    method Dispatch(e: Event)
      requires Valid()
      modifies this
      ensures Valid()
      ensures var o := Step(old(State()), e);
              State() == o.state && drawn == old(drawn) + o.drawn && cleared == old(cleared) + o.cleared
    {
      match e
      case MouseDown => OnMouseDown();
      case MouseMove(target, x, y) =>
        if target in moveListeners {
          Handler(x, y);
        }
      case MouseUp =>
        if upListener {
          MouseUpHandler();
        }
      case SetCanvas(element) => CanvasRefSetter(element);
      case Clear => Clear();
    }
  }

  /** A fresh `useDrawStore` instance of this file fed `events`. */
  method RunDrawStore(events: seq<Event>) returns (o: Outcome)
    ensures o == Run(Initial, events)
  {
    var store := new DrawStore();
    var i := 0;
    while i < |events|
      invariant 0 <= i <= |events|
      invariant store.Valid()
      invariant Outcome(store.State(), store.drawn, store.cleared) == Run(Initial, events[..i])
    {
      store.Dispatch(events[i]);
      assert events[..i + 1][..i] == events[..i];
      i := i + 1;
    }
    assert events[..|events|] == events;
    o := Outcome(store.State(), store.drawn, store.cleared);
  }

  /** A fresh `useDraw` instance fed `events`. */
  method RunDrawHook(events: seq<Event>) returns (o: Outcome)
    ensures o == Run(Initial, events)
  {
    var hook := new DrawHook();
    var i := 0;
    while i < |events|
      invariant 0 <= i <= |events|
      invariant hook.Valid()
      invariant Outcome(hook.State(), hook.drawn, hook.cleared) == Run(Initial, events[..i])
    {
      hook.Dispatch(events[i]);
      assert events[..i + 1][..i] == events[..i];
      i := i + 1;
    }
    assert events[..|events|] == events;
    o := Outcome(hook.State(), hook.drawn, hook.cleared);
  }

  /**
    The three hooks, each fed the same events from a fresh instance, make the
    same `onDraw` and `clearRect` calls and end in the same state.
  */
  method CopiesAgree(events: seq<Event>) returns (store: Outcome, storeCopy: Outcome, hook: Outcome)
    ensures store == storeCopy == hook
  {
    store := UseDrawStore.RunDrawStore(events);
    storeCopy := RunDrawStore(events);
    hook := RunDrawHook(events);
  }
}
