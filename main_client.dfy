/**
  The client's entry point (client/src/main.ts): the inline drawing loop on
  the page's canvas, the handshake and canvas-state reply on the socket, and
  the chat form that sends `"HH:MM: text"` lines.

  Offsets are integers. The 2D context is present (the page throws at load
  otherwise), strokes are recorded rather than painted, `toDataURL()` is a
  parameter and the clock reading is passed in as hours and minutes.
*/
module MainClient {
  import opened Wrappers

  // ---------------------------------------------------------------------
  // Drawing

  /** The module-level `isDrawingState`, `startXState` and `startYState`; `None` is `undefined`. */
  datatype DrawingState = DrawingState(isDrawing: bool, startX: Option<int>, startY: Option<int>)

  /** A stroked line from the start point to the event's offset. */
  datatype Line = Line(fromX: int, fromY: int, toX: int, toY: int)

  /** Mouse events on the canvas, with their `offsetX`/`offsetY`. */
  datatype CanvasEvent =
    | CanvasMouseDown(x: int, y: int)
    | CanvasMouseUp
    | CanvasMouseMove(x: int, y: int)

  const InitialDrawing: DrawingState := DrawingState(false, None, None)

  /** Drawing has begun only with a start point recorded. */
  predicate StartsDefined(s: DrawingState)
  {
    s.isDrawing ==> s.startX.Some? && s.startY.Some?
  }

  function AfterCanvasMouseDown(s: DrawingState, x: int, y: int): (r: DrawingState)
    ensures r.isDrawing && r.startX == Some(x) && r.startY == Some(y)
    ensures StartsDefined(r)
  {
    DrawingState(true, Some(x), Some(y))
  }

  function AfterCanvasMouseUp(s: DrawingState): (r: DrawingState)
    ensures !r.isDrawing
    ensures r.startX == s.startX && r.startY == s.startY
    ensures StartsDefined(r)
  {
    s.(isDrawing := false)
  }

  /** The move handler: draws from the start to the offset and moves the start there. */
  function AfterCanvasMouseMove(s: DrawingState, x: int, y: int): (r: (DrawingState, Option<Line>))
    ensures !s.isDrawing ==> r == (s, None)
    ensures r.0.isDrawing == s.isDrawing
    ensures StartsDefined(s) && s.isDrawing ==>
      && r.1 == Some(Line(s.startX.value, s.startY.value, x, y))
      && r.0.startX == Some(x) && r.0.startY == Some(y)
    ensures StartsDefined(s) ==> StartsDefined(r.0)
  {
    if !s.isDrawing then (s, None)
    else if s.startX.None? || s.startY.None? then (s, None)
    else (DrawingState(true, Some(x), Some(y)), Some(Line(s.startX.value, s.startY.value, x, y)))
  }

  function DrawingStep(s: DrawingState, e: CanvasEvent): (r: (DrawingState, Option<Line>))
    ensures StartsDefined(s) ==> StartsDefined(r.0)
  {
    match e
    case CanvasMouseDown(x, y) => (AfterCanvasMouseDown(s, x, y), None)
    case CanvasMouseUp => (AfterCanvasMouseUp(s), None)
    case CanvasMouseMove(x, y) => AfterCanvasMouseMove(s, x, y)
  }

  /** A run of canvas events: the final state and the lines stroked, in order. */
  function DrawingRun(s: DrawingState, events: seq<CanvasEvent>): (r: (DrawingState, seq<Line>))
    ensures StartsDefined(s) ==> StartsDefined(r.0)
    ensures |r.1| <= |events|
  {
    if events == [] then (s, [])
    else
      var before := DrawingRun(s, events[..|events| - 1]);
      var after := DrawingStep(before.0, events[|events| - 1]);
      (after.0, before.1 + OptionToSeq(after.1))
  }

  /** Every event in the run is a move. */
  predicate AllMoves(events: seq<CanvasEvent>)
  {
    forall i :: 0 <= i < |events| ==> events[i].CanvasMouseMove?
  }

  /**
    While the button is held, each move strokes exactly one line, each line
    starts where the previous one ended (the first at the start point), and
    ends at its move's offset.
  */
  lemma {:induction false} MovesWhileDrawingChain(s: DrawingState, events: seq<CanvasEvent>)
    requires s.isDrawing && StartsDefined(s)
    requires AllMoves(events)
    ensures var r := DrawingRun(s, events);
            && |r.1| == |events|
            && r.0.isDrawing
            && (forall i :: 0 <= i < |events| ==> r.1[i].toX == events[i].x && r.1[i].toY == events[i].y)
            && (|events| > 0 ==> r.1[0].fromX == s.startX.value && r.1[0].fromY == s.startY.value)
            && (forall i :: 0 < i < |events| ==> r.1[i].fromX == r.1[i - 1].toX && r.1[i].fromY == r.1[i - 1].toY)
            && (|events| > 0 ==> r.0.startX == Some(events[|events| - 1].x) && r.0.startY == Some(events[|events| - 1].y))
  {
    if events != [] {
      var prefix := events[..|events| - 1];
      assert AllMoves(prefix) by {
        forall i | 0 <= i < |prefix| ensures prefix[i].CanvasMouseMove? {
          assert prefix[i] == events[i];
        }
      }
      MovesWhileDrawingChain(s, prefix);
    }
  }

  /** Moves with the button up stroke nothing and change nothing. */
  lemma {:induction false} MovesWhileIdleDrawNothing(s: DrawingState, events: seq<CanvasEvent>)
    requires !s.isDrawing
    requires AllMoves(events)
    ensures DrawingRun(s, events) == (s, [])
  {
    if events != [] {
      var prefix := events[..|events| - 1];
      assert AllMoves(prefix) by {
        forall i | 0 <= i < |prefix| ensures prefix[i].CanvasMouseMove? {
          assert prefix[i] == events[i];
        }
      }
      MovesWhileIdleDrawNothing(s, prefix);
    }
  }

  // ---------------------------------------------------------------------
  // Chat lines

  predicate IsDigit(c: char) { '0' <= c <= '9' }

  function DigitChar(d: nat): (c: char)
    requires d < 10
    ensures IsDigit(c)
  {
    ('0' as int + d) as char
  }

  function DigitValue(c: char): (d: nat)
    requires IsDigit(c)
    ensures d < 10 && DigitChar(d) == c
  {
    c as int - '0' as int
  }

  /** `Number.prototype.toString()` on a non-negative integer: decimal, no leading zeros. */
  function NatToString(n: nat): (s: string)
    ensures 1 <= |s|
    ensures forall i :: 0 <= i < |s| ==> IsDigit(s[i])
    ensures |s| > 1 ==> s[0] != '0'
    ensures n < 10 <==> |s| == 1
    decreases n
  {
    if n < 10 then [DigitChar(n)] else NatToString(n / 10) + [DigitChar(n % 10)]
  }

  /** The value of a string of decimal digits, leading zeros allowed. */
  function ParseDecimal(s: string): nat
    requires forall i :: 0 <= i < |s| ==> IsDigit(s[i])
  {
    if s == [] then 0 else ParseDecimal(s[..|s| - 1]) * 10 + DigitValue(s[|s| - 1])
  }

  /** Decimal rendering and parsing are inverse. */
  lemma {:induction false} ParseNatToString(n: nat)
    ensures ParseDecimal(NatToString(n)) == n
    decreases n
  {
    if n >= 10 {
      var s := NatToString(n);
      ParseNatToString(n / 10);
      assert s[..|s| - 1] == NatToString(n / 10);
    }
  }

  /** `s.padStart(len, fill)`. */
  function PadStart(s: string, len: nat, fill: char): (r: string)
    ensures |r| == if |s| >= len then |s| else len
    ensures r[|r| - |s|..] == s
    ensures forall i :: 0 <= i < |r| - |s| ==> r[i] == fill
  {
    if |s| >= len then s else seq(len - |s|, _ => fill) + s
  }

  /** `n.toString().padStart(2, "0")`. */
  function Pad2(n: nat): (r: string)
    ensures |r| >= 2
    ensures forall i :: 0 <= i < |r| ==> IsDigit(r[i])
  {
    PadStart(NatToString(n), 2, '0')
  }

  /** Below 100 the padded field is exactly the tens digit and the units digit. */
  lemma Pad2TwoDigits(n: nat)
    requires n < 100
    ensures Pad2(n) == [DigitChar(n / 10), DigitChar(n % 10)]
  {
    if n < 10 {
      assert NatToString(n) == [DigitChar(n)];
      assert seq(1, _ => '0') == ['0'];
    } else {
      assert NatToString(n / 10) == [DigitChar(n / 10)];
    }
  }

  /** Leading zeros do not change a decimal value. */
  lemma {:induction false} ParseLeadingZero(s: string)
    requires forall i :: 0 <= i < |s| ==> IsDigit(s[i])
    ensures ParseDecimal(['0'] + s) == ParseDecimal(s)
    decreases |s|
  {
    if s != [] {
      var t := ['0'] + s;
      assert t[..|t| - 1] == ['0'] + s[..|s| - 1];
      ParseLeadingZero(s[..|s| - 1]);
    }
  }

  /** Padding keeps the value: a padded field reads back as the number. */
  lemma Pad2RoundTrip(n: nat)
    ensures ParseDecimal(Pad2(n)) == n
  {
    var digits := NatToString(n);
    ParseNatToString(n);
    if n < 10 {
      assert Pad2(n) == ['0'] + digits;
      ParseLeadingZero(digits);
    }
  }

  /** The message the submit handler sends: `` `${HH}:${MM}: ${text}` ``. */
  function ChatLine(hours: nat, minutes: nat, text: string): (line: string)
    ensures |line| >= 7 + |text|
    ensures line[|line| - |text|..] == text
  {
    Pad2(hours) + ":" + Pad2(minutes) + ": " + text
  }

  /** Reads a chat line back into its hours, minutes and text. */
  function ParseChatLine(line: string): (r: Option<(nat, nat, string)>)
    ensures r.Some? ==> |line| >= 7 && r.value.0 < 100 && r.value.1 < 100
    ensures r.Some? ==> line[7..] == r.value.2
  {
    if |line| >= 7 && IsDigit(line[0]) && IsDigit(line[1]) && line[2] == ':'
       && IsDigit(line[3]) && IsDigit(line[4]) && line[5] == ':' && line[6] == ' '
    then Some((DigitValue(line[0]) * 10 + DigitValue(line[1]), DigitValue(line[3]) * 10 + DigitValue(line[4]), line[7..]))
    else None
  }

  /** A two-digit clock reading survives the round trip through the chat line. */
  lemma ChatLineRoundTrip(hours: nat, minutes: nat, text: string)
    requires hours < 100 && minutes < 100
    ensures |ChatLine(hours, minutes, text)| == 7 + |text|
    ensures ParseChatLine(ChatLine(hours, minutes, text)) == Some((hours, minutes, text))
  {
    Pad2TwoDigits(hours);
    Pad2TwoDigits(minutes);
    SpellOutHead(Pad2(hours), Pad2(minutes), text);
    ParseHead(hours / 10, hours % 10, minutes / 10, minutes % 10, text);
  }

  /** The chat line's layout, character by character. */
  lemma SpellOutHead(h: string, m: string, text: string)
    requires |h| == 2 && |m| == 2
    ensures h + ":" + m + ": " + text == [h[0], h[1], ':', m[0], m[1], ':', ' '] + text
  {
    assert h == [h[0], h[1]];
    assert m == [m[0], m[1]];
  }

  /** A line made of two two-digit fields, the separators and a text parses back to them. */
  lemma ParseHead(h1: nat, h0: nat, m1: nat, m0: nat, text: string)
    requires h1 < 10 && h0 < 10 && m1 < 10 && m0 < 10
    ensures var line := [DigitChar(h1), DigitChar(h0), ':', DigitChar(m1), DigitChar(m0), ':', ' '] + text;
            ParseChatLine(line) == Some((h1 * 10 + h0, m1 * 10 + m0, text))
  {
    var line := [DigitChar(h1), DigitChar(h0), ':', DigitChar(m1), DigitChar(m0), ':', ' '] + text;
    assert line[7..] == text;
  }

  // ---------------------------------------------------------------------
  // Socket traffic

  /** An emission on the client's socket. */
  datatype Emitted = Emitted(event: string, payload: Option<string>)

  /**
    The `get_canvas_state` listener: it answers with `canvas_state` carrying
    `toDataURL()` unless that string is empty.
  */
  function CanvasStateReply(dataUrl: string): (r: Option<Emitted>)
    ensures r.Some? <==> dataUrl != ""
    ensures r.Some? ==> r.value.event == "canvas_state" && r.value.payload == Some(dataUrl)
  {
    if dataUrl == "" then None else Some(Emitted("canvas_state", Some(dataUrl)))
  }

  /** The submit listener's emission for the input's value, if any. */
  function SubmitEmission(input: string, hours: nat, minutes: nat): (r: Option<Emitted>)
    ensures r.Some? <==> input != ""
    ensures r.Some? ==> r.value.event == "chat_message" && r.value.payload == Some(ChatLine(hours, minutes, input))
  {
    if input == "" then None else Some(Emitted("chat_message", Some(ChatLine(hours, minutes, input))))
  }

  /** What a submit sends can be read back into the clock reading and the typed text. */
  lemma SubmitReadsBack(input: string, hours: nat, minutes: nat)
    requires input != "" && hours < 24 && minutes < 60
    ensures var r := SubmitEmission(input, hours, minutes);
            r.Some? && ParseChatLine(r.value.payload.value) == Some((hours, minutes, input))
  {
    ChatLineRoundTrip(hours, minutes, input);
  }

  // ---------------------------------------------------------------------
  // The page

  /** The page's module-level state, the chat input's value and the socket's emissions. */
  class Client {
    var isDrawingState: bool
    var startXState: Option<int>
    var startYState: Option<int>
    var strokes: seq<Line>
    var inputValue: string
    var emitted: seq<Emitted>

    function Drawing(): DrawingState
      reads this
    {
      DrawingState(isDrawingState, startXState, startYState)
    }

    ghost predicate Valid()
      reads this
    {
      StartsDefined(Drawing())
    }

    /** Page load: the drawing state starts idle and the socket announces `client_ready`. */
    constructor ()
      ensures Valid()
      ensures Drawing() == InitialDrawing && strokes == [] && inputValue == ""
      ensures emitted == [Emitted("client_ready", None)]
    {
      isDrawingState := false;
      startXState := None;
      startYState := None;
      strokes := [];
      inputValue := "";
      emitted := [Emitted("client_ready", None)];
    }

    method OnCanvasMouseDown(offsetX: int, offsetY: int)
      modifies this`isDrawingState, this`startXState, this`startYState
      ensures Valid()
      ensures Drawing() == AfterCanvasMouseDown(old(Drawing()), offsetX, offsetY)
    {
      isDrawingState := true;
      startXState := Some(offsetX);
      startYState := Some(offsetY);
    }

    method OnCanvasMouseUp()
      requires Valid()
      modifies this`isDrawingState
      ensures Valid()
      ensures Drawing() == AfterCanvasMouseUp(old(Drawing()))
    {
      isDrawingState := false;
    }

    method OnCanvasMouseMove(offsetX: int, offsetY: int)
      requires Valid()
      modifies this`startXState, this`startYState, this`strokes
      ensures Valid()
      ensures var r := AfterCanvasMouseMove(old(Drawing()), offsetX, offsetY);
              Drawing() == r.0 && strokes == old(strokes) + OptionToSeq(r.1)
    {
      if isDrawingState {
        if startXState.None? || startYState.None? {
          return;
        }
        strokes := strokes + [Line(startXState.value, startYState.value, offsetX, offsetY)];
        startXState := Some(offsetX);
        startYState := Some(offsetY);
      }
    }

    method Dispatch(e: CanvasEvent)
      requires Valid()
      modifies this`isDrawingState, this`startXState, this`startYState, this`strokes
      ensures Valid()
      ensures var r := DrawingStep(old(Drawing()), e);
              Drawing() == r.0 && strokes == old(strokes) + OptionToSeq(r.1)
    {
      match e
      case CanvasMouseDown(x, y) => OnCanvasMouseDown(x, y);
      case CanvasMouseUp => OnCanvasMouseUp();
      case CanvasMouseMove(x, y) => OnCanvasMouseMove(x, y);
    }

    /** The `get_canvas_state` listener, given what `toDataURL()` returns. */
    method OnGetCanvasState(dataUrl: string)
      modifies this`emitted
      ensures emitted == old(emitted) + OptionToSeq(CanvasStateReply(dataUrl))
    {
      if dataUrl == "" {
        return;
      }
      emitted := emitted + [Emitted("canvas_state", Some(dataUrl))];
    }

    /** The user types into the chat input. */
    method OnInput(value: string)
      modifies this`inputValue
      ensures inputValue == value
    {
      inputValue := value;
    }

    /** The form's submit listener, given the clock's hours and minutes. */
    method OnSubmit(hours: nat, minutes: nat)
      requires hours < 24 && minutes < 60
      modifies this`emitted, this`inputValue
      ensures emitted == old(emitted) + OptionToSeq(SubmitEmission(old(inputValue), hours, minutes))
      ensures inputValue == ""
    {
      if inputValue != "" {
        var msg := ChatLine(hours, minutes, inputValue);
        emitted := emitted + [Emitted("chat_message", Some(msg))];
        inputValue := "";
      }
    }
  }

  /** A freshly loaded page fed a run of canvas events ends as `DrawingRun` says. */
  method RunCanvas(events: seq<CanvasEvent>) returns (s: DrawingState, lines: seq<Line>)
    ensures (s, lines) == DrawingRun(InitialDrawing, events)
    ensures StartsDefined(s)
  {
    var client := new Client();
    for i := 0 to |events|
      invariant client.Valid()
      invariant (client.Drawing(), client.strokes) == DrawingRun(InitialDrawing, events[..i])
    {
      assert events[..i + 1][..i] == events[..i];
      client.Dispatch(events[i]);
    }
    assert events[..|events|] == events;
    s := client.Drawing();
    lines := client.strokes;
  }
}
