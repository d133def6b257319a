# canvas-multiplayer in Dafny

A model of the rule-bearing core of canvas-multiplayer. This is a browser whiteboard whose clients draw on a canvas, clear it and chat. A small socket.io server relays a few events between them.

The model covers:

- **The pointer-to-segment state machine of the drawing hooks.** It exists in three copies:
  - `useDrawStore` in `client/src/hooks/use-draw-store.ts`;
  - a second `useDrawStore` in `client/src/hooks/use-draw.ts`;
  - the closure-variable `useDraw` in that same file.

  The shared state is `isMouseDown`, `prevPoint` and the attached canvas. A mouse-down presses. Each qualifying mouse-move calls `onDraw` with the previous and the current point, then advances the previous point. A mouse-up ends the stroke. `setCanvasState` moves the listeners to a new canvas. `onClear` clears the whole canvas rectangle.
  - `UseDrawStore` gives each handler's effect as a function and gives the delivery of DOM events (`Step`) and whole runs (`Run`). It proves the stroke invariant, the chaining of segments and the other promised facts, and it models the hook as the class `DrawStore`.
  - `UseDraw` models the two copies in `use-draw.ts` as the classes `DrawStore` and `DrawHook`. Each handler is proved against the same functions. So for every event sequence, all three copies produce the same `onDraw` calls, the same cleared rectangles and the same final state.
- **The relay server's routing** (`server/src/index.ts`), in `Relay`:
  - `client-ready` asks every other connection for its canvas state;
  - `clear` is echoed to every connection, the sender included;
  - a disconnect announces `"A user has left"` under the event name `client-ready` to the remaining connections;
  - every other event name has no handler.

  The connection set is a class field that connections and disconnections update.
- **The event-name catalogue** of `client/src/lib/types/socket.ts`, in `SocketTypes`, together with the names `client/src/main.ts` emits and listens for. The server listens for and emits hyphenated names (`client-ready`, `get-canvas-state`). The client emits and listens for underscored ones (`client_ready`, `get_canvas_state`). The model keeps this mismatch exactly as written. It proves two consequences:
  - `clear` is the only client event the server routes;
  - nothing the server emits is a name the client's entry point listens for.
- **The chat profanity scrubber** `cleanUpProfanity` and `isLetter` (`client/src/helpers.ts`), in `Helpers`. The model works over a word list given as a parameter. It covers:
  - argument correction;
  - acting only on the first listed word the lower-cased input contains;
  - the replacement value, which keeps the first `limiter` characters of the input and can throw `RangeError`;
  - case-insensitive replace-all.
- **Clamped linear interpolation** `lerp` (`client/src/utils.ts`), over the reals, in `Utils`.
- **The client entry point** (`client/src/main.ts`), in `MainClient`:
  - the inline canvas drawing loop (`isDrawingState`, `startXState`, `startYState`);
  - the `client_ready` handshake;
  - the `get_canvas_state` reply guard;
  - the chat submit handler that sends `"HH:MM: text"`.

Value types from `client/src/lib/types/canvas.ts` are in `CanvasTypes`. `Option` and `Result` are in `Wrappers`.

Unlike the commented-out archived handlers in the hook files, the live code that the model follows:

- does not set the previous point on a mouse-down;
- does not reset the previous point or the mouse flag on a clear.

In the live hooks the window's mouse-up listener exists only while a canvas is attached, so a release with no canvas attached reaches no handler.

In `main.ts`, the mouse-up listener sits on the canvas itself. A release outside the canvas is never seen, and the page keeps drawing when the pointer comes back.

socket.io removes a socket from its namespace before the socket's `disconnect` handler runs. So the departure notice goes to the remaining connections only.

## Model

| member | source | states |
|---|---|---|
| UseDrawStore.PointInCanvas | client/src/hooks/use-draw-store.ts:95-109 | no point exactly when no canvas is attached; otherwise the point plus the bounding rectangle's origin gives back the client coordinates |
| UseDrawStore.AfterMouseUp | client/src/hooks/use-draw-store.ts:19-22 | whatever the state, the mouse is released and the previous point cleared, and the canvas is kept; the stroke invariant holds afterwards |
| UseDrawStore.AfterMouseDown | client/src/hooks/use-draw-store.ts:64-66 | the mouse is pressed and the previous point and canvas are left as they were |
| UseDrawStore.AfterMouseMove | client/src/hooks/use-draw-store.ts:24-38 | with the mouse up: no call and no change. A call is made exactly when the mouse is down and the attached canvas has a 2D context. The call carries the old previous point and the computed point, and the previous point then becomes that point. Otherwise the state is unchanged. The stroke invariant is preserved |
| UseDrawStore.AfterSetCanvas | client/src/hooks/use-draw-store.ts:54-62 | the canvas becomes the given element (or none) and the mouse flag and previous point are unchanged |
| UseDrawStore.ClearedRect | client/src/hooks/use-draw-store.ts:77-93 | a rectangle is cleared exactly when a canvas with a 2D context is attached, and it is `(0, 0, width, height)` of that canvas |
| UseDrawStore.Step | client/src/hooks/use-draw-store.ts:8-75 | per delivered event: the stroke invariant is preserved, at most one `onDraw` call and one cleared rectangle result, only moves draw, only clears clear, and a clear changes no state. Emitted segments chain from the previous point, and the previous point ends at the last segment's point |
| UseDrawStore.Run | client/src/hooks/use-draw-store.ts:8-75 | the stroke invariant `!isMouseDown ==> prevPoint == null` holds after any run of events that starts in a state where it holds; at most one call and one rectangle per event |
| UseDrawStore.RunAppend | client/src/hooks/use-draw-store.ts:8-75 | running `a` then `b` is running `a + b`: final states agree and the emitted calls and rectangles concatenate |
| UseDrawStore.RunChains | client/src/hooks/use-draw-store.ts:29-37 | without a mouse-up, each segment's previous point is the point of the segment before it (the first starts at the initial previous point), and the run ends with the previous point at the last segment's point |
| UseDrawStore.PressStartsStroke | client/src/hooks/use-draw-store.ts:19-66 | starting released with the invariant, a mouse-down followed by events without mouse-up emits one chain whose first segment has a null previous point |
| UseDrawStore.IdleMovesEmitNothing | client/src/hooks/use-draw-store.ts:24-27 | moves while the mouse is up emit nothing and leave the state unchanged |
| UseDrawStore.MovesWhileDrawingEmitOnePerSample | client/src/hooks/use-draw-store.ts:24-38 | with the mouse down over an attached canvas with a context, every move over it emits exactly one segment, ending at the move's client point minus the canvas origin; nothing is cleared and the press and canvas persist |
| UseDrawStore.MouseUpIdempotent | client/src/hooks/use-draw-store.ts:19-22 | two mouse-ups have the same effect as one |
| UseDrawStore.DrawStore.constructor | client/src/hooks/use-draw-store.ts:9-13 | the hook starts released, with no previous point, no canvas, no listeners and no calls |
| UseDrawStore.DrawStore.ComputePointInCanvas | client/src/hooks/use-draw-store.ts:95-109 | the point computed from the current canvas field is `PointInCanvas` of it |
| UseDrawStore.DrawStore.MouseUpHandler | client/src/hooks/use-draw-store.ts:19-22 | the fields become `AfterMouseUp` of the old state and the invariants are kept |
| UseDrawStore.DrawStore.MouseMoveHandler | client/src/hooks/use-draw-store.ts:24-38 | the fields become `AfterMouseMove` of the old state, and the `onDraw` trace grows by exactly the call it yields |
| UseDrawStore.DrawStore.AddEventListeners | client/src/hooks/use-draw-store.ts:42-45 | the canvas gains the mousemove listener and the window the mouseup listener |
| UseDrawStore.DrawStore.RemoveEventListeners | client/src/hooks/use-draw-store.ts:47-50 | the canvas loses the mousemove listener and the window the mouseup listener |
| UseDrawStore.DrawStore.SetCanvasState | client/src/hooks/use-draw-store.ts:54-62 | the canvas field becomes the element; afterwards exactly the new canvas carries the mousemove listener (none when the element is null), and the window listener exists exactly when a canvas is attached |
| UseDrawStore.DrawStore.OnMouseDown | client/src/hooks/use-draw-store.ts:64-66 | the fields become `AfterMouseDown` of the old state |
| UseDrawStore.DrawStore.OnClear | client/src/hooks/use-draw-store.ts:77-93 | the cleared-rectangle trace grows by `ClearedRect` of the state and nothing else changes |
| UseDrawStore.DrawStore.Dispatch | client/src/hooks/use-draw-store.ts:8-75 | delivering an event through the registered listeners changes the fields and traces exactly as `Step` says |
| UseDrawStore.RunDrawStore | client/src/hooks/use-draw-store.ts:8-75 | a fresh hook fed any event sequence ends with the state, calls and rectangles of `Run` from the initial state, and satisfies the stroke invariant |
| UseDraw.DrawStore.constructor | client/src/hooks/use-draw.ts:67-71 | the second copy starts released, with no previous point, no canvas and no listeners |
| UseDraw.DrawStore.ComputePointInCanvas | client/src/hooks/use-draw.ts:48-62 | the computed point is `PointInCanvas` of the canvas field |
| UseDraw.DrawStore.MouseMoveHandler | client/src/hooks/use-draw.ts:77-90 | the fields become `AfterMouseMove` of the old state and the trace grows by its call |
| UseDraw.DrawStore.MouseUpHandler | client/src/hooks/use-draw.ts:92-95 | the fields become `AfterMouseUp` of the old state |
| UseDraw.DrawStore.AddEventListeners | client/src/hooks/use-draw.ts:99-102 | the canvas gains the mousemove listener and the window the mouseup listener |
| UseDraw.DrawStore.RemoveEventListeners | client/src/hooks/use-draw.ts:104-107 | both listeners are removed |
| UseDraw.DrawStore.SetCanvasState | client/src/hooks/use-draw.ts:111-119 | the canvas field becomes the element and only that canvas carries listeners |
| UseDraw.DrawStore.OnMouseDown | client/src/hooks/use-draw.ts:121-123 | the fields become `AfterMouseDown` of the old state |
| UseDraw.DrawStore.OnClear | client/src/hooks/use-draw.ts:30-46 | the cleared-rectangle trace grows by `ClearedRect` of the state |
| UseDraw.DrawStore.Dispatch | client/src/hooks/use-draw.ts:64-132 | delivering an event changes the copy exactly as `Step` says |
| UseDraw.DrawHook.constructor | client/src/hooks/use-draw.ts:134-137 | the closure variables start released, with no previous point and no canvas |
| UseDraw.DrawHook.OnMouseDown | client/src/hooks/use-draw.ts:139-141 | the closure state becomes `AfterMouseDown` of the old one |
| UseDraw.DrawHook.Clear | client/src/hooks/use-draw.ts:143-150 | the cleared-rectangle trace grows by `ClearedRect` of the state |
| UseDraw.DrawHook.Handler | client/src/hooks/use-draw.ts:152-161 | the closure state becomes `AfterMouseMove` of the old one and the trace grows by its call |
| UseDraw.DrawHook.ComputePointInCanvas | client/src/hooks/use-draw.ts:163-171 | the computed point is `PointInCanvas` of the canvas variable |
| UseDraw.DrawHook.MouseUpHandler | client/src/hooks/use-draw.ts:173-176 | the closure state becomes `AfterMouseUp` of the old one |
| UseDraw.DrawHook.AddEventListeners | client/src/hooks/use-draw.ts:178-181 | the canvas gains the mousemove listener and the window the mouseup listener |
| UseDraw.DrawHook.RemoveEventListeners | client/src/hooks/use-draw.ts:183-186 | both listeners are removed |
| UseDraw.DrawHook.CanvasRefSetter | client/src/hooks/use-draw.ts:188-198 | the canvas variable becomes the element and only that canvas carries listeners |
| UseDraw.DrawHook.Dispatch | client/src/hooks/use-draw.ts:134-201 | delivering an event changes the closure state exactly as `Step` says |
| UseDraw.RunDrawStore | client/src/hooks/use-draw.ts:64-132 | the second `useDrawStore` copy, fed any event sequence, ends as `Run` from the initial state |
| UseDraw.RunDrawHook | client/src/hooks/use-draw.ts:134-201 | `useDraw`, fed any event sequence, ends as `Run` from the initial state |
| UseDraw.CopiesAgree | client/src/hooks/use-draw.ts:64-201 | the three copies, fed the same event sequence, make the same `onDraw` calls and clear the same rectangles, and end in the same state |
| Relay.Route | server/src/index.ts:21-26 | a message produces an emission exactly when its name is `client-ready` or `clear`, with no payload, to connections only. Every connection other than the sender receives it, and a connected sender receives it exactly when the name is `clear`. `client-ready` becomes `get-canvas-state` and `clear` stays `clear` |
| Relay.LeaveNotice | server/src/index.ts:28-31 | the disconnect notice goes to exactly the given remaining connections, as event `client-ready` with payload `"A user has left"` |
| Relay.DisconnectNotifiesRemaining | server/src/index.ts:28-31 | a disconnect of a live connection removes it and appends exactly one notice, `client-ready` with `"A user has left"`, to the connections that remain; the leaver does not receive it and earlier emissions are kept |
| Relay.Step | server/src/index.ts:21-32 | each transport event appends at most one emission and never removes or alters earlier ones |
| Relay.Run | server/src/index.ts:21-32 | a run appends at most one emission per event to what was emitted before |
| Relay.RunEmitsOnlyToConnected | server/src/index.ts:21-32 | from no connections, the live set only holds ids that connected and no emission ever reaches an id that never connected |
| Relay.UnhandledNamesIgnored | server/src/index.ts:21-32 | `client_ready`, `draw_line`, `chat_message` and `canvas_state` change neither the connection set nor the emissions |
| Relay.OnlyClearIsRouted | server/src/index.ts:22-26 | of the names the client declares it sends, exactly `clear` reaches a handler |
| Relay.ServerEmitsNothingTheClientHears | server/src/index.ts:21-32 | no name the server emits, the departure notice included, is one the client's entry point listens for |
| Relay.ClearTwiceSameRecipients | server/src/index.ts:26 | two `clear` messages in a row produce two identical emissions, both to the whole connection set |
| Relay.RelayServer.constructor | server/src/index.ts:21 | the server starts with no connections and no emissions |
| Relay.RelayServer.OnConnection | server/src/index.ts:21 | a connection joins the set and nothing is emitted |
| Relay.RelayServer.OnMessage | server/src/index.ts:22-26 | the emissions grow by exactly what `Route` gives for the sender, the name and the current set; the set is unchanged |
| Relay.RelayServer.OnDisconnect | server/src/index.ts:28-31 | the leaver is removed and the notice is sent to the remaining set |
| Relay.RelayServer.Deliver | server/src/index.ts:21-32 | delivering a transport event changes the server exactly as `Step` says |
| Relay.RunRelay | server/src/index.ts:21-32 | a fresh server fed any events ends as `Run` from no connections |
| SocketTypes.EntryPointUsesDeclaredNames | client/src/lib/types/socket.ts:3-22 | the names the entry point listens for are declared server-to-client events, and those it emits are declared client-to-server events |
| Helpers.CorrectLimiter | client/src/helpers.ts:16-20 | the limiter is always positive: a given positive limiter is kept, and a missing, null or non-positive one becomes 2 |
| Helpers.CorrectReplaceKey | client/src/helpers.ts:15-28 | the key is never empty or a single space: a given key other than those is kept, and a missing, null, empty or single-space one becomes U+1F4A9 |
| Helpers.Includes | client/src/helpers.ts:31 | `includes`: the word occurs at some position of the string (no contract of its own; `IncludedWordMatches` and `FirstIncluded` use it) |
| Helpers.EqualsIgnoringCase | client/src/helpers.ts:9-11 | the `i` flag's comparison, character by character up to case (no contract of its own; `EqualsIgnoringCaseLower` shows it is equality of the lower-case forms) |
| Helpers.MatchesAt | client/src/helpers.ts:9-11 | the expression `new RegExp(word, "gi")` matches at a position (no contract of its own; `MatchesAtShift`, `IncludedWordMatches` and `FirstMatch` state its properties) |
| Helpers.ReplaceAllCaseless | client/src/helpers.ts:35 | `input.replace(applyWordRegex(word), value)`: a left-to-right scan without overlaps that replaces every case-insensitive occurrence (no contract of its own; `ReplaceAllAbsent`, `ReplaceAllFirstOccurrence` and `ReplaceAllKeepsLength` state what it does) |
| Helpers.ToLower | client/src/helpers.ts:31 | the lower-cased input has the input's length and each character is the case-folded one |
| Helpers.FirstIncluded | client/src/helpers.ts:30-31 | the index of the first list word the lowered input contains, with no earlier word contained; none exactly when no word is contained |
| Helpers.Repeat | client/src/helpers.ts:33 | `repeat(n)` is `n` times the key's length long and made only of the key's characters (only the key's character for a one-character key) |
| Helpers.RepeatIsCopies | client/src/helpers.ts:33 | `repeat(n)` is the key written out `n` times: position `i` holds the key's character at offset `i % key.length` |
| Helpers.Kept | client/src/helpers.ts:33 | `substring(0, limiter)` keeps `limiter` characters, or the whole input when it is shorter |
| Helpers.ReplacementValue | client/src/helpers.ts:32-33 | the value is a `RangeError` exactly when the word is shorter than the limiter, and otherwise the kept prefix followed by the repeated key |
| Helpers.Mask | client/src/helpers.ts:32-33 | the replacement value when the repeat count is not negative (no contract of its own; `MaskShape` states its shape) |
| Helpers.MaskShape | client/src/helpers.ts:32-33 | the replacement value is the first `limiter` characters of the input (not of the word), then `(word.length - limiter) * key.length` characters, the one at offset `j` being the key's character at `j % key.length`: `word.length - limiter` copies of the key |
| Helpers.Scrub | client/src/helpers.ts:13-41 | with no list word contained in the lowered input, the output is the input; it fails exactly when the first contained word is shorter than the corrected limiter |
| Helpers.CleanUpProfanity | client/src/helpers.ts:13-41 | the loop that stops at the first contained word returns exactly `Scrub` |
| Helpers.IsLetter | client/src/helpers.ts:43-45 | true exactly for one-character strings that are an ASCII letter in either case |
| Helpers.EqualsIgnoringCaseLower | client/src/helpers.ts:9-11 | two strings match case-insensitively exactly when they have the same length and the same lower-case form |
| Helpers.IncludedWordMatches | client/src/helpers.ts:31-35 | a word the lowered input contains is matched somewhere by its case-insensitive expression |
| Helpers.FirstMatch | client/src/helpers.ts:31-35 | a contained word has a leftmost case-insensitive match |
| Helpers.ReplaceAllAbsent | client/src/helpers.ts:35 | with no case-insensitive occurrence, the replacement leaves the string unchanged |
| Helpers.ReplaceAllFirstOccurrence | client/src/helpers.ts:35 | the text before the leftmost occurrence is kept, that occurrence becomes the value, and the scan continues after it |
| Helpers.ReplaceAllKeepsLength | client/src/helpers.ts:35 | a value as long as the word gives an output as long as the input |
| Helpers.ScrubOnlyFirstWord | client/src/helpers.ts:30-37 | only the first contained word matters: the scrub equals the scrub with that word alone |
| Helpers.ScrubActsOn | client/src/helpers.ts:32-35 | a successful scrub that acted on a word replaces every case-insensitive occurrence of it with one replacement value computed from the input |
| Helpers.ScrubKeepsLength | client/src/helpers.ts:32-35 | with a one-character key and an input at least `limiter` long, the output is as long as the input |
| Utils.ClampFactor | client/src/utils.ts:25-28 | the factor lies in [0, 1]: above 1 it is 1, below 0 it is 0, inside it is unchanged |
| Utils.Lerp | client/src/utils.ts:24-32 | `t <= 0` gives exactly `a`, `t >= 1` gives exactly `b`, and the result always lies between `a` and `b` |
| Utils.BetweenEnds | client/src/utils.ts:31 | for a factor in [0, 1], `a + (b - a) * t` lies between `a` and `b` |
| Utils.LerpClampsFactor | client/src/utils.ts:25-31 | inside [0, 1] the result is `a + (b - a) * t`, and outside it `t` acts as the nearer end |
| Utils.LerpMonotone | client/src/utils.ts:24-32 | for `a <= b`, a larger factor never gives a smaller value |
| MainClient.AfterCanvasMouseDown | client/src/main.ts:50-55 | drawing starts and the start point is the event's offset |
| MainClient.AfterCanvasMouseUp | client/src/main.ts:57-59 | drawing stops and the start coordinates are left as they were |
| MainClient.AfterCanvasMouseMove | client/src/main.ts:61-76 | while not drawing: nothing. While drawing with a defined start: exactly one line from the start to the offset, and the start moves to the offset. The defined-start invariant is preserved |
| MainClient.DrawingStep | client/src/main.ts:50-76 | every canvas event keeps `isDrawingState ==>` start coordinates defined |
| MainClient.DrawingRun | client/src/main.ts:46-76 | the defined-start invariant holds through any run, with at most one line per event |
| MainClient.MovesWhileDrawingChain | client/src/main.ts:61-76 | while drawing, each move strokes exactly one line ending at its offset, each line starts where the previous one ended (the first at the start point), and the start ends at the last offset |
| MainClient.MovesWhileIdleDrawNothing | client/src/main.ts:61-62 | moves while not drawing stroke nothing and change nothing |
| MainClient.NatToString | client/src/main.ts:154-157 | `toString()` of a non-negative number is a non-empty digit string without leading zeros, one digit exactly below 10 |
| MainClient.ParseNatToString | client/src/main.ts:154-157 | reading the decimal rendering back gives the number |
| MainClient.PadStart | client/src/main.ts:154-157 | `padStart` reaches the target length (or keeps a longer string), ends with the string and is filled in front |
| MainClient.Pad2 | client/src/main.ts:154-157 | the padded field is at least two digits |
| MainClient.Pad2TwoDigits | client/src/main.ts:154-157 | below 100 the padded field is exactly the tens digit and the units digit |
| MainClient.Pad2RoundTrip | client/src/main.ts:154-157 | a padded field reads back as the number |
| MainClient.ChatLine | client/src/main.ts:153-158 | the sent line is at least seven characters longer than the text and ends with the text; `ChatLineRoundTrip` shows it reads back as hours, minutes and text |
| MainClient.ParseChatLine | client/src/main.ts:158 | a parsed line has two two-digit fields and the text after the seven-character head |
| MainClient.ChatLineRoundTrip | client/src/main.ts:153-158 | for hours and minutes below 100 the line is seven characters longer than the text and parses back to the hours, minutes and text |
| MainClient.CanvasStateReply | client/src/main.ts:96-104 | a `canvas_state` reply carrying the data URL is sent exactly when the data URL is non-empty |
| MainClient.SubmitEmission | client/src/main.ts:150-163 | a `chat_message` is sent exactly when the input is non-empty, and it carries the timestamped line |
| MainClient.SubmitReadsBack | client/src/main.ts:150-163 | what a submit sends reads back as the clock's hours and minutes and the typed text |
| MainClient.Client.constructor | client/src/main.ts:94 | the page starts not drawing with undefined start coordinates, and its socket's first emission is `client_ready` |
| MainClient.Client.OnCanvasMouseDown | client/src/main.ts:50-55 | the drawing state becomes `AfterCanvasMouseDown` of the old one |
| MainClient.Client.OnCanvasMouseUp | client/src/main.ts:57-59 | the drawing state becomes `AfterCanvasMouseUp` of the old one |
| MainClient.Client.OnCanvasMouseMove | client/src/main.ts:61-76 | the drawing state becomes `AfterCanvasMouseMove` of the old one and the stroked lines grow by its line |
| MainClient.Client.Dispatch | client/src/main.ts:50-76 | a canvas event changes the drawing state and lines exactly as `DrawingStep` says |
| MainClient.Client.OnGetCanvasState | client/src/main.ts:96-104 | the emissions grow by exactly `CanvasStateReply` of the data URL |
| MainClient.Client.OnSubmit | client/src/main.ts:150-163 | the emissions grow by exactly `SubmitEmission` of the old input, and the input is empty afterwards |
| MainClient.RunCanvas | client/src/main.ts:46-76 | a freshly loaded page fed any canvas events ends as `DrawingRun` from the initial state, with the defined-start invariant |

## Left out

- Browser and canvas effects are not modelled:
  - pixels, strokes and `clearRect` are recorded rather than painted;
  - `getContext("2d")` is a flag on the canvas value;
  - the bounding rectangle is fixed for each canvas value;
  - `toDataURL()` is a parameter;
  - the `Image` decoding and `drawImage` of `canvas_state_from_server` are left out;
  - the rendering context passed to `onDraw` is implicit, because it is always the attached canvas's.
- Event delivery is modelled only at the level the handlers see:
  - a move names the canvas under the pointer;
  - a mouse-up is heard only while the listener is registered.

  Listener identity, event objects and bubbling are left out.
- DOM construction, styling, `resizeCanvas`, chat list rendering, scrolling, and the colour-picker and clear-button click logging (`client/src/main.ts:13-39`, `115-148`, `175-221`) are UI with no stated rule.
- The `message` and `chat_message` listeners of `client/src/main.ts` only render text into the page. They are left out.
- socket.io and Express transport are left out: connection ids, CORS, `server.listen`, the `GET /` page and console logging. Connection ids are naturals.
- The `leo-profanity` word list is a parameter. It is taken to be lower-case words without regular-expression metacharacters.
- Helpers.ReplaceAllCaseless treats the word as a literal, not as a regular expression. `$` patterns in the replacement value are not expanded.
- Helpers.ToLower folds ASCII letters only. Case folding beyond ASCII is not modelled.
- Helpers.Scrub: strings are sequences of characters, not UTF-16 code units. So `substring`, `length` and `repeat` count the glyph U+1F4A9 as one character where JavaScript counts two.
- Helpers.CorrectLimiter takes an integer limiter. Fractional and NaN limiters are not modelled.
- Utils.Lerp is over the reals. IEEE-754 rounding, infinities and NaN are not modelled.
- Coordinates are integers, not IEEE-754 doubles.
- MainClient.Client.OnSubmit takes the hours and minutes as parameters instead of reading `Date`.
- MainClient.Client.OnInput stands for the user typing into the chat input. It has no source counterpart and no table row.
- The page's `throw` when the 2D context is null (`client/src/main.ts:43-45`) is not modelled. The model assumes a context.
- The commented-out ARCHIVE regions of the hook files and the type file are dead code and are not modelled.
- Draw-segment relaying, chat relaying, snapshot forwarding and undo/redo do not exist in the code and are not modelled.
- The template leftovers of `client/src/lib/types/socket.ts` are type declarations only and are not modelled: `noArg`, `basicEmit`, `withAck`, `hello`, `InterServerEvents` and `SocketData`.
