/**
  The socket event names the client declares (client/src/lib/types/socket.ts)
  and the names its entry point actually emits and listens for
  (client/src/main.ts). The declarations carry no behaviour; they are the
  vocabulary the relay's routing is checked against.
*/
module SocketTypes {

  /** Names the client declares it can receive from the server. */
  const ServerToClientEvents: set<string> :=
    {"message", "chat_message", "get_canvas_state", "canvas_state_from_server", "draw_line", "clear"}

  /** Names the client declares it can send to the server. */
  const ClientToServerEvents: set<string> :=
    {"client_ready", "canvas_state", "chat_message", "draw_line", "clear"}

  /** Names the client's entry point registers listeners for. */
  const ClientListensFor: set<string> :=
    {"get_canvas_state", "canvas_state_from_server", "message", "chat_message"}

  /** Names the client's entry point emits. */
  const ClientEmits: set<string> :=
    {"client_ready", "canvas_state", "chat_message"}

  /** Every name the entry point listens for or emits is a declared one. */
  lemma EntryPointUsesDeclaredNames()
    ensures ClientListensFor <= ServerToClientEvents
    ensures ClientEmits <= ClientToServerEvents
  {
  }
}
