/** Small value types shared by the bridge's modules. */
module Shared {

  /** A JavaScript/Python value that may be absent (`undefined`, `null`, `None`). */
  datatype Option<+T> = None | Some(value: T)

  /**
   * JavaScript truthiness of an optional string field (`if (persona.role)`),
   * which is also Python's `if key`: absent and `""` are falsy, every other
   * string is truthy.
   */
  predicate Truthy(s: Option<string>) {
    s.Some? && s.value != ""
  }

  /** The `readyState` of a `ws` WebSocket: CONNECTING, OPEN, CLOSING, CLOSED. */
  datatype ReadyState = Connecting | Open | Closing | Closed
}
