/** The semantic keys that the keyboard-navigation hook hands to its handlers.
    Every component subscribes a configuration with optional handlers for some
    of these keys and a `disabled` gate; a key press is a direct call of the
    handler when the gate is open. */
module Keys {
  datatype Key = ArrowUp | ArrowDown | ArrowLeft | ArrowRight | Enter | Escape
}
