/**
 * Browser `localStorage`, one key at a time. A slot holds the value last
 * written under its key (the JSON encoding is taken to round-trip), or
 * nothing when the key was never written.
 */
module Storage {
  import opened Wrappers

  class Slot<T> {
    var value: Option<T>

    constructor (initial: Option<T>)
      ensures value == initial
    {
      value := initial;
    }
  }
}
