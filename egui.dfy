/**
 * The slice of egui's input events the greeter reacts to.  Keys other than
 * Enter and Backspace, and events other than key presses and text, are
 * never told apart by the greeter, so each is one constructor here.
 */
module Egui {

  datatype Key = Enter | Backspace | OtherKey

  datatype Modifiers = Modifiers(alt: bool, ctrl: bool, shift: bool, macCmd: bool, command: bool) {
    /** `Modifiers::NONE`. */
    predicate IsNone() {
      !alt && !ctrl && !shift && !macCmd && !command
    }
  }

  datatype Event =
    | Key(key: Key, pressed: bool, modifiers: Modifiers)
    | Text(text: string)
    | OtherEvent

  /** A press of `k`, whatever the modifiers (`Event::Key { key: k, pressed: true, .. }`). */
  predicate IsPress(e: Event, k: Key) {
    e.Key? && e.key == k && e.pressed
  }

  /** A press of `k` with no modifier held (`modifiers: Modifiers::NONE`). */
  predicate IsPlainPress(e: Event, k: Key) {
    IsPress(e, k) && e.modifiers.IsNone()
  }

  /** `InputState::key_pressed(k)`: some event of the frame presses `k`. */
  predicate KeyPressed(events: seq<Event>, k: Key) {
    exists i | 0 <= i < |events| :: IsPress(events[i], k)
  }

  /** `String::pop` without its result: the last character goes, an empty string stays empty. */
  function Pop(s: string): (r: string)
    ensures s == [] ==> r == []
    ensures s != [] ==> r + [s[|s| - 1]] == s
  {
    if s == [] then [] else s[..|s| - 1]
  }
}
