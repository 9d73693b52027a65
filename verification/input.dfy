/**
 Keyboard input as the windowing library delivers it: a button (a keyboard
 key, or some other device button) together with whether it went down or up.
 Only the keys the game binds are named; every other key is `OtherKey`.
 */
module Input {

  datatype Key = A | S | W | K | L | Up | Down | OtherKey(code: nat)

  datatype Button = Keyboard(key: Key) | NonKeyboard

  datatype ButtonState = Press | Release

  datatype ButtonArgs = ButtonArgs(state: ButtonState, button: Button)
}
