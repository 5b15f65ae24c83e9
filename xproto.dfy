/** The X11 core-protocol vocabulary the listeners use: the event type codes,
    the SETofKEYMASK modifier bits, `NoSymbol`, and an event record holding the
    fields of the `XEvent` union that the code reads or writes. */
module XProto {

  newtype Byte = x: int | 0 <= x < 256

  // Event type codes.
  const KeyPress: int := 2
  const KeyRelease: int := 3
  const ButtonPress: int := 4
  const ButtonRelease: int := 5
  const MotionNotify: int := 6
  const FocusIn: int := 9
  const FocusOut: int := 10
  const ClientMessage: int := 33

  // SETofKEYMASK bits.
  const ShiftMask: bv32 := 1 << 0
  const LockMask: bv32 := 1 << 1
  const ControlMask: bv32 := 1 << 2
  const Mod1Mask: bv32 := 1 << 3
  const Mod2Mask: bv32 := 1 << 4
  const Mod3Mask: bv32 := 1 << 5
  const Mod4Mask: bv32 := 1 << 6
  const Mod5Mask: bv32 := 1 << 7

  const NoSymbol: int := 0

  /** One `XEvent`, flattened: the common header (`type`, `send_event`, `window`),
      the `xkey` fields (`state`, `keycode`, `time`) and the `xclient` fields
      (`message_type`, `data.l[0]`). Reading a member of the union that the event
      does not hold gives some value of the right type. */
  datatype XEvent = XEvent(
    evType: int, sendEvent: bool, window: int,
    state: bv32, keycode: int, time: int,
    messageType: int, data0: int)

  /** `xlib.XEvent()`: a zero-filled event, the listeners' initial `last_ev`. */
  const ZeroEvent := XEvent(0, false, 0, 0, 0, 0, 0, 0)

  predicate IsKeyEvent(ev: XEvent) { ev.evType == KeyPress || ev.evType == KeyRelease }

  /** The eight named modifier flags decoded from a key event's `state`. */
  datatype Modifiers = Modifiers(
    shift: bool, capsLock: bool, ctrl: bool, alt: bool,
    numLock: bool, hyper: bool, super: bool, altGr: bool)
}
