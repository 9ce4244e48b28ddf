/** The macOS event vocabulary: the Quartz event types a tap can deliver and
    the list of those the capture engine asks the tap for.  The category
    masks and their update are shared with Windows (module Masks). */
module MacCommon {
  import opened Masks

  /** `CGEventType`, every value the tap can hand to the callback. */
  datatype CGEventType =
    | Null
    | LeftMouseDown
    | LeftMouseUp
    | RightMouseDown
    | RightMouseUp
    | MouseMoved
    | LeftMouseDragged
    | RightMouseDragged
    | KeyDown
    | KeyUp
    | FlagsChanged
    | ScrollWheel
    | TabletPointer
    | TabletProximity
    | OtherMouseDown
    | OtherMouseUp
    | OtherMouseDragged
    | TapDisabledByTimeout
    | TapDisabledByUserInput

  /** `INTERESTED_EVENTS`: the event types the tap is created for. */
  const InterestedEvents: seq<CGEventType> := [
    MouseMoved,
    LeftMouseDown,
    LeftMouseUp,
    RightMouseDown,
    RightMouseUp,
    ScrollWheel,
    OtherMouseDown,
    OtherMouseUp,
    LeftMouseDragged,
    RightMouseDragged,
    OtherMouseDragged,
    KeyDown,
    KeyUp,
    FlagsChanged
  ]

  /** The pointer-motion types: a plain move and the three drags. */
  predicate IsMoveType(t: CGEventType) {
    t == MouseMoved || t == LeftMouseDragged || t == RightMouseDragged || t == OtherMouseDragged
  }

  /** The six button types. */
  predicate IsButtonType(t: CGEventType) {
    t == LeftMouseDown || t == LeftMouseUp || t == RightMouseDown || t == RightMouseUp ||
    t == OtherMouseDown || t == OtherMouseUp
  }

  /** The three keyboard types. */
  predicate IsKeyboardType(t: CGEventType) {
    t == KeyDown || t == KeyUp || t == FlagsChanged
  }

  /** The interest list names fourteen types, each once. */
  lemma InterestedEventsDistinct()
    ensures |InterestedEvents| == 14
    ensures forall i, j :: 0 <= i < j < |InterestedEvents| ==> InterestedEvents[i] != InterestedEvents[j]
  {
  }

  /** The interest list names exactly the move, button, wheel and keyboard
      types. */
  lemma {:induction false} InterestedEventsExact(t: CGEventType)
    ensures t in InterestedEvents <==> IsMoveType(t) || IsButtonType(t) || t == ScrollWheel || IsKeyboardType(t)
  {
    if IsMoveType(t) || IsButtonType(t) || t == ScrollWheel || IsKeyboardType(t) {
      assert t == InterestedEvents[0] || t == InterestedEvents[1] || t == InterestedEvents[2] ||
             t == InterestedEvents[3] || t == InterestedEvents[4] || t == InterestedEvents[5] ||
             t == InterestedEvents[6] || t == InterestedEvents[7] || t == InterestedEvents[8] ||
             t == InterestedEvents[9] || t == InterestedEvents[10] || t == InterestedEvents[11] ||
             t == InterestedEvents[12] || t == InterestedEvents[13];
    }
  }

  /** The category bit that governs an event type, in both the listener and
      the grabber: 0 for the types neither of them handles. */
  function CategoryOf(t: CGEventType): (bit: bv32)
    ensures bit == 0 || bit == MouseMoveBit || bit == MouseButtonBit || bit == MouseWheelBit || bit == KeyboardBit
    ensures bit == MouseMoveBit <==> IsMoveType(t)
    ensures bit == MouseButtonBit <==> IsButtonType(t)
    ensures bit == MouseWheelBit <==> t == ScrollWheel
    ensures bit == KeyboardBit <==> IsKeyboardType(t)
  {
    if IsMoveType(t) then MouseMoveBit
    else if IsButtonType(t) then MouseButtonBit
    else if t == ScrollWheel then MouseWheelBit
    else if IsKeyboardType(t) then KeyboardBit
    else 0
  }

  /** The tap asks for exactly the event types that have a category. */
  lemma InterestedEventsCategorised(t: CGEventType)
    ensures t in InterestedEvents <==> CategoryOf(t) != 0
  {
    InterestedEventsExact(t);
  }
}
