/**
  What both Python wrappers share: a handler is a Python function known by
  its `__name__`, and the name decides which of the two event slots it fills.
  The exceptions the wrappers raise are the values of `CaptureError`.
 */
module Handlers {
  import opened Wrappers

  /**
    A Python function handed to `event`: its `__name__` and an identity that
    tells apart two functions of the same name.
   */
  datatype Handler = Handler(name: string, id: nat)

  /** The two event-handler slots of a wrapper object. */
  datatype Slot = FrameSlot | ClosedSlot

  /** The default arguments of both wrappers' constructors. */
  const DefaultCaptureCursor: bool := true
  const DefaultDrawBorder: bool := false

  const FrameEventName: string := "on_frame_arrived"
  const ClosedEventName: string := "on_closed"

  /** The exceptions the wrappers raise, one per distinct message. */
  datatype CaptureError =
    | FrameHandlerNotSet  // "on_frame_arrived Event Handler Is Not Set"
    | ClosedHandlerNotSet // "on_closed Event Handler Is Not Set"
    | InvalidEventHandler // "Invalid Event Handler Use on_frame_arrived Or on_closed"
    | StopListEmpty       // the IndexError of `_list[0] = True` on an empty list

  /** A call that returns nothing, or raises. */
  datatype Outcome = Pass | Fail(error: CaptureError)

  /** A call that returns a value, or raises. */
  datatype Result<+T> = Ok(value: T) | Err(error: CaptureError)

  /** The slot a handler of the given name is registered in, if any. */
  function SlotFor(name: string): (r: Option<Slot>)
    ensures r == Some(FrameSlot) <==> name == FrameEventName
    ensures r == Some(ClosedSlot) <==> name == ClosedEventName
    ensures r == None <==> name != FrameEventName && name != ClosedEventName
  {
    if name == FrameEventName then Some(FrameSlot)
    else if name == ClosedEventName then Some(ClosedSlot)
    else None
  }
}
