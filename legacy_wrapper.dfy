/**
  The earlier Python wrapper (Python/WindowsCapture/main.py, class
  `Capture`). It registers handlers the same way as the newer one, but
  `start` checks nothing, the frame event carries the native frame object
  unchanged, and the native object is always built with both flags off.
 */
module LegacyWrapper {
  import opened Wrappers
  import opened Handlers
  import opened Native

  /** The frame object the native layer passes, known only by its identity. */
  datatype NativeFrame = NativeFrame(id: nat)

  /** One call of a registered handler, with its argument. */
  datatype Invocation =
    | FrameCall(handler: Handler, frame: NativeFrame)
    | ClosedCall(handler: Handler)

  class Capture {
    var frameHandler: Option<Handler>
    var closedHandler: Option<Handler>
    const native: NativeCapture
    const captureCursor: bool
    const drawBorder: bool
    /** The handler calls made so far, oldest first. */
    var invocations: seq<Invocation>

    /** Stores both flags as given, but builds the native object with False, False. */
    constructor (captureCursor: bool := DefaultCaptureCursor, drawBorder: bool := DefaultDrawBorder)
      ensures frameHandler == None && closedHandler == None
      ensures this.captureCursor == captureCursor && this.drawBorder == drawBorder
      ensures fresh(native) && native.starts == 0
      ensures !native.captureCursor && !native.drawBorder
      ensures invocations == []
    {
      frameHandler := None;
      closedHandler := None;
      native := new NativeCapture(false, false);
      this.captureCursor := captureCursor;
      this.drawBorder := drawBorder;
      invocations := [];
    }

    /** Starts the native capture whatever handlers are set. */
    method Start()
      modifies native`starts
      ensures native.starts == old(native.starts) + 1
    {
      native.Start();
    }

    /** Forwards the frame once to the frame handler, or raises when none is set. */
    method OnFrameArrived(frame: NativeFrame) returns (outcome: Outcome)
      modifies this`invocations
      ensures frameHandler != None ==> outcome == Pass && invocations == old(invocations) + [FrameCall(frameHandler.value, frame)]
      ensures frameHandler == None ==> outcome == Fail(FrameHandlerNotSet) && invocations == old(invocations)
    {
      if frameHandler != None {
        invocations := invocations + [FrameCall(frameHandler.value, frame)];
        outcome := Pass;
      } else {
        outcome := Fail(FrameHandlerNotSet);
      }
    }

    /** Calls the closed handler once, or raises when none is set. */
    method OnClosed() returns (outcome: Outcome)
      modifies this`invocations
      ensures closedHandler != None ==> outcome == Pass && invocations == old(invocations) + [ClosedCall(closedHandler.value)]
      ensures closedHandler == None ==> outcome == Fail(ClosedHandlerNotSet) && invocations == old(invocations)
    {
      if closedHandler != None {
        invocations := invocations + [ClosedCall(closedHandler.value)];
        outcome := Pass;
      } else {
        outcome := Fail(ClosedHandlerNotSet);
      }
    }

    /**
      Registers a handler in the slot its name selects and returns it; any
      other name raises and leaves both slots as they were.
     */
    method Event(handler: Handler) returns (r: Result<Handler>)
      modifies this`frameHandler, this`closedHandler
      ensures SlotFor(handler.name) == Some(FrameSlot) ==>
        r == Ok(handler) && frameHandler == Some(handler) && closedHandler == old(closedHandler)
      ensures SlotFor(handler.name) == Some(ClosedSlot) ==>
        r == Ok(handler) && closedHandler == Some(handler) && frameHandler == old(frameHandler)
      ensures SlotFor(handler.name) == None ==>
        r == Err(InvalidEventHandler) && frameHandler == old(frameHandler) && closedHandler == old(closedHandler)
    {
      if handler.name == FrameEventName {
        frameHandler := Some(handler);
      } else if handler.name == ClosedEventName {
        closedHandler := Some(handler);
      } else {
        return Err(InvalidEventHandler);
      }
      r := Ok(handler);
    }
  }

  /**
    Unlike the newer wrapper, starting with no handler registered still
    starts the native capture, and the first frame then raises.
   */
  method StartWithoutHandlers(captureCursor: bool, drawBorder: bool, frame: NativeFrame)
    returns (starts: nat, outcome: Outcome)
    ensures starts == 1 && outcome == Fail(FrameHandlerNotSet)
  {
    var capture := new Capture(captureCursor, drawBorder);
    capture.Start();
    starts := capture.native.starts;
    outcome := capture.OnFrameArrived(frame);
  }

  /**
    `Capture()` with no arguments stores capture_cursor True and
    draw_border False, yet still builds the native object with both off.
   */
  method DefaultFlags() returns (captureCursor: bool, drawBorder: bool, nativeCursor: bool, nativeBorder: bool)
    ensures captureCursor && !drawBorder
    ensures !nativeCursor && !nativeBorder
  {
    var capture := new Capture();
    captureCursor, drawBorder := capture.captureCursor, capture.drawBorder;
    nativeCursor, nativeBorder := capture.native.captureCursor, capture.native.drawBorder;
  }
}
