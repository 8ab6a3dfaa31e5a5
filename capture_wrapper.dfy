/**
  The Python wrapper around the native capture object
  (windows_capture/__init__.py): `CaptureControl`, which stops a session
  through a list shared with the native thread, and `WindowsCapture`, which
  holds the two event handlers, checks them before starting, and forwards
  the native frame and closed events to them.

  A handler call is not run: it is appended to the wrapper's `invocations`
  log, with the arguments it was given.
 */
module CaptureWrapper {
  import opened Wrappers
  import opened Handlers
  import opened FrameLayout
  import opened Native

  /** The Python list shared with the native thread; element 0 is the stop flag. */
  class StopList {
    var items: seq<bool>

    constructor (items: seq<bool>)
      ensures this.items == items
    {
      this.items := items;
    }
  }

  /** The list after `stop`: element 0 set, every other element as it was. */
  function StopRequested(items: seq<bool>): (r: seq<bool>)
    requires |items| > 0
    ensures |r| == |items| && r[0]
    ensures forall i :: 0 < i < |items| ==> r[i] == items[i]
  {
    items[0 := true]
  }

  /** The stop flag is write-once: a second stop changes nothing. */
  lemma StopIdempotent(items: seq<bool>)
    requires |items| > 0
    ensures StopRequested(StopRequested(items)) == StopRequested(items)
  {
  }

  /** A stop leaves the list unchanged exactly when the flag was already set. */
  lemma StopChangesOnlyUnsetFlag(items: seq<bool>)
    requires |items| > 0
    ensures StopRequested(items) == items <==> items[0]
  {
  }

  class CaptureControl {
    const list: StopList

    constructor (list: StopList)
      ensures this.list == list
    {
      this.list := list;
    }

    /** `_list[0] = True`; Python raises IndexError when the list is empty. */
    method Stop() returns (outcome: Outcome)
      modifies list
      ensures |old(list.items)| == 0 ==> outcome == Fail(StopListEmpty) && list.items == old(list.items)
      ensures |old(list.items)| > 0 ==> outcome == Pass && list.items == StopRequested(old(list.items))
    {
      if |list.items| == 0 {
        outcome := Fail(StopListEmpty);
      } else {
        list.items := list.items[0 := true];
        outcome := Pass;
      }
    }
  }

  /** One call of a registered handler, with its arguments. */
  datatype Invocation =
    | FrameCall(handler: Handler, frame: Frame, control: CaptureControl)
    | ClosedCall(handler: Handler)

  /** `n` copies of one call. */
  function Repeat(call: Invocation, n: nat): (r: seq<Invocation>)
    ensures |r| == n && forall i :: 0 <= i < n ==> r[i] == call
  {
    seq(n, _ => call)
  }

  /**
    How many times `on_frame_arrived` calls the frame handler for one frame,
    as written: once when the rows carry no padding, twice otherwise
    (__init__.py:111-116).
   */
  function HandlerCalls(bufLen: nat, width: nat, height: nat): (n: nat)
    requires WellShaped(bufLen, width, height)
    ensures n == 1 <==> RowPitch(bufLen, height) == RowBytes(width)
    ensures n == 2 <==> RowPitch(bufLen, height) != RowBytes(width)
  {
    if RowPitch(bufLen, height) == RowBytes(width) then 1 else 2
  }

  /**
    A 1 x 1 frame delivered in an 8-byte row (4 bytes of padding) reaches
    the frame handler twice.
   */
  lemma PaddedFrameDeliveredTwice()
    ensures WellShaped(8, 1, 1) && HandlerCalls(8, 1, 1) == 2
  {
  }

  class WindowsCapture {
    var frameHandler: Option<Handler>
    var closedHandler: Option<Handler>
    const native: NativeCapture
    /** The handler calls made so far, oldest first. */
    var invocations: seq<Invocation>

    constructor (captureCursor: bool := DefaultCaptureCursor, drawBorder: bool := DefaultDrawBorder)
      ensures frameHandler == None && closedHandler == None
      ensures fresh(native) && native.starts == 0
      ensures native.captureCursor == captureCursor && native.drawBorder == drawBorder
      ensures invocations == []
    {
      frameHandler := None;
      closedHandler := None;
      native := new NativeCapture(captureCursor, drawBorder);
      invocations := [];
    }

    /** Starts the native capture only when both handlers are set, the frame handler checked first. */
    method Start() returns (outcome: Outcome)
      modifies native`starts
      ensures frameHandler == None ==> outcome == Fail(FrameHandlerNotSet)
      ensures frameHandler != None && closedHandler == None ==> outcome == Fail(ClosedHandlerNotSet)
      ensures outcome == Pass <==> frameHandler != None && closedHandler != None
      ensures native.starts == old(native.starts) + (if outcome == Pass then 1 else 0)
    {
      if frameHandler == None {
        return Fail(FrameHandlerNotSet);
      } else if closedHandler == None {
        return Fail(ClosedHandlerNotSet);
      }
      native.Start();
      outcome := Pass;
    }

    /**
      The frame-arrival callback, as written: with a frame handler set, it
      wraps the stop list in a new CaptureControl, builds the frame, and
      calls the handler (twice when the rows are padded); without one it
      raises and does not look at the buffer.
     */
    method OnFrameArrived(buf: seq<bv8>, width: nat, height: nat, stopList: StopList)
      returns (outcome: Outcome, ghost control: CaptureControl?)
      requires frameHandler != None ==> WellShaped(|buf|, width, height)
      modifies this`invocations
      ensures frameHandler == None ==> outcome == Fail(FrameHandlerNotSet) && invocations == old(invocations)
      ensures frameHandler != None ==>
        && outcome == Pass
        && control != null && fresh(control) && control.list == stopList
        && invocations == old(invocations)
             + Repeat(FrameCall(frameHandler.value, FrameOf(buf, width, height), control),
                      HandlerCalls(|buf|, width, height))
    {
      control := null;
      if frameHandler != None {
        var internalControl := new CaptureControl(stopList);
        control := internalControl;
        var pitch := RowPitch(|buf|, height);
        if pitch == RowBytes(width) {
          var frame := Frame(buf, width, height);
          invocations := invocations + [FrameCall(frameHandler.value, frame, internalControl)];
        } else {
          WholeRows(|buf|, height);
          var frame := Frame(Depad(buf, pitch, RowBytes(width), height), width, height);
          invocations := invocations + [FrameCall(frameHandler.value, frame, internalControl)];
          invocations := invocations + [FrameCall(frameHandler.value, frame, internalControl)];
        }
        outcome := Pass;
      } else {
        outcome := Fail(FrameHandlerNotSet);
      }
    }

    /**
      The frame-arrival callback as evidently intended: the same as
      OnFrameArrived, except that the handler is called exactly once per
      frame whatever the row pitch.
     */
    method OnFrameArrivedOnce(buf: seq<bv8>, width: nat, height: nat, stopList: StopList)
      returns (outcome: Outcome, ghost control: CaptureControl?)
      requires frameHandler != None ==> WellShaped(|buf|, width, height)
      modifies this`invocations
      ensures frameHandler == None ==> outcome == Fail(FrameHandlerNotSet) && invocations == old(invocations)
      ensures frameHandler != None ==>
        && outcome == Pass
        && control != null && fresh(control) && control.list == stopList
        && |invocations| == |old(invocations)| + 1
        && invocations == old(invocations) + [FrameCall(frameHandler.value, FrameOf(buf, width, height), control)]
    {
      control := null;
      if frameHandler != None {
        var internalControl := new CaptureControl(stopList);
        control := internalControl;
        var pitch := RowPitch(|buf|, height);
        var pixels := buf;
        if pitch != RowBytes(width) {
          WholeRows(|buf|, height);
          pixels := Depad(buf, pitch, RowBytes(width), height);
        }
        invocations := invocations + [FrameCall(frameHandler.value, Frame(pixels, width, height), internalControl)];
        outcome := Pass;
      } else {
        outcome := Fail(FrameHandlerNotSet);
      }
    }

    /** The closed callback: calls the closed handler once, or raises when none is set. */
    method OnClosed() returns (outcome: Outcome)
      modifies this`invocations
      ensures closedHandler != None ==> outcome == Pass && invocations == old(invocations) + [ClosedCall(closedHandler.value)]
      ensures closedHandler == None ==> outcome == Fail(ClosedHandlerNotSet) && invocations == old(invocations)
    {
      if closedHandler != None {
        invocations := invocations + [ClosedCall(closedHandler.value)];
        outcome := Pass;
      } else {
        outcome := Fail(ClosedHandlerNotSet);
      }
    }

    /**
      Registers a handler in the slot its name selects and returns it; any
      other name raises and leaves both slots as they were.
     */
    method Event(handler: Handler) returns (r: Result<Handler>)
      modifies this`frameHandler, this`closedHandler
      ensures SlotFor(handler.name) == Some(FrameSlot) ==>
        r == Ok(handler) && frameHandler == Some(handler) && closedHandler == old(closedHandler)
      ensures SlotFor(handler.name) == Some(ClosedSlot) ==>
        r == Ok(handler) && closedHandler == Some(handler) && frameHandler == old(frameHandler)
      ensures SlotFor(handler.name) == None ==>
        r == Err(InvalidEventHandler) && frameHandler == old(frameHandler) && closedHandler == old(closedHandler)
    {
      if handler.name == FrameEventName {
        frameHandler := Some(handler);
      } else if handler.name == ClosedEventName {
        closedHandler := Some(handler);
      } else {
        return Err(InvalidEventHandler);
      }
      r := Ok(handler);
    }
  }

  /**
    The decorator use of `event`: after registering one handler of each
    name, `start` succeeds and starts the native capture once.
   */
  method RegisterBothThenStart(onFrame: Handler, onClosed: Handler, captureCursor: bool, drawBorder: bool)
    returns (outcome: Outcome, starts: nat)
    requires onFrame.name == FrameEventName && onClosed.name == ClosedEventName
    ensures outcome == Pass && starts == 1
  {
    var capture := new WindowsCapture(captureCursor, drawBorder);
    var _ := capture.Event(onFrame);
    var _ := capture.Event(onClosed);
    outcome := capture.Start();
    starts := capture.native.starts;
  }

  /**
    Registering only the closed handler is not enough: `start` reports the
    missing frame handler and never starts the native capture.
   */
  method StartWithoutFrameHandler(onClosed: Handler, captureCursor: bool, drawBorder: bool)
    returns (outcome: Outcome, starts: nat)
    requires onClosed.name == ClosedEventName
    ensures outcome == Fail(FrameHandlerNotSet) && starts == 0
  {
    var capture := new WindowsCapture(captureCursor, drawBorder);
    var _ := capture.Event(onClosed);
    outcome := capture.Start();
    starts := capture.native.starts;
  }

  /**
    `WindowsCapture()` with no arguments builds the native object with the
    cursor captured and no border drawn.
   */
  method DefaultNativeFlags() returns (captureCursor: bool, drawBorder: bool)
    ensures captureCursor && !drawBorder
  {
    var capture := new WindowsCapture();
    captureCursor, drawBorder := capture.native.captureCursor, capture.native.drawBorder;
  }
}
