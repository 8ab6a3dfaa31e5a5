/**
  The native capture object (`NativeWindowsCapture`) as far as the Python
  wrappers see it: built once with a cursor flag and a border flag, and
  started. The capture runtime behind it is not part of this model; a start
  is only counted.
 */
module Native {

  class NativeCapture {
    const captureCursor: bool
    const drawBorder: bool
    /** How many times `start` has been called on this object. */
    var starts: nat

    constructor (captureCursor: bool, drawBorder: bool)
      ensures this.captureCursor == captureCursor && this.drawBorder == drawBorder
      ensures starts == 0
    {
      this.captureCursor := captureCursor;
      this.drawBorder := drawBorder;
      starts := 0;
    }

    method Start()
      modifies this`starts
      ensures starts == old(starts) + 1
    {
      starts := starts + 1;
    }
  }
}
