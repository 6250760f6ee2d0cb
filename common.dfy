/** Values shared by every part of the model: Python's `None`-or-value, and the
    exceptions `gridrec()` can raise. */
module Common {

  /** A Python argument or attribute that may be `None`. */
  datatype Option<+T> = None | Some(value: T)

  datatype Result<+T> = Ok(value: T) | Err(error: Error)

  /** Which fixed-capacity text field of the record a copy overran. */
  datatype TextField = DebugFileName | Fname | BPFilterName

  /** The exceptions `gridrec()` raises, by the place that raises them. */
  datatype Error =
    | PaddedWidthTooSmall          // ValueError: explicit paddedSinogramWidth below the pixel count
    | TextTooLong(field: TextField) // IndexError: ctypes array index past a text field's capacity
    | ThetaUnbound                 // UnboundLocalError (a NameError): the local `theta` is only bound when TomoObj.theta is None
    | SliceOutOfRange              // IndexError: numpy rejects slice_no outside the slice axis
}
