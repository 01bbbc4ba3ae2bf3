/** Value wrappers shared by every component: nullable values and the
    exceptions the modelled code lets escape. */
module Common {

  /** A value that the source keeps in a nullable reference (`null` is None). */
  datatype Option<+T> = None | Some(value: T) {
    function GetOr(default: T): T {
      match this
      case Some(v) => v
      case None => default
    }
  }

  /** The .NET exceptions that escape from the modelled operations. */
  datatype Error =
    | ArgumentException          // System.ArgumentException
    | ArgumentNull               // System.ArgumentNullException
    | ArgumentOutOfRange         // System.ArgumentOutOfRangeException
    | IndexOutOfRange            // System.IndexOutOfRangeException
    | NullReference              // System.NullReferenceException
    | InvalidOperation           // System.InvalidOperationException
    | NotImplemented             // System.NotImplementedException
    | NoDeviceFound              // NoDeviceFoundException

  /** `string.IsNullOrEmpty`. */
  predicate IsNullOrEmpty(s: Option<string>) {
    s.None? || s.value == ""
  }

  /** Either a value or the exception that was thrown instead. */
  datatype Result<+T> = Ok(value: T) | Err(error: Error)
}
