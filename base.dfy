/**
 * Values shared by every part of the model: raised Python exceptions as
 * data, the results that carry them, and bytes.
 */
module Base {

  /** An optional value; `None` stands for Python's `None`. */
  datatype Option<+T> = None | Some(value: T)

  /** The class of a raised exception, as `type(e)` names it. */
  datatype ExceptionClass =
    | KeyError
    | ValueError
    | IndexError
    | RuntimeError
    | TimeoutError
    | ConnectionError
    | OSError
    | FileNotFoundError
    | EOFError
    | StructError
    /** An exception class of a library the model treats as opaque
        (pyvisa, pyserial); `qualname` is its dotted name. */
    | Foreign(qualname: string)

  /** A raised exception: its class and the text `str(e)` gives. */
  datatype Fault = Fault(kind: ExceptionClass, message: string)

  /** The outcome of an operation that returns a value or raises. */
  datatype Result<+T> = Ok(value: T) | Err(error: Fault)

  /** The outcome of an operation that returns nothing or raises. */
  datatype Outcome = Pass | Fail(error: Fault)

  /** One byte of a `bytes` object. */
  type byte = x: int | 0 <= x < 256

  /** The qualified name Python prints for an exception class. */
  function QualName(k: ExceptionClass): string
  {
    match k
    case KeyError => "KeyError"
    case ValueError => "ValueError"
    case IndexError => "IndexError"
    case RuntimeError => "RuntimeError"
    case TimeoutError => "TimeoutError"
    case ConnectionError => "ConnectionError"
    case OSError => "OSError"
    case FileNotFoundError => "FileNotFoundError"
    case EOFError => "EOFError"
    case StructError => "struct.error"
    case Foreign(q) => q
  }

  /** The text of `f"{type(e)}"`: `<class 'KeyError'>`. */
  function ClassText(k: ExceptionClass): string
  {
    "<class '" + QualName(k) + "'>"
  }

  /** `KeyError(key)`: `str` of a KeyError is the repr of its argument, a quoted string. */
  function KeyErrorFor(key: string): Fault
  {
    Fault(KeyError, "'" + key + "'")
  }

  /** pyvisa's error class, and the two errors the model raises through it. */
  const VisaIOError := Foreign("pyvisa.errors.VisaIOError")
  const ResourceNotFound := Fault(VisaIOError, "VI_ERROR_RSRC_NFOUND (-1073807343): Insufficient location information or the requested device or resource is not present in the system.")
  const Timeout := Fault(VisaIOError, "VI_ERROR_TMO (-1073807339): Timeout expired before operation completed.")

  /** `raise` with no active exception: the bare `raise` of the source. */
  const NoActiveException := Fault(RuntimeError, "No active exception to reraise")
}
