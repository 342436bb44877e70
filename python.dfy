/**
  The part of Python's runtime the harvesting core relies on: the exception
  classes it raises or catches, arranged by their base classes, the exception
  values passed between the modelled code and code the model does not see, and
  the decimal rendering `str()` gives an integer.
*/
module Python {
  import opened Wrappers

  /** Exception classes of the standard library, aiohttp, ElementTree and the core. */
  datatype ExceptionClass =
    | BaseException
    | CancelledError            // asyncio.CancelledError, not an Exception since Python 3.8
    | Exception
    | ValueError
    | TypeError
    | AttributeError
    | LookupError
    | KeyError
    | IndexError
    | RuntimeError
    | SyntaxError
    | OSError
    | TimeoutError              // asyncio.TimeoutError is this class since Python 3.11
    | AssertionError
    | XmlParseError             // xml.etree.ElementTree.ParseError
    | JsonDecodeError           // json.JSONDecodeError
    | ClientError               // aiohttp.ClientError
    | HttpSessionFetchError
    | HttpSessionArgumentError
    | HttpSessionTechnicalError
    | HttpSessionResponseError
    | HttpSessionDecodeError
    | MetadataParseError

  /** Distance to BaseException along the base classes. */
  function Depth(c: ExceptionClass): nat {
    match c
    case BaseException => 0
    case CancelledError | Exception => 1
    case ValueError | TypeError | AttributeError | LookupError | RuntimeError | SyntaxError
      | OSError | AssertionError | ClientError | HttpSessionFetchError => 2
    case _ => 3
  }

  /** The direct base class, as `__base__` gives it; BaseException has none. */
  function Base(c: ExceptionClass): (b: Option<ExceptionClass>)
    ensures b.Some? ==> Depth(b.value) < Depth(c)
  {
    match c
    case BaseException => None
    case CancelledError | Exception => Some(BaseException)
    case ValueError | TypeError | AttributeError | LookupError | RuntimeError | SyntaxError
      | OSError | AssertionError | ClientError | HttpSessionFetchError => Some(Exception)
    case KeyError | IndexError => Some(LookupError)
    case TimeoutError => Some(OSError)
    case XmlParseError => Some(SyntaxError)
    case JsonDecodeError => Some(ValueError)
    case HttpSessionArgumentError | HttpSessionTechnicalError | HttpSessionResponseError
      | HttpSessionDecodeError => Some(HttpSessionFetchError)
    case MetadataParseError => Some(RuntimeError)
  }

  /** `issubclass(c, d)`: d is c or one of its ancestors. */
  predicate IsSubclass(c: ExceptionClass, d: ExceptionClass)
    decreases Depth(c)
  {
    c == d || (Base(c).Some? && IsSubclass(Base(c).value, d))
  }

  /** An exception value: its class and the text `str()` gives it. */
  datatype PyError = PyError(cls: ExceptionClass, message: string)

  /** Whether an `except Exception` clause catches the error. */
  predicate IsException(e: PyError) {
    IsSubclass(e.cls, Exception)
  }

  function DigitChar(d: nat): char
    requires d < 10
  {
    "0123456789"[d]
  }

  /** The decimal digits of a natural number, most significant first. */
  function Digits(n: nat): (s: string)
    ensures |s| >= 1
    ensures forall i | 0 <= i < |s| :: '0' <= s[i] <= '9'
    ensures |s| > 1 ==> s[0] != '0'
  {
    if n < 10 then [DigitChar(n)] else Digits(n / 10) + [DigitChar(n % 10)]
  }

  /** `str(i)` for an int. */
  function IntToString(i: int): string {
    if i < 0 then "-" + Digits(-i) else Digits(i)
  }

  /** The value a string of decimal digits denotes. */
  function DigitsValue(s: string): int
    requires forall i | 0 <= i < |s| :: '0' <= s[i] <= '9'
  {
    if s == [] then 0 else 10 * DigitsValue(s[..|s| - 1]) + (s[|s| - 1] as int - '0' as int)
  }

  /** Rendering a natural number in decimal loses nothing. */
  lemma {:induction false} DigitsRoundTrip(n: nat)
    ensures DigitsValue(Digits(n)) == n
  {
    if n >= 10 {
      DigitsRoundTrip(n / 10);
      var s := Digits(n);
      assert s[..|s| - 1] == Digits(n / 10);
    }
  }
}
