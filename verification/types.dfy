/** The values every header of the library traffics in: the optional type the
    adaptors return, the two-case container itself, the record of callback
    invocations, and the outcome of an extraction that may panic. */

/** The model of `std::optional`: a value that is present or absent. */
module Optional {

  datatype Option<T> = None | Some(value: T)

  /** Applies `f` to a present value and leaves an absent one absent. */
  function MapOption<T, U>(o: Option<T>, f: T -> U): Option<U>
  {
    match o
    case None => None
    case Some(v) => Some(f(v))
  }
}

/** The success-or-failure container.

    Both headers store exactly one of two alternatives: the newer one a
    `std::variant<value_type<T>, error_type<E>>`, the older one a
    `std::variant<T, Error<E>>`. The wrapper structs keep the two alternatives
    apart even when `T` and `E` are the same type; here the two constructors
    are distinct by construction, so `Ok(x)` and `Err(x)` never coincide. The
    tag is fixed when the value is built and no operation re-tags a value in
    place: every transformation builds a new `Result`. */
module Results {

  datatype Result<T, E> = Ok(value: T) | Err(error: E)
}

/** What an operation did with the callbacks its caller handed it. */
module Callbacks {

  /** The value an operation returns, together with the arguments it passed,
      in order, to the caller-supplied callback. An empty `calls` means the
      callback was never invoked. */
  datatype Traced<A, X> = Traced(out: A, calls: seq<X>)

  /** One invocation by an operation that takes two callbacks: `OkFunc(v)`
      means the success callback received `v`, `ErrFunc(e)` that the failure
      callback received `e`. */
  datatype Invocation<A, B> = OkFunc(okArg: A) | ErrFunc(errArg: B)
}

/** Extraction failures and the text rendering used in their messages. */
module Diagnostics {

  /** The outcome of an extractor: it returns a value, or it throws a
      `std::runtime_error` carrying `message`. */
  datatype Outcome<T> = Value(value: T) | Panic(message: string)

  /** Whether a payload type can be written to an output stream. The choice
      is made per type at compile time: a streamable type has a rendering, an
      unstreamable one only has the implementation-defined name that
      `typeid(...).name()` reports for it. */
  datatype Printer<-X> = Streamable(render: X -> string) | Unstreamable(typeName: string)

  /** String-like payloads (`std::string`, `const char *`) are written as
      their own characters. */
  function RenderString(s: string): string
  {
    s
  }

  const StringPrinter: Printer<string> := Streamable(RenderString)

  function DigitChar(d: nat): char
    requires d < 10
  {
    "0123456789"[d]
  }

  /** The decimal digits of `n`, most significant first, without leading zeros. */
  function Digits(n: nat): string
    decreases n
  {
    if n < 10 then [DigitChar(n)] else Digits(n / 10) + [DigitChar(n % 10)]
  }

  /** How an output stream writes an `int`: optional minus sign, then digits. */
  function RenderInt(i: int): string
  {
    if i < 0 then "-" + Digits(-i) else Digits(i)
  }

  const IntPrinter: Printer<int> := Streamable(RenderInt)
}
