/** The `Result` of include/rstd++/result.hpp (namespace `rstd`).

    Each operation comes in the source as a `const &` overload that copies the
    payload and a `&&` overload that moves it; both compute the same value, so
    each pair is one function here. Callback-taking operations return a
    `Traced` value recording what the callback received. Failed extractions
    become `Panic` outcomes whose message is built by `UnwrapFailed`. */
module RstdPlus {
  import opened Optional
  import opened Results
  import opened Callbacks
  import opened Diagnostics

  const UnwrapOnErr: string := "called `Result::unwrap()` on an `Err` value"
  const UnwrapErrOnOk: string := "called `Result::unwrap_err()` on an `Ok` value"
  const ObjectOfType: string := "[object of type "

  // ----- Construction and tags -----

  /** `Result::Ok` and the free `Ok<U, V>`: both call the private `OkTag`
      constructor. */
  function MakeOk<T, E>(v: T): (r: Result<T, E>)
    ensures IsOk(r) && !IsErr(r)
    ensures OkOpt(r) == Some(v)
  {
    Ok(v)
  }

  /** `Result::Err` and the free `Err<U, V>`: both call the private `ErrTag`
      constructor. */
  function MakeErr<T, E>(e: E): (r: Result<T, E>)
    ensures IsErr(r) && !IsOk(r)
    ensures ErrOpt(r) == Some(e)
  {
    Err(e)
  }

  /** `is_ok()`: the success tag, the negation of the failure tag. */
  function IsOk<T, E>(r: Result<T, E>): (b: bool)
    ensures b <==> !r.Err?
  {
    r.Ok?
  }

  /** `is_err()`: the failure tag, the negation of the success tag. */
  function IsErr<T, E>(r: Result<T, E>): (b: bool)
    ensures b <==> !r.Ok?
  {
    r.Err?
  }

  /** Exactly one of the two tags holds for every value. */
  lemma TagsExclusive<T, E>(r: Result<T, E>)
    ensures IsOk(r) != IsErr(r)
  {
  }

  /** With the same type on both sides, a success and a failure holding the
      same payload are still told apart. */
  lemma TagsDistinctForSameType<T>(x: T)
    ensures MakeOk<T, T>(x) != MakeErr<T, T>(x)
    ensures IsOk(MakeOk<T, T>(x)) && IsErr(MakeErr<T, T>(x))
  {
  }

  // ----- Predicate queries -----

  /** `is_ok_and`: the predicate is consulted only on a success, exactly once,
      with the success value. */
  function IsOkAnd<T, E>(r: Result<T, E>, pred: T -> bool): (t: Traced<bool, T>)
    ensures t.out <==> IsOk(r) && pred(r.value)
    ensures r.Ok? ==> t.calls == [r.value]
    ensures r.Err? ==> t.calls == []
  {
    match r
    case Ok(v) => Traced(pred(v), [v])
    case Err(_) => Traced(false, [])
  }

  /** `is_err_and`: the predicate is consulted only on a failure, exactly
      once, with the failure value. */
  function IsErrAnd<T, E>(r: Result<T, E>, pred: E -> bool): (t: Traced<bool, E>)
    ensures t.out <==> IsErr(r) && pred(r.error)
    ensures r.Err? ==> t.calls == [r.error]
    ensures r.Ok? ==> t.calls == []
  {
    match r
    case Err(e) => Traced(pred(e), [e])
    case Ok(_) => Traced(false, [])
  }

  // ----- Option adaptors -----

  /** `ok()`: the success value if there is one. */
  function OkOpt<T, E>(r: Result<T, E>): (o: Option<T>)
    ensures o.Some? <==> IsOk(r)
    ensures o.Some? ==> o.value == r.value
  {
    if r.Ok? then Some(r.value) else None
  }

  /** `err()`: the failure value if there is one. */
  function ErrOpt<T, E>(r: Result<T, E>): (o: Option<E>)
    ensures o.Some? <==> IsErr(r)
    ensures o.Some? ==> o.value == r.error
  {
    if r.Err? then Some(r.error) else None
  }

  /** Exactly one adaptor yields a value, and together they determine the
      container: the result can be rebuilt from them. */
  lemma AdaptorsRecoverResult<T, E>(r: Result<T, E>)
    ensures OkOpt(r).Some? != ErrOpt(r).Some?
    ensures r == (if OkOpt(r).Some? then Ok(OkOpt(r).value) else Err(ErrOpt(r).value))
  {
  }

  // ----- Transformations -----

  /** `map`: a success is transformed by `f`; a failure is passed on with the
      identical error and `f` is never invoked. */
  function Map<T, E, U>(r: Result<T, E>, f: T -> U): (t: Traced<Result<U, E>, T>)
    ensures IsOk(t.out) == IsOk(r)
    ensures r.Ok? ==> t.out.value == f(r.value) && t.calls == [r.value]
    ensures r.Err? ==> t.out.error == r.error && t.calls == []
  {
    match r
    case Ok(v) => Traced(Ok(f(v)), [v])
    case Err(e) => Traced(Err(e), [])
  }

  /** Mapping the identity changes nothing. */
  lemma MapIdentity<T, E>(r: Result<T, E>)
    ensures Map(r, (x: T) => x).out == r
  {
  }

  /** Mapping twice is mapping the composition once. */
  lemma MapComposition<T, E, U, V>(r: Result<T, E>, f: T -> U, g: U -> V)
    ensures Map(Map(r, f).out, g).out == Map(r, (x: T) => g(f(x))).out
  {
  }

  /** `map` acts on the success adaptor as an option map and leaves the
      failure adaptor alone. */
  lemma MapThroughAdaptors<T, E, U>(r: Result<T, E>, f: T -> U)
    ensures OkOpt(Map(r, f).out) == MapOption(OkOpt(r), f)
    ensures ErrOpt(Map(r, f).out) == ErrOpt(r)
  {
  }

  /** `map_or`: `f` of the success value, or the eagerly given default on a
      failure, in which case `f` is never invoked. */
  function MapOr<T, E, U>(r: Result<T, E>, default: U, f: T -> U): (t: Traced<U, T>)
    ensures r.Ok? ==> t.out == f(r.value) && t.calls == [r.value]
    ensures r.Err? ==> t.out == default && t.calls == []
  {
    match r
    case Ok(v) => Traced(f(v), [v])
    case Err(_) => Traced(default, [])
  }

  /** `map_or(d, f)` is `map(f)` followed by taking the value or `d`. */
  lemma MapOrIsMapThenDefault<T, E, U>(r: Result<T, E>, default: U, f: T -> U)
    ensures MapOr(r, default, f).out == UnwrapOrDefault(Map(r, f).out, default)
    ensures MapOr(r, default, f).calls == Map(r, f).calls
  {
  }

  // ----- Extraction -----

  /** `unwrap_failed`: the diagnostic is the caller's message, a colon and a
      space, then the payload as the stream writes it, or, for a type that
      cannot be streamed, a bracketed note naming its type. */
  function UnwrapFailed<X>(msg: string, payload: X, printer: Printer<X>): (m: string)
    ensures |m| >= |msg| + 2
    ensures m[..|msg|] == msg && m[|msg|..|msg| + 2] == ": "
    ensures printer.Streamable? ==> m[|msg| + 2..] == printer.render(payload)
    ensures printer.Unstreamable? ==> m[|msg| + 2..] == ObjectOfType + printer.typeName + "]"
  {
    var shown := match printer
      case Streamable(render) => render(payload)
      case Unstreamable(name) => ObjectOfType + name + "]";
    msg + ": " + shown
  }

  /** With the caller's message known, the rendered payload can be read back
      from the diagnostic, so distinct renderings give distinct messages. */
  lemma UnwrapFailedDistinguishesPayloads<X>(msg: string, a: X, b: X, render: X -> string)
    requires render(a) != render(b)
    ensures UnwrapFailed(msg, a, Streamable(render)) != UnwrapFailed(msg, b, Streamable(render))
  {
    var ma := UnwrapFailed(msg, a, Streamable(render));
    var mb := UnwrapFailed(msg, b, Streamable(render));
    assert ma[|msg| + 2..] == render(a);
    assert mb[|msg| + 2..] == render(b);
  }

  /** `expect(msg)`: the success value, or a panic whose message starts with
      `msg` and shows the failure value. */
  function Expect<T, E>(r: Result<T, E>, msg: string, printer: Printer<E>): (o: Outcome<T>)
    ensures o.Value? <==> IsOk(r)
    ensures o.Value? ==> o.value == r.value
    ensures o.Panic? ==> o.message == UnwrapFailed(msg, r.error, printer)
  {
    match r
    case Ok(v) => Value(v)
    case Err(e) => Panic(UnwrapFailed(msg, e, printer))
  }

  /** `unwrap()`: the success value, or a panic with the fixed message
      followed by the failure value. */
  function Unwrap<T, E>(r: Result<T, E>, printer: Printer<E>): (o: Outcome<T>)
    ensures o.Value? <==> IsOk(r)
    ensures o.Value? ==> o.value == r.value
    ensures o.Panic? ==> o.message == UnwrapFailed(UnwrapOnErr, r.error, printer)
  {
    match r
    case Ok(v) => Value(v)
    case Err(e) => Panic(UnwrapFailed(UnwrapOnErr, e, printer))
  }

  /** `unwrap()` is `expect` with the built-in message. */
  lemma UnwrapIsExpectWithFixedMessage<T, E>(r: Result<T, E>, printer: Printer<E>)
    ensures Unwrap(r, printer) == Expect(r, UnwrapOnErr, printer)
  {
  }

  /** `unwrap_or_default()`: the success value, or `zero`, the value a
      default-constructed `T` has; it never panics. */
  function UnwrapOrDefault<T, E>(r: Result<T, E>, zero: T): (x: T)
    ensures r.Ok? ==> x == r.value
    ensures r.Err? ==> x == zero
  {
    match r
    case Ok(v) => v
    case Err(_) => zero
  }

  /** Wherever `unwrap()` returns, `unwrap_or_default()` returns the same
      value, and it also returns where `unwrap()` panics. */
  lemma UnwrapOrDefaultExtendsUnwrap<T, E>(r: Result<T, E>, zero: T, printer: Printer<E>)
    ensures Unwrap(r, printer).Value? ==> UnwrapOrDefault(r, zero) == Unwrap(r, printer).value
    ensures Unwrap(r, printer).Panic? ==> UnwrapOrDefault(r, zero) == zero
  {
  }

  /** `expect_err(msg)`: the failure value, or a panic whose message starts
      with `msg` and shows the success value. */
  function ExpectErr<T, E>(r: Result<T, E>, msg: string, printer: Printer<T>): (o: Outcome<E>)
    ensures o.Value? <==> IsErr(r)
    ensures o.Value? ==> o.value == r.error
    ensures o.Panic? ==> o.message == UnwrapFailed(msg, r.value, printer)
  {
    match r
    case Err(e) => Value(e)
    case Ok(v) => Panic(UnwrapFailed(msg, v, printer))
  }

  /** `unwrap_err()`: the failure value, or a panic with the fixed message
      followed by the success value. */
  function UnwrapErr<T, E>(r: Result<T, E>, printer: Printer<T>): (o: Outcome<E>)
    ensures o.Value? <==> IsErr(r)
    ensures o.Value? ==> o.value == r.error
    ensures o.Panic? ==> o.message == UnwrapFailed(UnwrapErrOnOk, r.value, printer)
  {
    match r
    case Err(e) => Value(e)
    case Ok(v) => Panic(UnwrapFailed(UnwrapErrOnOk, v, printer))
  }

  /** `unwrap_err()` is `expect_err` with the built-in message. */
  lemma UnwrapErrIsExpectErrWithFixedMessage<T, E>(r: Result<T, E>, printer: Printer<T>)
    ensures UnwrapErr(r, printer) == ExpectErr(r, UnwrapErrOnOk, printer)
  {
  }

  /** Exactly one of `unwrap()` and `unwrap_err()` panics on any value, and
      the one that returns hands back the payload the adaptor shows. */
  lemma ExactlyOneExtractorSucceeds<T, E>(r: Result<T, E>, pt: Printer<T>, pe: Printer<E>)
    ensures Unwrap(r, pe).Value? != UnwrapErr(r, pt).Value?
    ensures Unwrap(r, pe).Value? ==> OkOpt(r) == Some(Unwrap(r, pe).value)
    ensures UnwrapErr(r, pt).Value? ==> ErrOpt(r) == Some(UnwrapErr(r, pt).value)
  {
  }

  // ----- The documented examples and the test scenarios -----

  /** The `is_ok_and` example: `Ok(2)` passes `v > 1` but not `v > 5`. */
  lemma QueryDocExample()
    ensures IsOkAnd(MakeOk<int, string>(2), (v: int) => v > 1).out
    ensures !IsOkAnd(MakeOk<int, string>(2), (v: int) => v > 5).out
  {
  }

  /** The `map` and `map_or` examples: doubling 2, and falling back to 42 on
      an error. */
  lemma TransformDocExamples()
    ensures Map(MakeOk<int, string>(2), (n: int) => n * 2).out == Ok(4)
    ensures Map(MakeErr<int, string>("error"), (n: int) => n * 2).out == Err("error")
    ensures MapOr(MakeOk<int, string>(2), 42, (n: int) => n * 2).out == 4
    ensures MapOr(MakeErr<int, string>("error"), 42, (n: int) => n * 2).out == 42
  {
  }

  /** The commented-out `map` and `map_or` tests: a failure maps to itself
      without a call, `map_or` falls back to 99 on a failure and gives 10
      for `Ok(7)` with `v + 3`. */
  lemma MapTestScenarios()
    ensures Map(MakeErr<int, string>("boom"), (v: int) => v + 1) == Traced(Err("boom"), [])
    ensures MapOr(MakeErr<int, string>("err"), 99, (v: int) => v * 2) == Traced(99, [])
    ensures MapOr(MakeOk<int, string>(7), 0, (v: int) => v + 3) == Traced(10, [7])
  {
  }

  /** The `unwrap_or_default` example: an `int` defaults to 0. */
  lemma DefaultDocExample()
    ensures UnwrapOrDefault(MakeOk<int, string>(2), 0) == 2
    ensures UnwrapOrDefault(MakeErr<int, string>("error"), 0) == 0
  {
  }

  /** The `expect` and `unwrap` examples on `Err("error")`. */
  lemma UnwrapDocExamples()
    ensures Expect(MakeOk<int, string>(2), "should be Ok", StringPrinter) == Value(2)
    ensures Expect(MakeErr<int, string>("error"), "Testing expect", StringPrinter)
         == Panic("Testing expect: error")
    ensures Unwrap(MakeErr<int, string>("error"), StringPrinter)
         == Panic("called `Result::unwrap()` on an `Err` value: error")
  {
  }

  /** The `expect_err` example: on `Ok(2)` the message ends in the rendered 2. */
  lemma ExpectErrDocExample()
    ensures ExpectErr(MakeErr<int, string>("error"), "should be Err", IntPrinter) == Value("error")
    ensures ExpectErr(MakeOk<int, string>(2), "Testing expect_err", IntPrinter)
         == Panic("Testing expect_err: 2")
    ensures UnwrapErr(MakeOk<int, string>(2), IntPrinter)
         == Panic("called `Result::unwrap_err()` on an `Ok` value: 2")
  {
  }

  /** The creation tests: `Ok(5)` unwraps to 5 and refuses `unwrap_err`;
      `Err("CreateErr")` refuses `unwrap` with a message that shows
      "CreateErr" and unwraps its error to it. */
  lemma CreationScenarios()
    ensures Unwrap(MakeOk<int, string>(5), StringPrinter) == Value(5)
    ensures UnwrapErr(MakeOk<int, string>(5), IntPrinter).Panic?
    ensures UnwrapErr(MakeErr<int, string>("CreateErr"), IntPrinter) == Value("CreateErr")
    ensures Unwrap(MakeErr<int, string>("CreateErr"), StringPrinter).Panic?
    ensures "CreateErr" <= Unwrap(MakeErr<int, string>("CreateErr"), StringPrinter).message[|UnwrapOnErr| + 2..]
  {
  }
}
