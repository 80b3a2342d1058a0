/** The `Result` of include/rstd/result.hpp, the older header in the global
    namespace. It has a wider set of combinators than the newer header, and
    its extractors throw the caller's message, or a fixed one, without the
    payload appended. */
module Rstd {
  import opened Optional
  import opened Results
  import opened Callbacks
  import opened Diagnostics

  const UnwrapOnErr: string := "Called unwrap on Err"
  const UnwrapErrOnOk: string := "Called unwrap_err on Ok"
  const NonStreamable: string := "<non-streamable>"

  // ----- Tags and predicate queries -----

  /** `is_ok()`: the success tag, the negation of the failure tag. */
  function IsOk<T, E>(r: Result<T, E>): (b: bool)
    ensures b <==> !r.Err?
  {
    r.Ok?
  }

  /** `is_err()`: the failure tag, the negation of the success tag. */
  function IsErr<T, E>(r: Result<T, E>): (b: bool)
    ensures b <==> !r.Ok?
  {
    r.Err?
  }

  /** The free `Ok<T, E>`: the private `OkTag` constructor. */
  function MakeOk<T, E>(x: T): (r: Result<T, E>)
    ensures IsOk(r) && !IsErr(r)
    ensures Unwrap(r) == Value(x)
  {
    Ok(x)
  }

  /** The free `Err<T, E>`: the private `ErrTag` constructor. */
  function MakeErr<T, E>(e: E): (r: Result<T, E>)
    ensures IsErr(r) && !IsOk(r)
    ensures UnwrapErr(r) == Value(e)
  {
    Err(e)
  }

  /** `is_ok()` is the negation of `is_err()` on every value. */
  lemma TagsExclusive<T, E>(r: Result<T, E>)
    ensures IsOk(r) == !IsErr(r)
  {
  }

  /** `is_ok_and`: false on a failure without consulting the predicate;
      otherwise the predicate's answer for the success value. */
  function IsOkAnd<T, E>(r: Result<T, E>, pred: T -> bool): (t: Traced<bool, T>)
    ensures t.out <==> IsOk(r) && pred(r.value)
    ensures r.Ok? ==> t.calls == [r.value]
    ensures r.Err? ==> t.calls == []
  {
    if r.Ok? then Traced(pred(r.value), [r.value]) else Traced(false, [])
  }

  /** `is_err_and`: false on a success without consulting the predicate;
      otherwise the predicate's answer for the failure value. */
  function IsErrAnd<T, E>(r: Result<T, E>, pred: E -> bool): (t: Traced<bool, E>)
    ensures t.out <==> IsErr(r) && pred(r.error)
    ensures r.Err? ==> t.calls == [r.error]
    ensures r.Ok? ==> t.calls == []
  {
    if r.Err? then Traced(pred(r.error), [r.error]) else Traced(false, [])
  }

  // ----- Extraction -----

  /** `expect(msg)`: the success value, or a panic carrying `msg` exactly,
      whatever the failure value is. */
  function Expect<T, E>(r: Result<T, E>, msg: string): (o: Outcome<T>)
    ensures o.Value? <==> IsOk(r)
    ensures o.Value? ==> o.value == r.value
    ensures o.Panic? ==> o.message == msg
  {
    if r.Ok? then Value(r.value) else Panic(msg)
  }

  /** `unwrap()`: the success value, or a panic with the fixed message. */
  function Unwrap<T, E>(r: Result<T, E>): (o: Outcome<T>)
    ensures o.Value? <==> IsOk(r)
    ensures o.Value? ==> o.value == r.value
    ensures o.Panic? ==> o.message == UnwrapOnErr
  {
    if r.Ok? then Value(r.value) else Panic(UnwrapOnErr)
  }

  /** The panic message of this header's extractors never depends on the
      payload: two failures panic identically. */
  lemma PanicIgnoresPayload<T, E>(e1: E, e2: E, msg: string)
    ensures Unwrap<T, E>(Err(e1)) == Unwrap<T, E>(Err(e2))
    ensures Expect<T, E>(Err(e1), msg) == Expect<T, E>(Err(e2), msg)
  {
  }

  /** `unwrap_or(d)`: the success value, or `d`. */
  function UnwrapOr<T, E>(r: Result<T, E>, default: T): (x: T)
    ensures r.Ok? ==> x == r.value
    ensures r.Err? ==> x == default
  {
    if r.Ok? then r.value else default
  }

  /** `unwrap_or_else(f)`: the success value, or what the nullary `f`
      produces; `f` runs only on a failure, and then once. */
  function UnwrapOrElse<T, E>(r: Result<T, E>, f: () -> T): (t: Traced<T, ()>)
    ensures r.Ok? ==> t.out == r.value && t.calls == []
    ensures r.Err? ==> t.out == f() && t.calls == [()]
  {
    if r.Ok? then Traced(r.value, []) else Traced(f(), [()])
  }

  /** Computing the default lazily gives what passing it eagerly gives. */
  lemma UnwrapOrElseAgreesWithUnwrapOr<T, E>(r: Result<T, E>, f: () -> T)
    ensures UnwrapOrElse(r, f).out == UnwrapOr(r, f())
  {
  }

  /** `unwrap_unchecked()`: the documented contract asks the caller to
      guarantee a success; the precondition states that contract. */
  function UnwrapUnchecked<T, E>(r: Result<T, E>): (x: T)
    requires IsOk(r)
    ensures Unwrap(r) == Value(x)
  {
    r.value
  }

  /** `expect_err(msg)`: the failure value, or a panic carrying `msg`
      exactly. */
  function ExpectErr<T, E>(r: Result<T, E>, msg: string): (o: Outcome<E>)
    ensures o.Value? <==> IsErr(r)
    ensures o.Value? ==> o.value == r.error
    ensures o.Panic? ==> o.message == msg
  {
    if r.Err? then Value(r.error) else Panic(msg)
  }

  /** `unwrap_err()`: the failure value, or a panic with the fixed message. */
  function UnwrapErr<T, E>(r: Result<T, E>): (o: Outcome<E>)
    ensures o.Value? <==> IsErr(r)
    ensures o.Value? ==> o.value == r.error
    ensures o.Panic? ==> o.message == UnwrapErrOnOk
  {
    if r.Err? then Value(r.error) else Panic(UnwrapErrOnOk)
  }

  /** `unwrap_err_unchecked()`: the documented contract asks the caller to
      guarantee a failure; the precondition states that contract. */
  function UnwrapErrUnchecked<T, E>(r: Result<T, E>): (x: E)
    requires IsErr(r)
    ensures UnwrapErr(r) == Value(x)
  {
    r.error
  }

  // ----- Option adaptors -----

  /** `err()`: the failure value if there is one. */
  function ErrOpt<T, E>(r: Result<T, E>): (o: Option<E>)
    ensures o.Some? <==> IsErr(r)
    ensures o.Some? ==> o.value == r.error
  {
    if r.Err? then Some(r.error) else None
  }

  /** `ok()`: the success value if there is one. */
  function OkOpt<T, E>(r: Result<T, E>): (o: Option<T>)
    ensures o.Some? <==> IsOk(r)
    ensures o.Some? ==> o.value == r.value
  {
    if r.Ok? then Some(r.value) else None
  }

  /** The adaptors agree with the non-panicking extractors. */
  lemma AdaptorsMatchExtractors<T, E>(r: Result<T, E>)
    ensures OkOpt(r).Some? ==> Unwrap(r) == Value(OkOpt(r).value)
    ensures OkOpt(r).None? ==> Unwrap(r).Panic?
    ensures ErrOpt(r).Some? ==> UnwrapErr(r) == Value(ErrOpt(r).value)
    ensures ErrOpt(r).None? ==> UnwrapErr(r).Panic?
  {
  }

  /** `transpose()`: a success holding an absent value becomes absent; every
      other value moves inside a present option, keeping its tag. */
  function Transpose<T, E>(r: Result<Option<T>, E>): (o: Option<Result<T, E>>)
    ensures o.None? <==> r == Ok(None)
    ensures o.Some? && o.value.Ok? <==> r.Ok? && r.value.Some?
    ensures o.Some? && o.value.Ok? ==> o.value.value == r.value.value
    ensures r.Err? ==> o == Some(Err(r.error))
  {
    if r.Err? then Some(Err(r.error))
    else if r.value.Some? then Some(Ok(r.value.value))
    else None
  }

  /** The inverse of `transpose()`, the way back from an optional result. */
  function Untranspose<T, E>(o: Option<Result<T, E>>): Result<Option<T>, E>
  {
    match o
    case None => Ok(None)
    case Some(Ok(v)) => Ok(Some(v))
    case Some(Err(e)) => Err(e)
  }

  /** `transpose()` loses nothing: it is a bijection between
      `Result<Option<T>, E>` and `Option<Result<T, E>>`. */
  lemma TransposeRoundTrip<T, E>(r: Result<Option<T>, E>, o: Option<Result<T, E>>)
    ensures Untranspose(Transpose(r)) == r
    ensures Transpose(Untranspose(o)) == o
  {
  }

  // ----- Transformations and peeking -----

  /** `map`: only a success is transformed; a failure is passed on unchanged
      and `func` is not invoked. */
  function Map<T, E, U>(r: Result<T, E>, func: T -> U): (t: Traced<Result<U, E>, T>)
    ensures IsOk(t.out) == IsOk(r)
    ensures r.Ok? ==> t.out.value == func(r.value) && t.calls == [r.value]
    ensures r.Err? ==> t.out.error == r.error && t.calls == []
  {
    if r.Ok? then Traced(Ok(func(r.value)), [r.value]) else Traced(Err(r.error), [])
  }

  /** `inspect`: the same container comes back; `func` sees the success
      value once, and is not invoked on a failure. */
  function Inspect<T, E>(r: Result<T, E>, func: T -> ()): (t: Traced<Result<T, E>, T>)
    ensures t.out == r
    ensures |t.calls| <= 1
    ensures r.Ok? ==> t.calls == [r.value]
    ensures r.Err? ==> t.calls == []
  {
    if r.Ok? then Traced(r, [r.value]) else Traced(r, [])
  }

  /** `map_err`: only a failure is transformed; a success is passed on
      unchanged and `func` is not invoked. */
  function MapErr<T, E, F>(r: Result<T, E>, func: E -> F): (t: Traced<Result<T, F>, E>)
    ensures IsErr(t.out) == IsErr(r)
    ensures r.Err? ==> t.out.error == func(r.error) && t.calls == [r.error]
    ensures r.Ok? ==> t.out.value == r.value && t.calls == []
  {
    if r.Err? then Traced(Err(func(r.error)), [r.error]) else Traced(Ok(r.value), [])
  }

  /** `inspect_err`: the same container comes back; `func` sees the failure
      value once, and is not invoked on a success. */
  function InspectErr<T, E>(r: Result<T, E>, func: E -> ()): (t: Traced<Result<T, E>, E>)
    ensures t.out == r
    ensures |t.calls| <= 1
    ensures r.Err? ==> t.calls == [r.error]
    ensures r.Ok? ==> t.calls == []
  {
    if r.Err? then Traced(r, [r.error]) else Traced(r, [])
  }

  /** Mapping the identity over either side changes nothing. */
  lemma MapIdentities<T, E>(r: Result<T, E>)
    ensures Map(r, (x: T) => x).out == r
    ensures MapErr(r, (e: E) => e).out == r
  {
  }

  /** Mapping twice is mapping the composition once, on either side. */
  lemma MapCompositions<T, E, U, V, F, G>(r: Result<T, E>, f: T -> U, g: U -> V, h: E -> F, k: F -> G)
    ensures Map(Map(r, f).out, g).out == Map(r, (x: T) => g(f(x))).out
    ensures MapErr(MapErr(r, h).out, k).out == MapErr(r, (e: E) => k(h(e))).out
  {
  }

  /** The two sides are independent: transforming the success and the
      failure can be done in either order. */
  lemma MapAndMapErrCommute<T, E, U, F>(r: Result<T, E>, f: T -> U, h: E -> F)
    ensures MapErr(Map(r, f).out, h).out == Map(MapErr(r, h).out, f).out
  {
  }

  /** Whatever side a peek is on, exactly one of `inspect` and `inspect_err`
      invokes its callback. */
  lemma ExactlyOnePeekFires<T, E>(r: Result<T, E>, f: T -> (), g: E -> ())
    ensures |Inspect(r, f).calls| + |InspectErr(r, g).calls| == 1
  {
  }

  // ----- Two-branch consumers -----

  /** `map_or(d, func)`: `func` of the success value, or the eagerly given
      `d`, in which case `func` is not invoked. */
  function MapOr<T, E, U>(r: Result<T, E>, default: U, func: T -> U): (t: Traced<U, T>)
    ensures r.Ok? ==> t.out == func(r.value) && t.calls == [r.value]
    ensures r.Err? ==> t.out == default && t.calls == []
  {
    if r.Ok? then Traced(func(r.value), [r.value]) else Traced(default, [])
  }

  /** `map_or_else(ok_func, err_func)`: exactly one of the two callbacks is
      invoked, the success one first in the argument list, chosen by the
      tag. */
  function MapOrElse<T, E, U>(r: Result<T, E>, okFunc: T -> U, errFunc: E -> U): (t: Traced<U, Invocation<T, E>>)
    ensures |t.calls| == 1
    ensures r.Ok? ==> t.out == okFunc(r.value) && t.calls == [OkFunc(r.value)]
    ensures r.Err? ==> t.out == errFunc(r.error) && t.calls == [ErrFunc(r.error)]
  {
    if r.Ok? then Traced(okFunc(r.value), [OkFunc(r.value)])
    else Traced(errFunc(r.error), [ErrFunc(r.error)])
  }

  /** `match(ok_func, err_func)`: pattern matching, one callback per tag. */
  function Match<T, E, U>(r: Result<T, E>, okFunc: T -> U, errFunc: E -> U): (t: Traced<U, Invocation<T, E>>)
    ensures |t.calls| == 1
    ensures r.Ok? ==> t.out == okFunc(r.value) && t.calls == [OkFunc(r.value)]
    ensures r.Err? ==> t.out == errFunc(r.error) && t.calls == [ErrFunc(r.error)]
  {
    match r
    case Ok(v) => Traced(okFunc(v), [OkFunc(v)])
    case Err(e) => Traced(errFunc(e), [ErrFunc(e)])
  }

  /** `match` and `map_or_else` are the same consumer; `map_or` is the one
      whose failure callback ignores its argument. */
  lemma ConsumersAgree<T, E, U>(r: Result<T, E>, default: U, okFunc: T -> U, errFunc: E -> U)
    ensures Match(r, okFunc, errFunc) == MapOrElse(r, okFunc, errFunc)
    ensures MapOr(r, default, okFunc).out == MapOrElse(r, okFunc, (_: E) => default).out
  {
  }

  // ----- Chaining -----

  /** `and_`: a failure is kept; a success gives way to `other`. */
  function And<T, E, U>(r: Result<T, E>, other: Result<U, E>): (c: Result<U, E>)
    ensures r.Err? ==> c == Err(r.error)
    ensures r.Ok? ==> c == other
  {
    if r.Ok? then other else Err(r.error)
  }

  /** `or_`: a success is kept; a failure gives way to `other`. */
  function Or<T, E, F>(r: Result<T, E>, other: Result<T, F>): (c: Result<T, F>)
    ensures r.Ok? ==> c == Ok(r.value)
    ensures r.Err? ==> c == other
  {
    if r.Err? then other else Ok(r.value)
  }

  /** The truth tables of the documentation: the result of `and_` is a
      success only when both operands are, and the result of `or_` is a
      failure only when both are. */
  lemma ChainingTruthTables<T, E, U, F>(a: Result<T, E>, b: Result<U, E>, c: Result<T, F>)
    ensures And(a, b).Ok? <==> a.Ok? && b.Ok?
    ensures Or(a, c).Err? <==> a.Err? && c.Err?
    ensures a.Ok? && b.Err? ==> And(a, b) == Err(b.error)
    ensures a.Err? && c.Ok? ==> Or(a, c) == Ok(c.value)
  {
  }

  /** `and_` and `or_` are associative. */
  lemma AndOrAssociative<T, E, U, V, F, G>(a: Result<T, E>, b: Result<U, E>, c: Result<V, E>,
                                           x: Result<T, F>, y: Result<T, G>)
    ensures And(And(a, b), c) == And(a, And(b, c))
    ensures Or(Or(a, x), y) == Or(a, Or(x, y))
  {
  }

  /** `and_then(func)`: a success is replaced by what `func` returns for its
      value; a failure is kept and `func` is not invoked. */
  function AndThen<T, E, U>(r: Result<T, E>, func: T -> Result<U, E>): (t: Traced<Result<U, E>, T>)
    ensures r.Ok? ==> t.out == func(r.value) && t.calls == [r.value]
    ensures r.Err? ==> t.out == Err(r.error) && t.calls == []
  {
    if r.Ok? then Traced(func(r.value), [r.value]) else Traced(Err(r.error), [])
  }

  /** `or_else(func)`: a failure is replaced by what `func` returns for its
      error; a success is kept and `func` is not invoked. */
  function OrElse<T, E, F>(r: Result<T, E>, func: E -> Result<T, F>): (t: Traced<Result<T, F>, E>)
    ensures r.Err? ==> t.out == func(r.error) && t.calls == [r.error]
    ensures r.Ok? ==> t.out == Ok(r.value) && t.calls == []
  {
    if r.Err? then Traced(func(r.error), [r.error]) else Traced(Ok(r.value), [])
  }

  /** `and_` is `and_then` with a callback that ignores its argument, `or_`
      is `or_else` likewise, and `map` is `and_then` with a callback that
      always succeeds. */
  lemma ChainingViaCallbacks<T, E, U, F>(r: Result<T, E>, b: Result<U, E>, c: Result<T, F>, f: T -> U)
    ensures And(r, b) == AndThen(r, (_: T) => b).out
    ensures Or(r, c) == OrElse(r, (_: E) => c).out
    ensures Map(r, f) == AndThen(r, (x: T) => Ok(f(x)))
  {
  }

  /** The monad laws of `and_then`: `Ok` is a left and a right identity, and
      nested binds may be regrouped. */
  lemma AndThenMonadLaws<T, E, U, V>(x: T, r: Result<T, E>, f: T -> Result<U, E>, g: U -> Result<V, E>)
    ensures AndThen(Ok(x), f).out == f(x)
    ensures AndThen(r, (v: T) => Ok(v)).out == r
    ensures AndThen(AndThen(r, f).out, g).out == AndThen(r, (v: T) => AndThen(f(v), g).out).out
  {
  }

  /** The same laws for `or_else`, with `Err` as the identity. */
  lemma OrElseMonadLaws<T, E, F, G>(e: E, r: Result<T, E>, f: E -> Result<T, F>, g: F -> Result<T, G>)
    ensures OrElse(Err(e), f).out == f(e)
    ensures OrElse(r, (d: E) => Err(d)).out == r
    ensures OrElse(OrElse(r, f).out, g).out == OrElse(r, (d: E) => OrElse(f(d), g).out).out
  {
  }

  // ----- Pipelines of fallible steps -----

  /** A chain `r.and_then(steps[0]).and_then(steps[1])...`, recording every
      argument any step received. */
  function Pipeline<T, E>(r: Result<T, E>, steps: seq<T -> Result<T, E>>): Traced<Result<T, E>, T>
    decreases |steps|
  {
    if |steps| == 0 then Traced(r, [])
    else
      var first := AndThen(r, steps[0]);
      var rest := Pipeline(first.out, steps[1..]);
      Traced(rest.out, first.calls + rest.calls)
  }

  /** A failure entering a chain leaves it unchanged, and no step runs. */
  lemma {:induction false} PipelinePropagatesErr<T, E>(e: E, steps: seq<T -> Result<T, E>>)
    ensures Pipeline(Err(e), steps) == Traced(Err(e), [])
    decreases |steps|
  {
    if |steps| > 0 {
      PipelinePropagatesErr(e, steps[1..]);
    }
  }

  /** Each step runs at most once, and a chain ends in success only if it
      started with a success and every step ran. */
  lemma {:induction false} PipelineSuccessRunsEveryStep<T, E>(r: Result<T, E>, steps: seq<T -> Result<T, E>>)
    ensures |Pipeline(r, steps).calls| <= |steps|
    ensures Pipeline(r, steps).out.Ok? ==> r.Ok? && |Pipeline(r, steps).calls| == |steps|
    decreases |steps|
  {
    if |steps| > 0 {
      var first := AndThen(r, steps[0]);
      PipelineSuccessRunsEveryStep(first.out, steps[1..]);
      if r.Err? {
        PipelinePropagatesErr(r.error, steps[1..]);
      }
    }
  }

  /** A failing step stops all the later ones: once a prefix of the chain
      has failed, the remaining steps neither run nor change the failure. */
  lemma {:induction false} PipelineStopsAtFirstFailure<T, E>(r: Result<T, E>, s1: seq<T -> Result<T, E>>, s2: seq<T -> Result<T, E>>)
    requires Pipeline(r, s1).out.Err?
    ensures Pipeline(r, s1 + s2) == Pipeline(r, s1)
  {
    PipelineAppend(r, s1, s2);
    PipelinePropagatesErr(Pipeline(r, s1).out.error, s2);
  }

  /** The first step's failure is the chain's result: the step runs once and
      no later step runs. */
  lemma {:induction false} PipelineFailingFirstStep<T, E>(x: T, steps: seq<T -> Result<T, E>>)
    requires |steps| > 0 && steps[0](x).Err?
    ensures Pipeline(Ok(x), steps) == Traced(steps[0](x), [x])
  {
    PipelinePropagatesErr(steps[0](x).error, steps[1..]);
  }

  /** Running two chains one after the other is running their
      concatenation. */
  lemma {:induction false} PipelineAppend<T, E>(r: Result<T, E>, s1: seq<T -> Result<T, E>>, s2: seq<T -> Result<T, E>>)
    ensures Pipeline(r, s1 + s2).out == Pipeline(Pipeline(r, s1).out, s2).out
    ensures Pipeline(r, s1 + s2).calls == Pipeline(r, s1).calls + Pipeline(Pipeline(r, s1).out, s2).calls
    decreases |s1|
  {
    if |s1| == 0 {
      assert s1 + s2 == s2;
    } else {
      var first := AndThen(r, s1[0]);
      assert (s1 + s2)[0] == s1[0];
      assert (s1 + s2)[1..] == s1[1..] + s2;
      var mid := Pipeline(first.out, s1[1..]);
      var tail := Pipeline(mid.out, s2);
      PipelineAppend(first.out, s1[1..], s2);
      assert Pipeline(r, s1) == Traced(mid.out, first.calls + mid.calls);
      assert Pipeline(r, s1 + s2).calls == first.calls + (mid.calls + tail.calls);
      assert first.calls + (mid.calls + tail.calls) == (first.calls + mid.calls) + tail.calls;
    }
  }

  // ----- Printing -----

  /** How `operator<<` writes one payload: its rendering, or a fixed marker
      for a type that cannot be streamed. */
  function ShowPayload<X>(x: X, printer: Printer<X>): (s: string)
    ensures printer.Streamable? ==> s == printer.render(x)
    ensures printer.Unstreamable? ==> s == NonStreamable
  {
    match printer
    case Streamable(render) => render(x)
    case Unstreamable(_) => NonStreamable
  }

  /** `operator<<`: `Ok(...)` or `Err(...)` around the payload. The tag can
      be read from the first character and the payload from the text between
      the parentheses. */
  function Show<T, E>(r: Result<T, E>, pt: Printer<T>, pe: Printer<E>): (s: string)
    ensures |s| >= 4
    ensures r.Ok? ==> s[..3] == "Ok(" && s[3..|s| - 1] == ShowPayload(r.value, pt)
    ensures r.Err? ==> |s| >= 5 && s[..4] == "Err(" && s[4..|s| - 1] == ShowPayload(r.error, pe)
    ensures s[|s| - 1] == ')'
    ensures s[0] == 'O' <==> r.Ok?
  {
    if r.Ok? then "Ok(" + ShowPayload(r.value, pt) + ")"
    else "Err(" + ShowPayload(r.error, pe) + ")"
  }

  /** Two results print alike only if they have the same tag and their
      payloads print alike. */
  lemma ShowIsFaithful<T, E>(a: Result<T, E>, b: Result<T, E>, pt: Printer<T>, pe: Printer<E>)
    requires Show(a, pt, pe) == Show(b, pt, pe)
    ensures a.Ok? == b.Ok?
    ensures a.Ok? ==> ShowPayload(a.value, pt) == ShowPayload(b.value, pt)
    ensures a.Err? ==> ShowPayload(a.error, pe) == ShowPayload(b.error, pe)
  {
    var s := Show(a, pt, pe);
    if a.Ok? {
      assert s[3..|s| - 1] == ShowPayload(a.value, pt);
    } else {
      assert s[4..|s| - 1] == ShowPayload(a.error, pe);
    }
  }
}
