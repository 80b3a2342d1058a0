# rstd-plus-plus `Result` in Dafny

A model of the Rust-style `Result<T, E>` success-or-failure container for C++,
in its two header variants, and of the `Void` unit marker.

- `types.dfy` holds the shared values: `Optional.Option` (`std::optional`),
  `Results.Result<T, E> = Ok(value) | Err(error)` (the container; both headers
  store exactly one of two alternatives, and the tag never changes after
  construction), `Callbacks.Traced(out, calls)` (an operation's value together
  with the arguments it passed to the caller's callback, so "the callback is
  never invoked on an `Err`" is a statement about `calls`), and
  `Diagnostics.Outcome = Value | Panic(message)` (a thrown
  `std::runtime_error` becomes a `Panic`). Whether a payload type can be
  streamed is the compile-time choice `Diagnostics.Printer = Streamable(render)
  | Unstreamable(typeName)`.
- `core.dfy` (module `Core`) models `include/rstd++/core.hpp`: `Void`, its
  comparison operators and its rendering as `()`.
- `rstd_plus_result.dfy` (module `RstdPlus`) models `include/rstd++/result.hpp`.
  Each `const &` / `&&` overload pair computes the same value and is one
  function. Failed extractions build `"<msg>: <rendered payload>"` through
  `UnwrapFailed`.
- `rstd_result.dfy` (module `Rstd`) models `include/rstd/result.hpp`, with the
  wider combinator set, the monad laws of `and_then` and `or_else`, chains of
  `and_then` steps (`Pipeline`), and `operator<<` (`Show`). Its extractors
  panic with the bare message.
- `agreement.dfy` (module `Agreement`) relates the two headers: they agree on
  every shared query, adaptor and transformation, and the newer header's panic
  message is the older one's followed by `": "` and the rendered payload.

Two behaviours of the code differ from what a reader of Rust's `Result` would
expect, and the model follows the code: the older header's `map_or_else` takes
the success callback first (`map_or_else(ok_func, err_func)`), and the older
header's extractors throw the caller's message, or a fixed one, with no payload
appended; only the newer header appends the rendered payload.

## Model

| member | source | states |
|---|---|---|
| RstdPlus.MakeOk | include/rstd++/result.hpp:135-143 | `Result::Ok(v)` is a success, not a failure, and `ok()` of it gives back `v` |
| RstdPlus.MakeErr | include/rstd++/result.hpp:151-159 | `Result::Err(e)` is a failure, not a success, and `err()` of it gives back `e` |
| RstdPlus.IsOk | include/rstd++/result.hpp:187 | `is_ok()` holds exactly when the value is not a failure |
| RstdPlus.IsErr | include/rstd++/result.hpp:250 | `is_err()` holds exactly when the value is not a success |
| RstdPlus.TagsExclusive | include/rstd++/result.hpp:187-250 | exactly one of `is_ok()` and `is_err()` holds for every value |
| RstdPlus.TagsDistinctForSameType | include/rstd++/result.hpp:93-100 | with `T == E`, `Ok(x)` and `Err(x)` differ and carry opposite tags |
| RstdPlus.IsOkAnd | include/rstd++/result.hpp:206-235 | `is_ok_and(p)` is `is_ok() && p(v)`; `p` is called once with the value on a success and never on a failure |
| RstdPlus.IsErrAnd | include/rstd++/result.hpp:270-290 | `is_err_and(p)` is `is_err() && p(e)`; `p` is called once with the error on a failure and never on a success |
| RstdPlus.OkOpt | include/rstd++/result.hpp:306-332 | `ok()` is present exactly on a success and then holds the success value |
| RstdPlus.ErrOpt | include/rstd++/result.hpp:348-374 | `err()` is present exactly on a failure and then holds the failure value |
| RstdPlus.AdaptorsRecoverResult | include/rstd++/result.hpp:306-374 | exactly one adaptor is present, and the container can be rebuilt from the two adaptors |
| RstdPlus.Map | include/rstd++/result.hpp:399-442 | `map(f)` keeps the tag; a success becomes `f(v)` with `f` called once; a failure keeps the identical error and `f` is not called |
| RstdPlus.MapIdentity | include/rstd++/result.hpp:399-442 | mapping the identity returns the container unchanged |
| RstdPlus.MapComposition | include/rstd++/result.hpp:399-442 | mapping `f` then `g` equals mapping their composition |
| RstdPlus.MapThroughAdaptors | include/rstd++/result.hpp:399-442 | `ok()` of a mapped result is the option map of `ok()`; `err()` is unchanged by `map` |
| RstdPlus.MapOr | include/rstd++/result.hpp:463-492 | `map_or(d, f)` is `f(v)` on a success and `d` on a failure, where `f` is not called |
| RstdPlus.MapOrIsMapThenDefault | include/rstd++/result.hpp:463-492 | `map_or(d, f)` equals `map(f)` followed by taking the value or `d`, with the same callback calls |
| RstdPlus.UnwrapFailed | include/rstd++/result.hpp:102-119 | the diagnostic is `msg`, then `": "`, then the rendered payload, or `[object of type <name>]` for an unstreamable type |
| RstdPlus.UnwrapFailedDistinguishesPayloads | include/rstd++/result.hpp:102-119 | payloads that render differently give different diagnostics for the same message |
| RstdPlus.Expect | include/rstd++/result.hpp:509-549 | `expect(msg)` returns the value exactly on a success; on a failure it panics with `msg` followed by the rendered error |
| RstdPlus.Unwrap | include/rstd++/result.hpp:561-599 | `unwrap()` returns the value exactly on a success; on a failure it panics with the fixed message followed by the rendered error |
| RstdPlus.UnwrapIsExpectWithFixedMessage | include/rstd++/result.hpp:561-599 | `unwrap()` behaves as `expect` with the built-in message |
| RstdPlus.UnwrapOrDefault | include/rstd++/result.hpp:611-654 | `unwrap_or_default()` is the value on a success and the default-constructed value on a failure, and never panics |
| RstdPlus.UnwrapOrDefaultExtendsUnwrap | include/rstd++/result.hpp:611-654 | wherever `unwrap()` returns, `unwrap_or_default()` returns the same value; where `unwrap()` panics, it returns the default |
| RstdPlus.ExpectErr | include/rstd++/result.hpp:665-700 | `expect_err(msg)` returns the error exactly on a failure; on a success it panics with `msg` followed by the rendered value |
| RstdPlus.UnwrapErr | include/rstd++/result.hpp:710-744 | `unwrap_err()` returns the error exactly on a failure; on a success it panics with the fixed message followed by the rendered value |
| RstdPlus.UnwrapErrIsExpectErrWithFixedMessage | include/rstd++/result.hpp:710-744 | `unwrap_err()` behaves as `expect_err` with the built-in message |
| RstdPlus.ExactlyOneExtractorSucceeds | include/rstd++/result.hpp:561-744 | on every value exactly one of `unwrap()` and `unwrap_err()` panics, and the other returns what the matching adaptor holds |
| RstdPlus.QueryDocExample | include/rstd++/result.hpp:199-205 | `Ok(2)` satisfies `v > 1` and not `v > 5` |
| RstdPlus.TransformDocExamples | include/rstd++/result.hpp:390-461 | `Ok(2).map(n*2)` is `Ok(4)`, `Err("error")` maps to itself, and `map_or(42, n*2)` gives 4 and 42 |
| RstdPlus.MapTestScenarios | tests/rstd++/result_test.cpp:119-163 | `Err("boom").map(v + 1)` stays `Err("boom")` without a call; `map_or(99, v * 2)` on a failure gives 99 without a call; `Ok(7).map_or(0, v + 3)` gives 10 with one call on 7 |
| RstdPlus.DefaultDocExample | include/rstd++/result.hpp:635-641 | `unwrap_or_default()` gives 2 on `Ok(2)` and 0 on an `int` failure |
| RstdPlus.UnwrapDocExamples | include/rstd++/result.hpp:532-589 | `expect("Testing expect")` on `Err("error")` panics with "Testing expect: error", and `unwrap()` with the fixed message then ": error" |
| RstdPlus.ExpectErrDocExample | include/rstd++/result.hpp:683-734 | `expect_err("Testing expect_err")` on `Ok(2)` panics with "Testing expect_err: 2", and `unwrap_err()` with the fixed message then ": 2" |
| RstdPlus.CreationScenarios | tests/rstd++/result_test.cpp:14-43 | `Ok(5)` unwraps to 5 and refuses `unwrap_err`; `Err("CreateErr")` refuses `unwrap` with a message showing "CreateErr" and unwraps its error |
| Rstd.MakeOk | include/rstd/result.hpp:392-398 | the free `Ok(x)` is a success, not a failure, and `unwrap()` of it returns `x` |
| Rstd.MakeErr | include/rstd/result.hpp:400-406 | the free `Err(e)` is a failure, not a success, and `unwrap_err()` of it returns `e` |
| Rstd.IsOk | include/rstd/result.hpp:41 | `is_ok()` holds exactly when the value is not a failure |
| Rstd.IsErr | include/rstd/result.hpp:62 | `is_err()` holds exactly when the value is not a success |
| Rstd.TagsExclusive | include/rstd/result.hpp:41-62 | `is_ok()` is the negation of `is_err()` on every value |
| Rstd.IsOkAnd | include/rstd/result.hpp:51-56 | `is_ok_and(p)` is false on a failure without calling `p`, and `p(v)` on a success with one call |
| Rstd.IsErrAnd | include/rstd/result.hpp:72-77 | `is_err_and(p)` is false on a success without calling `p`, and `p(e)` on a failure with one call |
| Rstd.Expect | include/rstd/result.hpp:88-93 | `expect(msg)` returns the value exactly on a success and otherwise panics with `msg` verbatim |
| Rstd.Unwrap | include/rstd/result.hpp:101-106 | `unwrap()` returns the value exactly on a success and otherwise panics with "Called unwrap on Err" |
| Rstd.PanicIgnoresPayload | include/rstd/result.hpp:88-106 | the panic of `unwrap` and `expect` is the same whatever the error payload |
| Rstd.UnwrapOr | include/rstd/result.hpp:113-115 | `unwrap_or(d)` is the value on a success and `d` on a failure |
| Rstd.UnwrapOrElse | include/rstd/result.hpp:123-125 | `unwrap_or_else(f)` is the value on a success without calling `f`, and `f()` on a failure with one call |
| Rstd.UnwrapOrElseAgreesWithUnwrapOr | include/rstd/result.hpp:113-125 | the lazy default gives what the eager default gives |
| Rstd.UnwrapUnchecked | include/rstd/result.hpp:134 | on a success, `unwrap_unchecked()` returns what `unwrap()` returns; a success is required |
| Rstd.ExpectErr | include/rstd/result.hpp:146-151 | `expect_err(msg)` returns the error exactly on a failure and otherwise panics with `msg` verbatim |
| Rstd.UnwrapErr | include/rstd/result.hpp:159-164 | `unwrap_err()` returns the error exactly on a failure and otherwise panics with "Called unwrap_err on Ok" |
| Rstd.UnwrapErrUnchecked | include/rstd/result.hpp:172 | on a failure, `unwrap_err_unchecked()` returns what `unwrap_err()` returns; a failure is required |
| Rstd.ErrOpt | include/rstd/result.hpp:180-183 | `err()` is present exactly on a failure and then holds the error |
| Rstd.OkOpt | include/rstd/result.hpp:189-191 | `ok()` is present exactly on a success and then holds the value |
| Rstd.AdaptorsMatchExtractors | include/rstd/result.hpp:180-191 | a present adaptor holds what the extractor returns; an absent one means the extractor panics |
| Rstd.Transpose | include/rstd/result.hpp:202-215 | `Ok(None)` becomes absent, `Ok(Some(v))` becomes `Some(Ok(v))`, `Err(e)` becomes `Some(Err(e))` |
| Rstd.TransposeRoundTrip | include/rstd/result.hpp:193-215 | `transpose()` is a bijection: it and its inverse undo each other in both directions |
| Rstd.Map | include/rstd/result.hpp:226-233 | `map` keeps the tag, transforms only a success with one call, and passes a failure unchanged without calling `func` |
| Rstd.Inspect | include/rstd/result.hpp:241-245 | `inspect` returns the container unchanged and calls `func` at most once, only on a success |
| Rstd.MapErr | include/rstd/result.hpp:254-261 | `map_err` keeps the tag, transforms only a failure with one call, and passes a success unchanged without calling `func` |
| Rstd.InspectErr | include/rstd/result.hpp:269-273 | `inspect_err` returns the container unchanged and calls `func` at most once, only on a failure |
| Rstd.MapIdentities | include/rstd/result.hpp:226-261 | mapping the identity over either side returns the container unchanged |
| Rstd.MapCompositions | include/rstd/result.hpp:226-261 | mapping twice on either side equals mapping the composition once |
| Rstd.MapAndMapErrCommute | include/rstd/result.hpp:226-261 | `map` and `map_err` may be applied in either order |
| Rstd.ExactlyOnePeekFires | include/rstd/result.hpp:241-273 | on every value exactly one of `inspect` and `inspect_err` calls its callback |
| Rstd.MapOr | include/rstd/result.hpp:282-287 | `map_or(d, func)` is `func(v)` on a success and `d` on a failure, where `func` is not called |
| Rstd.MapOrElse | include/rstd/result.hpp:297-303 | `map_or_else(ok_func, err_func)` makes exactly one call, to the callback the tag selects |
| Rstd.Match | include/rstd/result.hpp:379-386 | `match(ok_func, err_func)` makes exactly one call, to the callback the tag selects |
| Rstd.ConsumersAgree | include/rstd/result.hpp:282-386 | `match` equals `map_or_else`, and `map_or(d, f)` is `map_or_else` with a constant failure callback |
| Rstd.And | include/rstd/result.hpp:318-322 | `Err(e).and_(o)` is `Err(e)` and `Ok(x).and_(o)` is `o` |
| Rstd.Or | include/rstd/result.hpp:335-337 | `Ok(x).or_(o)` is `Ok(x)` and `Err(e).or_(o)` is `o` |
| Rstd.ChainingTruthTables | include/rstd/result.hpp:307-337 | `and_` succeeds only when both operands do, `or_` fails only when both do, with the documented table rows |
| Rstd.AndOrAssociative | include/rstd/result.hpp:318-337 | `and_` and `or_` are associative |
| Rstd.AndThen | include/rstd/result.hpp:349-354 | `Ok(x).and_then(f)` is `f(x)` with one call; `Err(e).and_then(f)` is `Err(e)` without calling `f` |
| Rstd.OrElse | include/rstd/result.hpp:366-371 | `Err(e).or_else(f)` is `f(e)` with one call; `Ok(x).or_else(f)` is `Ok(x)` without calling `f` |
| Rstd.ChainingViaCallbacks | include/rstd/result.hpp:318-371 | `and_`/`or_` are `and_then`/`or_else` with a constant callback, and `map(f)` is `and_then` of `Ok(f(x))` |
| Rstd.AndThenMonadLaws | include/rstd/result.hpp:339-354 | `and_then` has `Ok` as left and right identity and is associative |
| Rstd.OrElseMonadLaws | include/rstd/result.hpp:356-371 | `or_else` has `Err` as left and right identity and is associative |
| Rstd.PipelinePropagatesErr | include/rstd/result.hpp:339-354 | a failure fed to any chain of `and_then` steps comes out unchanged, and no step runs |
| Rstd.PipelineSuccessRunsEveryStep | include/rstd/result.hpp:339-354 | each step of a chain runs at most once, and a chain succeeds only if it started with a success and every step ran |
| Rstd.PipelineStopsAtFirstFailure | include/rstd/result.hpp:339-354 | once a prefix of a chain has failed, appending further steps changes neither the result nor the calls |
| Rstd.PipelineFailingFirstStep | include/rstd/result.hpp:339-354 | when the first step fails on the starting value, the chain returns that failure after exactly one call |
| Rstd.PipelineAppend | include/rstd/result.hpp:339-354 | running two chains one after the other equals running their concatenation, callbacks included |
| Rstd.ShowPayload | include/rstd/result.hpp:420-432 | a streamable payload is written as its rendering, an unstreamable one as `<non-streamable>` |
| Rstd.Show | include/rstd/result.hpp:416-436 | `operator<<` writes `Ok(` or `Err(`, the payload or `<non-streamable>`, then `)`; the first character tells the tag |
| Rstd.ShowIsFaithful | include/rstd/result.hpp:416-436 | two results print alike only if their tags agree and their payloads print alike |
| Core.Equal | include/rstd++/core.hpp:57-60 | `==` on `Void` is always true, and it coincides with value equality |
| Core.NotEqual | include/rstd++/core.hpp:65-68 | `!=` on `Void` is always false, the negation of `==` |
| Core.EqualityIsEquivalence | include/rstd++/core.hpp:54-68 | `==` is reflexive, symmetric and transitive, and `!=` is its complement on every pair |
| Core.Render | include/rstd++/core.hpp:74-77 | `operator<<` writes a `Void` as the two characters `(` and `)` |
| Core.RenderIsEmptyTuple | include/rstd++/core.hpp:71-77 | every `Void` is written as the same two characters `()` |
| Core.ValidateInput | include/rstd++/core.hpp:36-45 | the documented check fails with "Input cannot be empty" exactly on the empty string and otherwise succeeds with `Void` |
| Agreement.QueriesAgree | include/rstd/result.hpp:41-191 | both headers' `is_ok`, `is_err`, `is_ok_and`, `is_err_and`, `ok` and `err` coincide, callback calls included |
| Agreement.TransformationsAgree | include/rstd/result.hpp:226-287 | both headers' `map` coincides, callback calls included; `map_or` coincides when the default and the callback result share one type |
| Agreement.DefaultsAgree | include/rstd++/result.hpp:611-654 | the newer `unwrap_or_default()` is the older `unwrap_or` of the default-constructed value |
| Agreement.ExtractorsAgreeUpToMessage | include/rstd/result.hpp:88-93 | both `expect`s return and panic on the same inputs; the newer message is the older one followed by ": " and the rendered error |
| Agreement.ErrExtractorsAgreeUpToMessage | include/rstd/result.hpp:146-151 | the same for `expect_err`, with the rendered success value |
| Agreement.VoidPayloadRendering | include/rstd++/core.hpp:71-77 | a `Void` payload shows as `()` in `unwrap`/`unwrap_err` diagnostics and in `Ok(())`/`Err(())` |
| Agreement.ValidateInputScenarios | include/rstd++/core.hpp:36-45 | unwrapping the refusal of "" panics with the fixed message and "Input cannot be empty"; any other input unwraps to `Void` |

## Left out

- Stream plumbing (`std::ostringstream`, `std::ostream` state): rendering is a function from payload to string, chosen per type by `Printer`.
- The text of `typeid(PanicType).name()`: it is implementation-defined, so it is an opaque `typeName` string; only the `[object of type <name>]` shape is stated.
- C++ exceptions as control flow: a thrown `std::runtime_error` is a `Panic(message)` outcome, not unwinding.
- Move semantics and the moved-from state: the `const &` and `&&` overloads compute the same value and are one function each; a consumed container is never queried again in a pure model.
- `static_assert` copy- and default-constructibility checks, the concepts `Printable`, `DefaultConstructible`, `BoolReturning`, `VoidReturning`, and `[[nodiscard]]`: compile-time checks with no run-time behaviour.
- The default-constructed value `T{}` of `unwrap_or_default`: a parameter `zero`, since Dafny has no default constructors.
- The `OkTag`/`ErrTag` private constructors and the `value_type`/`error_type`/`Error` wrappers: the two Dafny constructors are distinct by construction, which is what the wrappers achieve.
- `examples/result_example.cpp`: a demonstration program whose `main` does nothing; its `parse_number` relies on `std::stoi` and exceptions.
- Side effects of callbacks themselves: a callback is a pure function here; what an operation does with it is recorded in `Traced.calls`.
- Rstd.UnwrapUnchecked: the precondition `IsOk` stands for the documented contract; the code reads the value with `std::get`, which on a failure throws `std::bad_variant_access`, and that throw is not modelled.
- Rstd.UnwrapErrUnchecked: the precondition `IsErr` stands for the documented contract; on a success the code's `std::get` throws `std::bad_variant_access`, which is not modelled.
- Rstd.Inspect: the source is a non-`const` member that hands the callback a mutable reference to the value, so a callback taking its argument by non-`const` reference changes the payload; `t.out == r` holds only for callbacks that leave their argument alone.
- Rstd.InspectErr: the same as `inspect`, for the error payload.
- RstdPlus.MapOr: one type `U` stands for both the default and the callback result. In the code the result type is the default's type (include/rstd++/result.hpp:463, 485) and the callback's result is converted to it, while the older header returns the callback's result type and converts the default (include/rstd/result.hpp:282-286), so with mixed types the two headers differ (`map_or(0, n / 2.0)` on `Ok(3)` gives `1` and `1.5`). A `const` lvalue default makes the result a reference, and on a success the code then returns a dangling reference to the callback's temporary; a non-`const` lvalue default does not compile. Neither is modelled.
- Agreement.TransformationsAgree: states the `map_or` agreement only for a default of the callback's result type, for the reason given under RstdPlus.MapOr.
