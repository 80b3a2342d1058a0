/** How the two headers relate: on every query, adaptor and transformation
    they share they compute the same thing, callbacks included; they part ways
    only in what a failed extraction says. Also how the unit marker behaves
    as a payload. */
module Agreement {
  import opened Optional
  import opened Results
  import opened Callbacks
  import opened Diagnostics
  import Core
  import RstdPlus
  import Rstd

  /** The queries and adaptors of the two headers coincide. */
  lemma QueriesAgree<T, E>(r: Result<T, E>, p: T -> bool, q: E -> bool)
    ensures RstdPlus.IsOk(r) == Rstd.IsOk(r) && RstdPlus.IsErr(r) == Rstd.IsErr(r)
    ensures RstdPlus.IsOkAnd(r, p) == Rstd.IsOkAnd(r, p)
    ensures RstdPlus.IsErrAnd(r, q) == Rstd.IsErrAnd(r, q)
    ensures RstdPlus.OkOpt(r) == Rstd.OkOpt(r) && RstdPlus.ErrOpt(r) == Rstd.ErrOpt(r)
  {
  }

  /** `map` and `map_or` of the two headers coincide, callbacks included. */
  lemma TransformationsAgree<T, E, U>(r: Result<T, E>, d: U, f: T -> U)
    ensures RstdPlus.Map(r, f) == Rstd.Map(r, f)
    ensures RstdPlus.MapOr(r, d, f) == Rstd.MapOr(r, d, f)
  {
  }

  /** The newer `unwrap_or_default()` is the older `unwrap_or` applied to the
      default-constructed value. */
  lemma DefaultsAgree<T, E>(r: Result<T, E>, zero: T)
    ensures RstdPlus.UnwrapOrDefault(r, zero) == Rstd.UnwrapOr(r, zero)
  {
  }

  /** Both headers' extractors return the same value and panic on the same
      inputs; where they panic, the newer header's message extends the older
      one's with a colon, a space and the rendered payload. */
  lemma ExtractorsAgreeUpToMessage<T, E>(r: Result<T, E>, msg: string, render: E -> string)
    ensures RstdPlus.Expect(r, msg, Streamable(render)).Value? == Rstd.Expect(r, msg).Value?
    ensures r.Ok? ==> RstdPlus.Expect(r, msg, Streamable(render)) == Rstd.Expect(r, msg)
    ensures r.Err? ==> RstdPlus.Expect(r, msg, Streamable(render)).message
                       == Rstd.Expect(r, msg).message + ": " + render(r.error)
  {
  }

  /** The same for the failure-side extractors. */
  lemma ErrExtractorsAgreeUpToMessage<T, E>(r: Result<T, E>, msg: string, render: T -> string)
    ensures RstdPlus.ExpectErr(r, msg, Streamable(render)).Value? == Rstd.ExpectErr(r, msg).Value?
    ensures r.Err? ==> RstdPlus.ExpectErr(r, msg, Streamable(render)) == Rstd.ExpectErr(r, msg)
    ensures r.Ok? ==> RstdPlus.ExpectErr(r, msg, Streamable(render)).message
                      == Rstd.ExpectErr(r, msg).message + ": " + render(r.value)
  {
  }

  /** With a payload that prints as the empty tuple, every diagnostic and
      every printed result shows `()` where the payload goes. */
  lemma VoidPayloadRendering(v: Core.Void, w: Core.Void)
    ensures RstdPlus.Unwrap(RstdPlus.MakeErr<int, Core.Void>(v), Core.VoidPrinter)
         == Panic("called `Result::unwrap()` on an `Err` value: ()")
    ensures RstdPlus.UnwrapErr(RstdPlus.MakeOk<Core.Void, int>(v), Core.VoidPrinter)
         == Panic("called `Result::unwrap_err()` on an `Ok` value: ()")
    ensures Rstd.Show(Rstd.MakeOk<Core.Void, Core.Void>(v), Core.VoidPrinter, Core.VoidPrinter) == "Ok(())"
    ensures Rstd.Show(Rstd.MakeErr<Core.Void, Core.Void>(v), Core.VoidPrinter, Core.VoidPrinter) == "Err(())"
    ensures Rstd.Show(Rstd.MakeOk<Core.Void, Core.Void>(v), Core.VoidPrinter, Core.VoidPrinter)
         == Rstd.Show(Rstd.MakeOk<Core.Void, Core.Void>(w), Core.VoidPrinter, Core.VoidPrinter)
  {
  }

  /** The documented validation check: an empty input is refused with its
      message, any other input is accepted with the unit value, and
      unwrapping the refusal shows that message. */
  lemma ValidateInputScenarios(input: string)
    requires |input| > 0
    ensures Core.ValidateInput("") == Err("Input cannot be empty")
    ensures RstdPlus.Unwrap(Core.ValidateInput(""), StringPrinter)
         == Panic("called `Result::unwrap()` on an `Err` value: Input cannot be empty")
    ensures RstdPlus.Unwrap(Core.ValidateInput(input), StringPrinter) == Value(Core.Void)
  {
    var refused := Core.ValidateInput("");
    assert refused == Err(Core.EmptyInputMessage);
    assert RstdPlus.UnwrapFailed(RstdPlus.UnwrapOnErr, Core.EmptyInputMessage, StringPrinter)
        == RstdPlus.UnwrapOnErr + ": " + Core.EmptyInputMessage;
  }
}
