/** The unit marker of include/rstd++/core.hpp: a concrete, payload-free type
    that stands in for `void` as either side of a `Result`. */
module Core {
  import opened Results
  import opened Diagnostics

  /** `Void` has no fields, so it has exactly one value. */
  datatype Void = Void

  /** `operator==`: every two `Void`s compare equal. */
  function Equal(a: Void, b: Void): (r: bool)
    ensures r
    ensures r <==> a == b
  {
    true
  }

  /** `operator!=`: no two `Void`s compare unequal. */
  function NotEqual(a: Void, b: Void): (r: bool)
    ensures !r
    ensures r <==> !Equal(a, b)
  {
    false
  }

  /** The comparison operators define an equivalence relation, and `!=` is
      its complement on every pair. */
  lemma EqualityIsEquivalence()
    ensures forall a: Void :: Equal(a, a)
    ensures forall a: Void, b: Void :: Equal(a, b) == Equal(b, a)
    ensures forall a: Void, b: Void, c: Void :: Equal(a, b) && Equal(b, c) ==> Equal(a, c)
    ensures forall a: Void, b: Void :: NotEqual(a, b) == !Equal(a, b)
  {
  }

  /** `operator<<` writes a `Void` as the empty-tuple token. */
  function Render(v: Void): (s: string)
    ensures |s| == 2 && s[0] == '(' && s[1] == ')'
  {
    "()"
  }

  const VoidPrinter: Printer<Void> := Streamable(Render)

  /** The rendering does not depend on which `Void` is written, and it is
      exactly the two characters of an empty tuple. */
  lemma RenderIsEmptyTuple(a: Void, b: Void)
    ensures Render(a) == Render(b)
    ensures |Render(a)| == 2 && Render(a)[0] == '(' && Render(a)[1] == ')'
  {
  }

  const EmptyInputMessage: string := "Input cannot be empty"

  /** The documented use of `Void`: a check that can fail but has nothing to
      report on success. */
  function ValidateInput(input: string): (r: Result<Void, string>)
    ensures r.Err? <==> |input| == 0
    ensures r.Err? ==> r.error == EmptyInputMessage
    ensures r.Ok? ==> r.value == Void
  {
    if |input| == 0 then Err(EmptyInputMessage) else Ok(Void)
  }
}
