/**
 * Go's `error` values as they travel through the ingestion pipeline.
 *
 * Go distinguishes an error's dynamic type (what a type assertion sees) from
 * the chain of causes that `fmt.Errorf("...: %w", err)` builds on top of it
 * (what `errors.As` walks). Both views are modelled, so that the consumer's
 * classification can be stated exactly as written.
 */
module Errors {

  datatype Error =
    | ValidationErrors(violations: seq<string>)  // validator.ValidationErrors, one entry per violated field
    | NoRows                                     // sql.ErrNoRows
    | Plain(text: string)                        // any other leaf: driver, network, broker, fmt.Errorf without %w
    | Wrapped(context: string, cause: Error)     // fmt.Errorf("<context>: %w", cause)

  /** `_, ok := err.(validator.ValidationErrors)`: a type assertion sees only the outermost value. */
  predicate IsValidationErrors(e: Error): (ok: bool)
    ensures e.Wrapped? ==> !ok
    ensures !e.Wrapped? ==> (ok <==> AsValidationErrors(e))
  {
    e.ValidationErrors?
  }

  /** `errors.As(err, &target)` with a `validator.ValidationErrors` target: it follows `%w` causes. */
  predicate AsValidationErrors(e: Error)
  {
    match e
    case ValidationErrors(_) => true
    case Wrapped(_, cause) => AsValidationErrors(cause)
    case _ => false
  }

  /** The errors that repeated `errors.Unwrap` visits, outermost first. */
  function Chain(e: Error): (c: seq<Error>)
    ensures |c| >= 1 && c[0] == e
    ensures forall i :: 0 <= i < |c| - 1 ==> c[i].Wrapped? && c[i + 1] == c[i].cause
    ensures !c[|c| - 1].Wrapped?
  {
    match e
    case Wrapped(_, cause) => [e] + Chain(cause)
    case _ => [e]
  }

  /** errors.As is exactly "some error on the unwrap chain passes the type assertion". */
  lemma {:induction false} AsValidationErrorsSearchesChain(e: Error)
    ensures AsValidationErrors(e) <==> exists i :: 0 <= i < |Chain(e)| && IsValidationErrors(Chain(e)[i])
  {
    match e
    case Wrapped(ctx, cause) =>
      AsValidationErrorsSearchesChain(cause);
      assert Chain(e) == [e] + Chain(cause);
      if AsValidationErrors(e) {
        var j :| 0 <= j < |Chain(cause)| && IsValidationErrors(Chain(cause)[j]);
        assert Chain(e)[j + 1] == Chain(cause)[j];
      }
      if exists i :: 0 <= i < |Chain(e)| && IsValidationErrors(Chain(e)[i]) {
        var i :| 0 <= i < |Chain(e)| && IsValidationErrors(Chain(e)[i]);
        assert i != 0;
        assert Chain(cause)[i - 1] == Chain(e)[i];
      }
    case _ =>
      assert Chain(e) == [e];
  }

  /** Wrapping hides the dynamic type from a type assertion but keeps it for errors.As. */
  lemma WrappingHidesTypeButNotCause(context: string, e: Error)
    ensures !IsValidationErrors(Wrapped(context, e))
    ensures AsValidationErrors(Wrapped(context, e)) == AsValidationErrors(e)
  {
  }
}
