/**
 * Option and Result values, and the Python exception kinds that the
 * modelled code raises or returns, so that every error path of the source
 * is an explicit value instead of a precondition.
 */
module Wrappers {

  datatype Option<T> = None | Some(value: T)
  {
    predicate IsSome() { Some? }
  }

  /** The exception classes that the Cello code raises. */
  datatype PyError =
    | IndexError
    | KeyError
    | ValueError
    | TypeError
    | NameError
    | RecursionError
    | ZeroDivisionError
    | UnboundLocalError
    | AttributeError
    | FileNotFoundError  // `open` on a path that does not exist
    | GenericException   // a bare `raise Exception`

  datatype Result<T> = Ok(value: T) | Err(error: PyError)
  {
    predicate IsOk() { Ok? }
  }

  /** The values of a sequence of results, or the first error among them. */
  function FirstErr<T>(rs: seq<Result<T>>): Result<seq<T>>
  {
    if |rs| == 0 then Ok([])
    else
      match FirstErr(rs[..|rs| - 1])
      case Err(e) => Err(e)
      case Ok(prev) =>
        match rs[|rs| - 1]
        case Err(e) => Err(e)
        case Ok(x) => Ok(prev + [x])
  }

  lemma {:induction false} FirstErrSpec<T>(rs: seq<Result<T>>)
    ensures FirstErr(rs).Ok? <==> forall i :: 0 <= i < |rs| ==> rs[i].Ok?
    ensures FirstErr(rs).Ok? ==> |FirstErr(rs).value| == |rs|
    ensures FirstErr(rs).Ok? ==> forall i :: 0 <= i < |rs| ==> FirstErr(rs).value[i] == rs[i].value
  {
    if |rs| > 0 {
      var init := rs[..|rs| - 1];
      FirstErrSpec(init);
      assert forall i :: 0 <= i < |init| ==> init[i] == rs[i];
    }
  }
}
