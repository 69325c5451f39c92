/** Option and result types standing for the C++ null results and exceptions of the viewer. */
module Wrappers {

  /** A nullable value: `nullptr` or `std::optional` without a value is `None`. */
  datatype Option<+T> = None | Some(value: T)

  /** A C++ exception, by its standard class and its `what()` text (the texts of the MSVC library). */
  datatype Error =
    | RuntimeError(what: string)
    | InvalidArgument(what: string)
    | OutOfRange(what: string)
    | BadVariantAccess

  /** The value a call returns, or the exception it throws. */
  datatype Result<+T> = Ok(value: T) | Err(error: Error)

  /** A `void` call that either returns or throws. */
  datatype Outcome = Pass | Fail(error: Error)

  /**
    The result of a `while (std::getline(file, line))` loop whose body is `step`: each line
    in turn, from `init`; the first exception aborts the rest of the file.
  */
  function FoldLines<D>(step: (D, string) -> Result<D>, init: D, lines: seq<string>): Result<D> {
    if lines == [] then Ok(init)
    else match FoldLines(step, init, lines[..|lines| - 1])
      case Err(e) => Err(e)
      case Ok(d) => step(d, lines[|lines| - 1])
  }

  /** One more line: the loop's state after `i + 1` lines is `step` applied to its state after `i`. */
  lemma FoldLinesNext<D>(step: (D, string) -> Result<D>, init: D, lines: seq<string>, i: nat, d: D)
    requires i < |lines|
    requires FoldLines(step, init, lines[..i]) == Ok(d)
    ensures FoldLines(step, init, lines[..i + 1]) == step(d, lines[i])
  {
    assert lines[..i + 1][..i] == lines[..i];
  }

  /** Once a prefix of the lines has thrown, the whole file throws the same exception. */
  lemma {:induction false} FoldLinesErrPersists<D>(step: (D, string) -> Result<D>, init: D, lines: seq<string>, i: nat)
    requires i <= |lines|
    requires FoldLines(step, init, lines[..i]).Err?
    ensures FoldLines(step, init, lines) == FoldLines(step, init, lines[..i])
    decreases |lines| - i
  {
    if i < |lines| {
      assert lines[..i + 1][..i] == lines[..i];
      FoldLinesErrPersists(step, init, lines, i + 1);
    } else {
      assert lines[..i] == lines;
    }
  }
}
