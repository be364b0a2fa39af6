/** filereader/errors.go: the package's three sentinel errors and the `%w`
    wrapper every reader uses. An error from the standard library or pdfcpu
    is `Library` with its message. */
module FileErrors {

  import opened Wrappers

  datatype Error =
    | UnsupportedFileType
    | ReadingFile
    | ParsingFile
    | Library(text: string)
    | Wrapped(msg: string, cause: Error)

  /** `err.Error()`. */
  function Text(e: Error): string
  {
    match e
    case UnsupportedFileType => "unsupported file type"
    case ReadingFile => "error reading file"
    case ParsingFile => "error parsing file"
    case Library(t) => t
    case Wrapped(m, c) => m + ": " + Text(c)
  }

  /** `WrapError(err, msg)`: the message comes first, then ": ", then the
      original text, and the original stays reachable through `Unwrap`. */
  function WrapError(err: Error, msg: string): (r: Error)
    ensures Text(r) == msg + ": " + Text(err)
    ensures Unwrap(r) == Some(err)
  {
    Wrapped(msg, err)
  }

  /** `errors.Unwrap`: only a `%w` wrapper has a cause. */
  function Unwrap(e: Error): (r: Option<Error>)
    ensures r.Some? <==> e.Wrapped?
  {
    if e.Wrapped? then Some(e.cause) else None
  }

  /** `errors.Is`: the error itself or anything down its unwrap chain. */
  predicate Is(e: Error, target: Error)
  {
    e == target || (e.Wrapped? && Is(e.cause, target))
  }

  /** The three sentinels are pairwise distinct, as values and as texts. */
  lemma SentinelsDistinct()
    ensures Text(UnsupportedFileType) != Text(ReadingFile)
    ensures Text(UnsupportedFileType) != Text(ParsingFile)
    ensures Text(ReadingFile) != Text(ParsingFile)
    ensures !Is(UnsupportedFileType, ReadingFile) && !Is(UnsupportedFileType, ParsingFile)
    ensures !Is(ReadingFile, ParsingFile)
  {
    assert Text(UnsupportedFileType)[0] != Text(ReadingFile)[0];
    assert Text(UnsupportedFileType)[0] != Text(ParsingFile)[0];
    assert Text(ReadingFile)[6] != Text(ParsingFile)[6];
  }

  /** Wrapping keeps every `errors.Is` answer of the original, and adds only
      the wrapper itself. */
  lemma WrapPreservesIs(err: Error, msg: string, target: Error)
    ensures Is(WrapError(err, msg), target) <==> Is(err, target) || target == Wrapped(msg, err)
  {
  }

  /** An error matches a target only when the target's text ends the error's
      text: each wrapper puts its message in front and nowhere else. */
  lemma {:induction false} IsImpliesTextSuffix(e: Error, target: Error)
    requires Is(e, target)
    ensures |Text(target)| <= |Text(e)|
    ensures Text(e)[|Text(e)| - |Text(target)|..] == Text(target)
  {
    if e != target {
      IsImpliesTextSuffix(e.cause, target);
      var tail := Text(e.cause);
      assert Text(e) == (e.msg + ": ") + tail;
      assert Text(e)[|Text(e)| - |tail|..] == tail;
    }
  }
}
