/** Shared vocabulary of the code generators: the error messages the compiler
    leaves in the interpreter result, the outcome of one generation step, and
    the growable string buffer (Tcl_DString) that every generator appends to. */
module Gen {

  datatype Option<+T> = None | Some(value: T)

  /** The markers the template compiler puts around HTML text in the code it
      generates: start of text and end of text. */
  const STX: char := '\U{0002}'
  const ETX: char := '\U{0003}'

  /** The failures a generator reports.  Each carries the exact message the
      source stores with SetResult, except the two that the model adds:
      ParserFailed stands for an error left by one of Tcl's parsers,
      TokenOutOfRange for a read past the end of the token array, and
      EmptyPath for a read of the first segment of an empty variable name;
      the C code does both reads without any check. */
  datatype Error =
    | NoStartMarker
    | NoEndMarker
    | ArrayVariable
    | NotEnoughOperands
    | UnsupportedOperator
    | ExprCommandSubst
    | ExpandNotSupported
    | QuotedCommandSubst
    | UnsupportedTokenType
    | ParserFailed(message: string)
    | TokenOutOfRange
    | EmptyPath

  function Message(e: Error): string
  {
    match e
    case NoStartMarker => "Text block does not start with start-of-text marker"
    case NoEndMarker => "Text block does not end with end-of-text marker"
    case ArrayVariable => "error parsing expression: array variables not supported"
    case NotEnoughOperands => "error parsing expression: not enough operands"
    case UnsupportedOperator => "error parsing expression: unsupported operator"
    case ExprCommandSubst => "error parsing expression: command substitution not supported"
    case ExpandNotSupported => "error parsing expression: expand word not supported"
    case QuotedCommandSubst => "error parsing quoted string: command substitution not supported"
    case UnsupportedTokenType => "error parsing quoted string: unsupported token type"
    case ParserFailed(m) => m
    case TokenOutOfRange => "token index out of range"
    case EmptyPath => "variable name has no first segment"
  }

  /** The outcome of a generator that returns its text only on success. */
  datatype Result<T> = Ok(value: T) | Err(error: Error)

  /** Index of the first `c` in `s`, or |s|. */
  function IndexOf(s: string, c: char): (k: nat)
    ensures k <= |s|
    ensures forall i :: 0 <= i < k ==> s[i] != c
    ensures k < |s| ==> s[k] == c
    decreases |s|
  {
    if s == [] then 0
    else if s[0] == c then 0
    else 1 + IndexOf(s[1..], c)
  }

  /** IndexOf finds the first occurrence: if `c` is absent from s[..k] and
      k is the end or holds `c`, the search stops at k. */
  lemma {:induction false} IndexOfFirst(s: string, c: char, k: nat)
    requires k <= |s|
    requires forall i :: 0 <= i < k ==> s[i] != c
    requires k == |s| || s[k] == c
    ensures IndexOf(s, c) == k
    decreases k
  {
    if k > 0 {
      IndexOfFirst(s[1..], c, k - 1);
    }
  }

  /** Concatenation regrouped to the left. */
  lemma {:induction false} ConcatAssoc<T>(a: seq<T>, b: seq<T>, c: seq<T>)
    ensures a + (b + c) == a + b + c
  {
  }

  /** A generator method ends as its specification says: on success with
      `text` exactly the specified output and no error, on failure with the
      specified error. */
  predicate Reports(r: Result<string>, err: Option<Error>, text: string)
  {
    match r
    case Ok(v) => err == None && text == v
    case Err(e) => err == Some(e)
  }

  /** The outcome of a generation step that returns TCL_OK (Done) or
      TCL_ERROR (Failed).  Both carry the generator state as it is left,
      because an error return does not undo what was already appended. */
  datatype Run<S> = Done(state: S) | Failed(error: Error, state: S)

  /** A generator method ends as a state-keeping specification says: with
      the specified text in both cases, and the error exactly when it
      failed. */
  predicate RunReports(r: Run<string>, err: Option<Error>, text: string)
  {
    match r
    case Done(s) => err == None && text == s
    case Failed(e, s) => err == Some(e) && text == s
  }

  /** A Tcl_DString: text that only ever grows by Append. */
  class DString {
    var text: string

    constructor ()
      ensures text == []
    {
      text := [];
    }

    method Append(s: string)
      modifies this
      ensures text == old(text) + s
    {
      text := text + s;
    }

    /** Tcl_DStringSetLength(ds, 0) / Tcl_DStringTrunc(ds, 0). */
    method Reset()
      modifies this
      ensures text == []
    {
      text := [];
    }
  }
}
