/** Values shared by every module of the model: optional values, the Python
    exceptions the modelled code can raise, and results that carry one. */
module Base {

  datatype Option<T> = None | Some(value: T)

  /** The Python exception kinds that the modelled scripts can raise. Every one
      of them ends the script that raised it. */
  datatype Fault =
    | IndexError      // a list or string index out of range
    | ValueError      // int() or float() of a malformed string
    | TypeError       // an operation on None
    | OverflowError   // int.to_bytes of a value that does not fit
    | StopIteration   // next() on an exhausted generator
    | ZeroDivisionError // `%` with a zero right operand
    | AttributeError  // an attribute read before any assignment to it
    | DuplicateSectionError   // configparser: a section header given twice
    | DuplicateOptionError    // configparser: an option given twice in a section
    | InterpolationSyntaxError        // configparser: a `%` not starting `%%` or `%(name)s`
    | InterpolationMissingOptionError // configparser: `%(name)s` naming no option
    | InterpolationDepthError         // configparser: references nested too deep

  /** Either a value or the exception that was raised instead. */
  datatype Result<T> = Ok(value: T) | Raised(fault: Fault)

  /** A list already produced, followed by what the rest of a loop gives:
      the whole list, or the exception the rest raises. */
  function After<T>(done: seq<T>, r: Result<seq<T>>): Result<seq<T>> {
    match r
    case Raised(f) => Raised(f)
    case Ok(rest) => Ok(done + rest)
  }

  /** How a step that talks to an instrument or an operator ends: with a value,
      with an exception, with the process exiting (`exit()`), or still waiting
      when the scripted answers given to the model ran out (the program itself
      would go on waiting). */
  datatype Outcome<T> = Done(value: T) | Failed(fault: Fault) | Exited | Waiting

  /** A prefix grown by the next element is the next prefix. */
  lemma TakeOne<T>(s: seq<T>, r: nat)
    requires r < |s|
    ensures s[..r] + [s[r]] == s[..r + 1]
  {
  }

  /** A sequence that ends with `t` still ends with it once something is put
      in front. */
  lemma EndsWith<T>(a: seq<T>, b: seq<T>, t: seq<T>)
    requires |b| >= |t| && b[|b| - |t|..] == t
    ensures |a + b| >= |t| && (a + b)[|a + b| - |t|..] == t
  {
    assert (a + b)[|a + b| - |t|..] == b[|b| - |t|..];
  }

  /** Concatenation is associative; stated once so that proofs about call
      logs need not rediscover it element by element. */
  lemma Appended<T>(a: seq<T>, b: seq<T>, c: seq<T>)
    ensures a + b + c == a + (b + c)
  {
  }
}
