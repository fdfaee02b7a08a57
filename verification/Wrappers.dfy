/** Results of operations that can fail, as the Go code returns them. */
module Wrappers {

  datatype Option<+T> = None | Some(value: T)

  datatype Error =
    | NotEnoughMemory   // "not enough user memory", "not enough memory"
    | BadProgram        // "more arguments than possible", "opcode not recognized"
    | NoProcess         // "couldn't find process with pid" and its variants
    | NoPage            // "process does not have this page assigned"
    | BadLength         // "write body does not match page size"
    | BadAddress        // wrong number of levels, or an index out of bounds
    | Eof               // io.EOF: the pid is not in the swap file
    | BadNumber         // strconv.Atoi failed on a swap header
    | Panic             // the Go code panics
    | Unreachable       // "something wrong ocurred on memory allocation"

  datatype Result<+T> = Ok(value: T) | Err(error: Error)

  /** The slice deletion append(s[:i], s[i+1:]...). */
  function Without<T>(s: seq<T>, i: nat): seq<T>
    requires i < |s|
  {
    s[..i] + s[i + 1..]
  }

  lemma ConcatAssociative<T>(a: seq<T>, b: seq<T>, c: seq<T>)
    ensures a + b + c == a + (b + c)
  {
  }
}
