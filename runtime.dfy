/** What the example programs rely on from Go's runtime: the console they print
    to, function values that may be nil, and the panic a nil call raises. */
module Runtime {

  /** The standard output of one run, as the ordered list of printed lines.
      Each entry is one line without its terminating newline. */
  class Console {
    var lines: seq<string>

    constructor ()
      ensures lines == []
    {
      lines := [];
    }

    /** `fmt.Println(line)`, or a `fmt.Printf` whose format ends in a newline, once formatted. */
    method Println(line: string)
      modifies this
      ensures lines == old(lines) + [line]
    {
      lines := lines + [line];
    }
  }

  /** A Go value that may be nil (a `func` field, an interface). */
  datatype Option<T> = None | Some(value: T)

  /** How a call ends: it returns, or it panics because a nil `func` value or a
      nil interface was called. A panic stops the program, so nothing is printed after it. */
  datatype Outcome = Returned | NilDereference
}
