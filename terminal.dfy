/** The standard output stream, as the sequence of strings written to it, and the fixed control sequences. */
module Terminal {

  /** Carriage return, then "erase in line" (ECMA-48 section 8.3.41): redraw the current line. */
  const CLEAR_LINE: string := "\r\U{1B}[K"
  /** Hide and show the text cursor (DEC private mode 25). */
  const HIDE_CURSOR: string := "\U{1B}[?25l"
  const SHOW_CURSOR: string := "\U{1B}[?25h"

  /** What `console.log(s)` writes: the string and a line terminator. */
  function Line(s: string): (r: string)
    ensures |r| == |s| + 1 && r[..|s|] == s && r[|s|] == '\n'
  {
    s + "\n"
  }

  /** Three writes in a row append the three strings in order. */
  lemma AppendThree<T>(prefix: seq<T>, a: T, b: T, c: T)
    ensures prefix + [a] + [b] + [c] == prefix + [a, b, c]
  {
  }

  /** Three writes to a fresh output are exactly those three strings. */
  lemma ThreeFromNothing<T>(w: seq<T>, a: T, b: T, c: T)
    requires w == [] + [a] + [b] + [c]
    ensures w == [a, b, c]
  {
  }

  /** `process.stdout`: every write appends one string. */
  class Stdout {
    var writes: seq<string>

    constructor()
      ensures writes == []
    {
      writes := [];
    }

    /** `process.stdout.write(s)`. */
    method Write(s: string)
      modifies this
      ensures writes == old(writes) + [s]
    {
      writes := writes + [s];
    }
  }
}
