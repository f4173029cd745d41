/** Small datatypes shared by every component. */
module Common {

  datatype Option<+T> = None | Some(value: T)

  /** An instant in milliseconds. The source compares parsed instants only. */
  type Instant = int

  /** A bounded lower-case code: three to sixty-four characters, a letter first. */
  predicate IsReasonCode(code: string) {
    && 3 <= |code| <= 64
    && 'a' <= code[0] <= 'z'
    && forall i :: 1 <= i < |code| ==> IsCodeChar(code[i])
  }

  predicate IsCodeChar(c: char) {
    'a' <= c <= 'z' || '0' <= c <= '9' || c == '-'
  }
}
