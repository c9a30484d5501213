/** What every component uses: instants, results that may be missing, and one sequence law. */
module Basics {
  type Time = int
  type byte = b: int | 0 <= b < 256
  type Bytes = seq<byte>

  datatype Option<T> = None | Some(value: T)

  lemma Regroup<T>(a: seq<T>, b: seq<T>, c: seq<T>)
    ensures (a + b) + c == a + (b + c)
  {
  }
}
