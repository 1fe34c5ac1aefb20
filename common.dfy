/** Small helpers shared by the indexing and the search side of the pipeline. */
module Common {

  /** A value that may be absent; `None` also stands for "the call raised". */
  datatype Option<+T> = None | Some(value: T)

  /** The outcome of an operation whose failure reaches the caller. */
  datatype Result<+R, +E> = Success(value: R) | Failure(error: E)

  /** An embedding: the vector of numbers the embedding service returns for one text. */
  type Vector = seq<real>

  function Min(a: int, b: int): int
  {
    if a <= b then a else b
  }

  function Max(a: int, b: int): int
  {
    if a <= b then b else a
  }

  /** Concatenation of a sequence of sequences, in order (Python's repeated `extend`). */
  function Flatten<T>(parts: seq<seq<T>>): seq<T>
  {
    if parts == [] then [] else parts[0] + Flatten(parts[1..])
  }

  /** Python's slice bound `s[:stop]` on a list of length `n`: a negative stop counts from the end. */
  function SliceStop(n: nat, stop: int): (r: nat)
    ensures r <= n
  {
    if stop >= 0 then Min(stop, n) else Max(n + stop, 0)
  }
}
