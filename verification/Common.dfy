/** Types and facts used throughout. */
module Common {

  datatype Option<T> = None | Some(value: T)

  type Byte = x: nat | x < 256

  /** A part has no more elements than the whole. */
  lemma PartSize<T>(a: set<T>, b: set<T>)
    requires a <= b
    ensures |a| <= |b|
  {
    assert a + (b - a) == b;
  }
}
