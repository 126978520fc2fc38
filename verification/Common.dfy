/** Vocabulary shared by every module: identifiers, bytes, optional values and
    results that stand for Go's `(value, error)` pairs. */
module Common {

  newtype byte = b: int | 0 <= b < 256

  type bytes = seq<byte>

  /** A UUID. `NIL_ID` is `uuid.Nil`. */
  type Id = nat

  const NIL_ID: Id := 0

  /** The IEEE 754 bits of a `float64` that is stored and passed on, never computed
      with. Finite values of different bits have different decimal texts. */
  newtype Float64 = b: int | 0 <= b < 0x1_0000_0000_0000_0000

  const PLUS_ZERO: Float64 := 0

  const NEGATIVE_ZERO: Float64 := 0x8000_0000_0000_0000

  datatype Option<+T> = None | Some(value: T)

  datatype Result<+T, +E> = Ok(value: T) | Err(error: E)

  /** The bytes of a text of Latin-1 characters. */
  function Ascii(text: string): bytes {
    seq(|text|, i requires 0 <= i < |text| => (text[i] as int % 256) as byte)
  }

  ghost predicate IsPrefix<T>(xs: seq<T>, ys: seq<T>) {
    |xs| <= |ys| && xs == ys[..|xs|]
  }

  lemma PrefixTransitive<T>(xs: seq<T>, ys: seq<T>, zs: seq<T>)
    requires IsPrefix(xs, ys) && IsPrefix(ys, zs)
    ensures IsPrefix(xs, zs)
  {
    assert zs[..|ys|][..|xs|] == zs[..|xs|];
  }

  /** `hasRole`, `supportsPickup` and the role loop of `ListByRole`. */
  method Contains<T(==)>(xs: seq<T>, want: T) returns (found: bool)
    ensures found <==> want in xs
  {
    for i := 0 to |xs|
      invariant want !in xs[..i]
    {
      if xs[i] == want {
        return true;
      }
    }
    assert xs[..|xs|] == xs;
    return false;
  }
}
