/** Values shared by every module: options, time, and the machine integers of the Go program. */
module Common {

  datatype Option<+T> = None | Some(value: T)

  datatype Result<+T, +E> = Ok(value: T) | Err(error: E)

  type Byte = b: int | 0 <= b < 256

  type Bytes = seq<Byte>

  // Instants and durations are nanoseconds, as Go's time.Duration counts them.
  const SECOND := 1_000_000_000
  const MINUTE := 60 * SECOND
  const DAY := 24 * 60 * MINUTE

  const TWO_TO_THE_63 := 0x8000_0000_0000_0000
  const TWO_TO_THE_64 := 0x1_0000_0000_0000_0000

  type Int64 = x: int | -TWO_TO_THE_63 <= x < TWO_TO_THE_63

  /** The int64 that Go's wrapping arithmetic leaves when the exact result is `x`. */
  function Wrap64(x: int): (r: Int64)
    ensures (r - x) % TWO_TO_THE_64 == 0
    ensures -TWO_TO_THE_63 <= x < TWO_TO_THE_63 ==> r == x
  {
    var m := x % TWO_TO_THE_64;
    if m < TWO_TO_THE_63 then m else m - TWO_TO_THE_64
  }

  /** The int32 conversion `int32(x)`. */
  function Wrap32(x: int): (r: int)
    ensures -0x8000_0000 <= r < 0x8000_0000 && (x - r) % 0x1_0000_0000 == 0
    ensures -0x8000_0000 <= x < 0x8000_0000 ==> r == x
  {
    var m := x % 0x1_0000_0000;
    if m < 0x8000_0000 then m else m - 0x1_0000_0000
  }

  /** Go's integer division, which truncates toward zero. */
  function TruncDiv(a: int, b: int): int
    requires b > 0
  {
    if a >= 0 then a / b else -(-a / b)
  }

  function Min(a: int, b: int): int {
    if a <= b then a else b
  }

  function Pow2(n: nat): (p: nat)
    ensures p >= 1
  {
    if n == 0 then 1 else 2 * Pow2(n - 1)
  }

  lemma SubsetSize<T>(a: set<T>, b: set<T>)
    requires a <= b
    ensures |a| <= |b|
  {
    assert b == a + (b - a);
  }

  // A property that is false at the start of a history and true at its end became true at some step for good.
  lemma {:induction false} BecameTrue(p: seq<bool>)
    returns (k: nat)
    requires |p| > 0 && !p[0] && p[|p| - 1]
    ensures k + 1 < |p| && !p[k] && p[k + 1]
    ensures forall i :: k < i < |p| ==> p[i]
  {
    k := |p| - 2;
    if p[k] {
      k := BecameTrue(p[..|p| - 1]);
    }
  }
}
