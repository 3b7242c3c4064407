/** Go's int32: what addition does at the ends of its range. */
module Int32 {
  const TWO_31: int := 0x8000_0000
  const TWO_32: int := 0x1_0000_0000

  function ToInt32(n: int): (r: int)
    ensures -TWO_31 <= r < TWO_31
    ensures -TWO_31 <= n < TWO_31 ==> r == n
    ensures (n - r) % TWO_32 == 0
  {
    (n + TWO_31) % TWO_32 - TWO_31
  }

  /** Wrapping at every addition is wrapping once at the end. */
  lemma ToInt32Add(a: int, b: int)
    ensures ToInt32(ToInt32(a) + b) == ToInt32(a + b)
  {
    var q := (a + TWO_31) / TWO_32;
    RemainderShift(a + b + TWO_31, q);
    assert ToInt32(a) + b + TWO_31 == a + b + TWO_31 - q * TWO_32;
  }

  lemma RemainderShift(x: int, q: int)
    ensures (x - q * TWO_32) % TWO_32 == x % TWO_32
  {
    var p, r := x / TWO_32 - q, x % TWO_32;
    assert x - q * TWO_32 == p * TWO_32 + r && 0 <= r < TWO_32;
  }
}
