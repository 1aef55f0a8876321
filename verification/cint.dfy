/** The C++ integer types and operators the code relies on, written out
    explicitly because Dafny's integers are unbounded and its `/` and `%`
    are Euclidean. */
module CInt {
  const U32Limit: int := 0x1_0000_0000
  const U32Max: int := 0xFFFF_FFFF

  /** `unsigned int` / `GLuint`. */
  type u32 = x: int | 0 <= x < U32Limit

  /** `unsigned char` / `GLubyte`. */
  type byte = x: int | 0 <= x < 256

  /** Conversion of any integer to `unsigned int` (reduction modulo 2^32). */
  function ToU32(x: int): (r: u32)
    ensures 0 <= x < U32Limit ==> r == x
    ensures (r - x) % U32Limit == 0
  {
    x % U32Limit
  }

  /** Conversion of any integer to `unsigned char`. */
  function ToByte(x: int): (r: byte)
    ensures 0 <= x < 256 ==> r == x
    ensures (r - x) % 256 == 0
  {
    x % 256
  }

  /** Conversion of an `unsigned char` to a (signed) `char`. */
  function ToSignedChar(b: byte): (c: int)
    ensures -128 <= c < 128
    ensures (c - b) % 256 == 0
  {
    if b < 128 then b else b - 256
  }

  /** C++ `a / b` on `int` with a positive divisor: the quotient is
      truncated toward zero, so the remainder keeps the sign of `a`. */
  function TruncDiv(a: int, b: int): (q: int)
    requires b > 0
    ensures 0 <= a ==> q * b <= a < q * b + b
    ensures a < 0 ==> q * b - b < a <= q * b
  {
    if 0 <= a then
      assert a == (a / b) * b + a % b;
      a / b
    else
      assert -a == ((-a) / b) * b + (-a) % b;
      -((-a) / b)
  }

  /** C++ `a % b` on `int` with a positive divisor. */
  function TruncMod(a: int, b: int): (r: int)
    requires b > 0
    ensures a == TruncDiv(a, b) * b + r
    ensures 0 <= a ==> 0 <= r < b
    ensures a < 0 ==> -b < r <= 0
  {
    a - TruncDiv(a, b) * b
  }

  /** Division of a natural number by a positive one rounds down. */
  lemma DivBounds(x: nat, k: nat)
    requires k > 0
    ensures k * (x / k) <= x < k * (x / k) + k
  {
    assert x == k * (x / k) + x % k;
  }

  /** Multiplication by a natural number keeps order. */
  lemma MulMono(a: nat, b: nat, c: nat)
    requires a <= b
    ensures a * c <= b * c
  {
    var d := b - a;
    assert b * c == a * c + d * c;
  }

  /** A number written as q k + r with 0 <= r < k has quotient q and
      remainder r. */
  lemma DivModUnique(x: nat, k: nat, q: nat, r: nat)
    requires k > 0 && r < k && x == q * k + r
    ensures x / k == q && x % k == r
  {
    var q' := x / k;
    assert x == q' * k + x % k;
    if q' < q {
      MulMono(q' + 1, q, k);
      MulSucc(q', k);
      assert false;
    } else if q < q' {
      MulMono(q + 1, q', k);
      MulSucc(q, k);
      assert false;
    }
  }

  /** A product of naturals is a natural. */
  lemma MulNonneg(a: nat, b: nat)
    ensures 0 <= a * b
  {
  }

  /** One more row of b. */
  lemma MulSucc(a: nat, b: nat)
    ensures (a + 1) * b == a * b + b
  {
  }

  /** k groups of a, b times over, are k groups of b a. */
  lemma ScaleComm(k: nat, a: nat, b: nat)
    ensures (k * a) * b == k * (b * a)
  {
  }

  /** Counting up by one modulo n. */
  lemma ModSucc(m: nat, n: nat)
    requires n > 0
    ensures (m + 1) % n == if m % n == n - 1 then 0 else m % n + 1
  {
    var q, r := m / n, m % n;
    DivModUnique(m, n, q, r);
    if r == n - 1 {
      DivModUnique(m + 1, n, q + 1, 0);
    } else {
      DivModUnique(m + 1, n, q, r + 1);
    }
  }
}
