/** Modular arithmetic behind wrapping ring indices and interleaved sample offsets. */
module ModArith {

  /** Number of values of a 64-bit `usize`. */
  const WORD: nat := 0x1_0000_0000_0000_0000

  /** Largest `u64`, where saturating frame additions stop. */
  const U64_MAX: nat := WORD - 1

  type U64 = n: nat | n <= U64_MAX

  function Min(a: int, b: int): int {
    if a <= b then a else b
  }

  function Max(a: int, b: int): int {
    if a <= b then b else a
  }

  /** `a.saturating_add(b)` on `u64`. */
  function SaturatingAdd(a: nat, b: nat): U64 {
    if a + b <= U64_MAX then a + b else U64_MAX
  }

  /** `a.saturating_sub(b)`. */
  function SaturatingSub(a: nat, b: nat): nat {
    if b <= a then a - b else 0
  }

  /** `a.wrapping_add(b)` on `usize`. */
  function WrappingAdd(a: nat, b: nat): nat {
    (a + b) % WORD
  }

  /** `a.wrapping_sub(b)` on `usize`. */
  function WrappingSub(a: nat, b: nat): nat
    requires a < WORD && b < WORD
  {
    (a - b + WORD) % WORD
  }

  function Pow2(k: nat): nat {
    if k == 0 then 1 else 2 * Pow2(k - 1)
  }

  /** Ring capacities are powers of two that a `usize` can hold. */
  ghost predicate IsCapacity(n: nat) {
    exists k: nat :: k < 64 && n == Pow2(k)
  }

  lemma {:induction false} Pow2Splits(j: nat, k: nat)
    ensures Pow2(j + k) == Pow2(j) * Pow2(k)
    ensures Pow2(k) > 0
  {
    if k == 0 {
    } else {
      Pow2Splits(j, k - 1);
      assert Pow2(j + k) == 2 * Pow2(j + (k - 1));
    }
  }

  lemma WordIsPow2()
    ensures Pow2(64) == WORD
  {
    assert Pow2(8) == 0x100;
    Pow2Splits(8, 8);
    Pow2Splits(16, 16);
    Pow2Splits(32, 32);
  }

  /** The wrap-around modulus is a multiple of every ring capacity. */
  lemma CapacityDividesWord(capacity: nat)
    requires IsCapacity(capacity)
    ensures 0 < capacity < WORD
    ensures exists q: nat :: q * capacity == WORD
  {
    var k: nat :| k < 64 && capacity == Pow2(k);
    Pow2Splits(64 - k, k);
    WordIsPow2();
    Pow2Splits(63 - k, 1);
    Pow2Splits(0, k);
    var q := Pow2(64 - k);
    assert q * capacity == WORD;
    assert Pow2(64 - k) == 2 * Pow2(63 - k);
    Pow2Splits(0, 63 - k);
    assert q >= 2;
    DoubleBound(q, capacity);
  }

  lemma DoubleBound(q: nat, c: nat)
    requires q >= 2 && c > 0
    ensures q * c >= 2 * c
  {
    assert q * c == 2 * c + (q - 2) * c;
  }

  lemma MulGrows(d: int, m: nat)
    requires d >= 1
    ensures d * m >= m
    ensures (-d) * m <= 0 - m
  {
    assert (d - 1) * m >= 0;
  }

  lemma ZeroMultiple(d: int, m: nat)
    requires 0 - m < d * m < m
    ensures d == 0
  {
    if d >= 1 {
      MulGrows(d, m);
    } else if d <= -1 {
      MulGrows(-d, m);
    }
  }

  /** The remainder is the only one in range. */
  lemma ModUnique(q: int, r: nat, m: nat)
    requires r < m
    ensures (q * m + r) % m == r
  {
    var n := q * m + r;
    assert n == (n / m) * m + n % m;
    assert (q - n / m) * m == n % m - r;
    ZeroMultiple(q - n / m, m);
  }

  /** Reducing by a multiple of the capacity first does not change the slot. */
  lemma SlotOfWrapped(n: nat, capacity: nat)
    requires IsCapacity(capacity)
    ensures 0 < capacity < WORD
    ensures (n % WORD) % capacity == n % capacity
  {
    CapacityDividesWord(capacity);
    var q: nat :| q * capacity == WORD;
    var w := n % WORD;
    assert n == (n / WORD) * WORD + w;
    var k := (n / WORD) * q;
    assert (n / WORD) * (q * capacity) == k * capacity;
    var r := w % capacity;
    assert w == (w / capacity) * capacity + r;
    assert n == (k + w / capacity) * capacity + r;
    ModUnique(k + w / capacity, r, capacity);
  }

  /** The full test compares wrapped counts, yet decides the true distance. */
  lemma WrappedDistance(ahead: nat, behind: nat)
    requires behind <= ahead < behind + WORD
    ensures WrappingSub(ahead % WORD, behind % WORD) == ahead - behind
    ensures ahead % WORD == behind % WORD <==> ahead == behind
  {
  }

  lemma NextCount(n: nat)
    ensures WrappingAdd(n % WORD, 1) == (n + 1) % WORD
  {
  }

  /** Fewer than `m` consecutive counts never share a slot. */
  lemma SlotsDiffer(a: nat, b: nat, m: nat)
    requires a < b < a + m
    ensures a % m != b % m
  {
    if a % m == b % m {
      assert (b / m - a / m) * m == b - a;
      ZeroMultiple(b / m - a / m, m);
    }
  }

  /** Products with a common stride keep order and distribute. */
  lemma Stride(a: nat, b: nat, channels: nat)
    requires a <= b
    ensures a * channels <= b * channels
    ensures (b - a) * channels == b * channels - a * channels
  {
    assert (b - a) * channels >= 0;
  }
}
