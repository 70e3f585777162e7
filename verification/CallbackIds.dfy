/** The callback ids of `callback_manager`: a 32-bit counter that wraps, printed in decimal. */
module CallbackIds {

  const TWO_TO_31: int := 0x8000_0000
  const TWO_TO_32: int := 0x1_0000_0000

  newtype Int32 = n: int | -0x8000_0000 <= n < 0x8000_0000

  /** `m_id++` on an `atomic<int>`, which wraps. */
  function Increment(id: Int32): Int32 {
    if id == 0x7FFF_FFFF then -0x8000_0000 else id + 1
  }

  /** The value the counter hands out at the `k`-th registration, counting from 0. */
  function Counter(k: nat): Int32 {
    if k == 0 then 0 else Increment(Counter(k - 1))
  }

  function Digit(d: nat): char
    requires d < 10
  {
    "0123456789"[d]
  }

  function Digits(n: nat): string {
    if n < 10 then [Digit(n)] else Digits(n / 10) + [Digit(n % 10)]
  }

  /** What `operator<<` prints. */
  function Decimal(id: Int32): string {
    if id < 0 then "-" + Digits(-(id as int)) else Digits(id as int)
  }

  /** The id string of the `k`-th registration. */
  function CallbackId(k: nat): string {
    Decimal(Counter(k))
  }

  // ---- Printing loses nothing ----

  function DigitValue(c: char): int {
    if '0' <= c <= '9' then c as int - '0' as int else 0
  }

  function Value(s: string): int {
    if s == "" then 0 else 10 * Value(s[..|s| - 1]) + DigitValue(s[|s| - 1])
  }

  lemma ValueAppend(s: string, d: nat)
    requires d < 10
    ensures Value(s + [Digit(d)]) == 10 * Value(s) + d
  {
    assert (s + [Digit(d)])[..|s|] == s;
  }

  lemma {:induction false} ValueOfDigits(n: nat)
    ensures Value(Digits(n)) == n
  {
    hide Value, Digit;
    if n < 10 {
      ValueAppend("", n);
      NoValue();
      assert "" + [Digit(n)] == [Digit(n)];
    } else {
      ValueOfDigits(n / 10);
      ValueAppend(Digits(n / 10), n % 10);
    }
  }

  lemma {:induction false} DigitsUnsigned(n: nat)
    ensures Digits(n) != "" && Digits(n)[0] != '-'
  {
    if n >= 10 {
      DigitsUnsigned(n / 10);
    }
  }

  lemma NoValue()
    ensures Value("") == 0
  {
  }

  lemma DecimalIsInjective(a: Int32, b: Int32)
    requires Decimal(a) == Decimal(b)
    ensures a == b
  {
    var m, n := if a < 0 then -(a as int) else a as int, if b < 0 then -(b as int) else b as int;
    ValueOfDigits(m);
    ValueOfDigits(n);
    DigitsUnsigned(m);
    DigitsUnsigned(n);
    assert (Decimal(a)[0] == '-') == (a < 0) && (Decimal(b)[0] == '-') == (b < 0);
    if a < 0 {
      assert Digits(m) == Decimal(a)[1..] == Decimal(b)[1..] == Digits(n);
    }
  }

  // ---- The counter repeats after 2^32 registrations and not before ----

  lemma {:induction false} CounterWraps(k: nat)
    ensures Counter(k) as int == (k + TWO_TO_31) % TWO_TO_32 - TWO_TO_31
  {
    if k > 0 {
      CounterWraps(k - 1);
      NextResidue(k - 1 + TWO_TO_31, TWO_TO_32);
    } else {
      assert TWO_TO_31 % TWO_TO_32 == TWO_TO_31;
    }
  }

  lemma NextResidue(n: nat, m: nat)
    requires 0 < m
    ensures (n + 1) % m == if n % m == m - 1 then 0 else n % m + 1
  {
    var q, r := n / m, n % m;
    assert n == q * m + r;
    if r == m - 1 {
      assert n + 1 == (q + 1) * m;
      Residue(q + 1, 0, m);
    } else {
      assert n + 1 == q * m + (r + 1);
      Residue(q, r + 1, m);
    }
  }

  /** The quotient and the remainder are unique. */
  lemma Residue(q: int, r: int, m: int)
    requires 0 <= r < m
    ensures (q * m + r) % m == r
  {
    var x := q * m + r;
    assert x == (x / m) * m + x % m;
    assert (q - x / m) * m == x % m - r;
    Small(q - x / m, m);
  }

  lemma SameResidue(a: int, b: int, m: int)
    requires 0 < m
    ensures a % m == b % m <==> (a - b) % m == 0
  {
    if a % m == b % m {
      assert a == (a / m) * m + a % m && b == (b / m) * m + b % m;
      assert a - b == (a / m - b / m) * m + 0;
      Residue(a / m - b / m, 0, m);
    } else if (a - b) % m == 0 {
      var q := (a - b) / m;
      assert a == q * m + b && b == (b / m) * m + b % m;
      assert a == (q + b / m) * m + b % m;
      Residue(q + b / m, b % m, m);
    }
  }

  lemma Small(x: int, m: int)
    requires 0 < m && -m < x * m < m
    ensures x == 0
  {
  }

  /** Two registrations get the same id exactly if their numbers differ by a multiple of 2^32. */
  lemma IdsRepeat(i: nat, j: nat)
    ensures CallbackId(i) == CallbackId(j) <==> (i - j) % TWO_TO_32 == 0
  {
    CounterWraps(i);
    CounterWraps(j);
    SameResidue(i + TWO_TO_31, j + TWO_TO_31, TWO_TO_32);
    if CallbackId(i) == CallbackId(j) {
      DecimalIsInjective(Counter(i), Counter(j));
    }
  }

  /** Any 2^32 consecutive ids are pairwise distinct. */
  lemma ConsecutiveIdsDistinct(i: nat, j: nat)
    requires i < j < i + TWO_TO_32
    ensures CallbackId(i) != CallbackId(j)
  {
    IdsRepeat(j, i);
  }
}
