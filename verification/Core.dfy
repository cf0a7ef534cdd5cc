/** Wrappers, 32-bit machine integers and decimal formatting shared by the whole model. */
module Core {

  datatype Option<+T> = None | Some(value: T)

  datatype Result<+T> = Ok(value: T) | Err(message: string)

  /** Go's int32. Sums are computed on unbounded integers and brought back by Wrap. */
  type int32 = x: int | -0x8000_0000 <= x < 0x8000_0000

  const MAX32: int := 0x7fff_ffff

  /** Two's-complement truncation to 32 bits. */
  function Wrap(x: int): (r: int32)
    ensures -0x8000_0000 <= x < 0x8000_0000 ==> r == x
    ensures 0x8000_0000 <= x < 0x1_8000_0000 ==> r == x - 0x1_0000_0000
    ensures -0x1_8000_0000 <= x < -0x8000_0000 ==> r == x + 0x1_0000_0000
    ensures (r - x) % 0x1_0000_0000 == 0
  {
    (x + 0x8000_0000) % 0x1_0000_0000 - 0x8000_0000
  }

  /** Adding in two wrapping steps is the same as wrapping once at the end. */
  lemma WrapTwice(x: int, y: int)
    ensures Wrap(Wrap(x) + y) == Wrap(x + y)
  {
  }

  lemma WrapMinus(x: int, y: int)
    ensures Wrap(y - Wrap(x)) == Wrap(y - x)
  {
    var q := (x - Wrap(x)) / 0x1_0000_0000;
    assert x - Wrap(x) == q * 0x1_0000_0000 by {
      assert (Wrap(x) - x) % 0x1_0000_0000 == 0;
    }
    WrapPeriod(y - x, q);
  }

  lemma WrapPeriod(x: int, q: int)
    ensures Wrap(x + q * 0x1_0000_0000) == Wrap(x)
  {
  }

  /** The decimal digits that "%d" prints for a natural number. */
  function Decimal(n: nat): (s: string)
    ensures |s| >= 1
    ensures forall i | 0 <= i < |s| :: '0' <= s[i] <= '9'
    ensures n > 0 ==> s[0] != '0'
  {
    if n < 10 then [('0' as int + n) as char]
    else Decimal(n / 10) + [('0' as int + n % 10) as char]
  }

  /** Reads decimal digits back. */
  function ReadDecimal(s: string): (n: int)
  {
    if |s| == 0 then 0 else ReadDecimal(s[..|s| - 1]) * 10 + (s[|s| - 1] as int - '0' as int)
  }

  lemma {:induction false} DecimalRoundTrip(n: nat)
    ensures ReadDecimal(Decimal(n)) == n
  {
    if n < 10 {
      assert Decimal(n)[..0] == [];
    } else {
      DecimalRoundTrip(n / 10);
      assert Decimal(n)[..|Decimal(n)| - 1] == Decimal(n / 10);
    }
  }

  /** Distinct numbers print differently. */
  lemma DecimalInjective(m: nat, n: nat)
    requires Decimal(m) == Decimal(n)
    ensures m == n
  {
    DecimalRoundTrip(m);
    DecimalRoundTrip(n);
  }

  /** A set of integers inside [lo, hi) has at most hi - lo elements. */
  lemma {:induction false} BoundedCard(s: set<int>, lo: int, hi: int)
    requires lo <= hi
    requires forall x | x in s :: lo <= x < hi
    ensures |s| <= hi - lo
    decreases hi - lo
  {
    if lo < hi {
      BoundedCard(s - {lo}, lo + 1, hi);
      assert s <= (s - {lo}) + {lo};
      Subset(s, (s - {lo}) + {lo});
    } else {
      assert s == {};
    }
  }

  lemma {:induction false} Subset<T>(a: set<T>, b: set<T>)
    requires a <= b
    ensures |a| <= |b|
  {
    if a != {} {
      var x :| x in a;
      Subset(a - {x}, b - {x});
    }
  }
}
