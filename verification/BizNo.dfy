/** The check digit of a Korean business registration number, and which typing errors it catches. */
module BizNo {

  type Digit = d: int | 0 <= d < 10

  /** The weights 1, 3, 7, 1, 3, 7, 1, 3, 5; the ninth digit also adds the carry of its product. */
  function Share(position: nat, d: int): int
    requires position < 9
  {
    if position == 8 then 5 * d + (5 * d) / 10
    else if position % 3 == 0 then d
    else if position % 3 == 1 then 3 * d
    else 7 * d
  }

  function WeightedSum(ds: seq<Digit>, n: nat): int
    requires n <= 9 && n <= |ds|
  {
    if n == 0 then 0 else WeightedSum(ds, n - 1) + Share(n - 1, ds[n - 1])
  }

  function CheckDigit(ds: seq<Digit>): (c: Digit)
    requires |ds| >= 9
  {
    (10 - WeightedSum(ds, 9) % 10) % 10
  }

  predicate IsDigitChar(c: char) {
    '0' <= c <= '9'
  }

  function DigitOf(c: char): Digit
    requires IsDigitChar(c)
  {
    c as int - '0' as int
  }

  function DigitsOf(s: string): (ds: seq<Digit>)
    requires forall i :: 0 <= i < |s| ==> IsDigitChar(s[i])
    ensures |ds| == |s| && forall i :: 0 <= i < |s| ==> ds[i] == DigitOf(s[i])
  {
    seq(|s|, i requires 0 <= i < |s| => DigitOf(s[i]))
  }

  predicate ValidDigits(ds: seq<Digit>) {
    |ds| == 10 && CheckDigit(ds) == ds[9]
  }

  /** The checksum test of the rule catalogue: anything that is not ten digits fails. */
  predicate ValidChecksum(s: string) {
    && |s| == 10
    && (forall i :: 0 <= i < |s| ==> IsDigitChar(s[i]))
    && ValidDigits(DigitsOf(s))
  }

  /** The generator of synthetic numbers: nine digits and their check digit. */
  function MakeBizNo(prefix: seq<Digit>): seq<Digit>
    requires |prefix| == 9
  {
    prefix + [CheckDigit(prefix)]
  }

  lemma SumOfPrefix(a: seq<Digit>, b: seq<Digit>, n: nat)
    requires n <= 9 && n <= |a| && n <= |b| && a[..n] == b[..n]
    ensures WeightedSum(a, n) == WeightedSum(b, n)
  {
  }

  /** Every nine-digit prefix has exactly one completion that passes, and the generator makes it. */
  lemma OneCheckDigit(prefix: seq<Digit>, c: Digit)
    requires |prefix| == 9
    ensures ValidDigits(prefix + [c]) <==> prefix + [c] == MakeBizNo(prefix)
  {
    assert (prefix + [c])[..9] == prefix[..9];
    SumOfPrefix(prefix + [c], prefix, 9);
    assert (prefix + [c])[9] == c;
  }

  /** Changing one digit changes the sum by the difference of its shares. */
  lemma {:induction false} SumAfterChange(ds: seq<Digit>, p: nat, d: Digit, n: nat)
    requires |ds| == 10 && p < 9 && n <= 9
    ensures WeightedSum(ds[p := d], n) == WeightedSum(ds, n) + if p < n then Share(p, d) - Share(p, ds[p]) else 0
  {
    if n > 0 {
      SumAfterChange(ds, p, d, n - 1);
    }
  }

  lemma SameModulo(x: int, y: int, z: int)
    ensures (x + y) % 10 == (x + z) % 10 <==> y % 10 == z % 10
  {
  }

  lemma EqualModulo(x: int, y: int, difference: int)
    requires x - y == difference
    ensures x % 10 == y % 10 <==> difference % 10 == 0
  {
  }

  /** The ninth digit's share modulo ten: a permutation of the digits. */
  lemma NinthShare(d: Digit)
    ensures Share(8, d) % 10 == [0, 5, 1, 6, 2, 7, 3, 8, 4, 9][d]
  {
  }

  /** Which multiples of a difference of two unequal digits vanish modulo ten. */
  lemma Vanishing(k: int)
    requires -9 <= k <= 9 && k != 0
    ensures k % 10 != 0 && (3 * k) % 10 != 0 && (7 * k) % 10 != 0
    ensures (2 * k) % 10 == 0 <==> k == 5 || k == -5
    ensures (4 * k) % 10 == 0 <==> k == 5 || k == -5
    ensures (6 * k) % 10 == 0 <==> k == 5 || k == -5
  {
  }

  /** At each position different digits have shares that differ modulo ten. */
  lemma SharesAreDistinct(p: nat, d: Digit, e: Digit)
    requires p < 9 && d != e
    ensures Share(p, d) % 10 != Share(p, e) % 10
  {
    if p == 8 {
      NinthShare(d);
      NinthShare(e);
    } else {
      var a: int, b: int := d, e;
      Vanishing(a - b);
      EqualModulo(Share(p, a), Share(p, b), Share(p, a) - Share(p, b));
    }
  }

  /** Whether a number passes depends on its weighted sum and last digit modulo ten. */
  lemma ValidBySum(ds: seq<Digit>)
    requires |ds| == 10
    ensures ValidDigits(ds) <==> (WeightedSum(ds, 9) + ds[9] as int) % 10 == 0
  {
  }

  /** Mistyping any single digit of a valid number is always caught. */
  lemma SingleErrorCaught(ds: seq<Digit>, p: nat, d: Digit)
    requires ValidDigits(ds) && p < 10 && d != ds[p]
    ensures !ValidDigits(ds[p := d])
  {
    if p < 9 {
      SumAfterChange(ds, p, d, 9);
      SharesAreDistinct(p, d, ds[p]);
      ValidBySum(ds);
      ValidBySum(ds[p := d]);
      var rest := WeightedSum(ds, 9) + ds[9] as int - Share(p, ds[p]);
      SameModulo(rest, Share(p, d), Share(p, ds[p]));
    } else {
      assert ds[9 := d][..9] == ds[..9];
      SumOfPrefix(ds[9 := d], ds, 9);
    }
  }

  function Swapped(ds: seq<Digit>, p: nat): (r: seq<Digit>)
    requires p + 1 < |ds|
    ensures |r| == |ds|
  {
    ds[p := ds[p + 1]][p + 1 := ds[p]]
  }

  lemma SumAfterSwap(ds: seq<Digit>, p: nat)
    requires |ds| == 10 && p < 8
    ensures WeightedSum(Swapped(ds, p), 9) ==
            WeightedSum(ds, 9) + Share(p, ds[p + 1]) - Share(p, ds[p]) + Share(p + 1, ds[p]) - Share(p + 1, ds[p + 1])
  {
    SumAfterChange(ds, p, ds[p + 1], 9);
    SumAfterChange(ds[p := ds[p + 1]], p + 1, ds[p], 9);
  }

  /** A swap of two neighbours goes unnoticed exactly when the two pairs of shares agree modulo ten. */
  lemma SwapUnnoticed(ds: seq<Digit>, p: nat)
    requires ValidDigits(ds) && p < 8
    ensures ValidDigits(Swapped(ds, p)) <==>
            (Share(p, ds[p + 1]) + Share(p + 1, ds[p])) % 10 == (Share(p, ds[p]) + Share(p + 1, ds[p + 1])) % 10
  {
    SumAfterSwap(ds, p);
    ValidBySum(ds);
    ValidBySum(Swapped(ds, p));
    var rest := WeightedSum(ds, 9) + ds[9] as int - Share(p, ds[p]) - Share(p + 1, ds[p + 1]);
    SameModulo(rest, Share(p, ds[p + 1]) + Share(p + 1, ds[p]), Share(p, ds[p]) + Share(p + 1, ds[p + 1]));
  }

  /** Among the first eight digits, swapping unequal neighbours is missed exactly when they differ by five. */
  lemma SwapMissedByFive(ds: seq<Digit>, p: nat)
    requires ValidDigits(ds) && p < 7 && ds[p] != ds[p + 1]
    ensures ValidDigits(Swapped(ds, p)) <==>
            ds[p] as int == ds[p + 1] as int + 5 || ds[p + 1] as int == ds[p] as int + 5
  {
    SwapUnnoticed(ds, p);
    var a: int, b: int := ds[p], ds[p + 1];
    Vanishing(a - b);
    Vanishing(b - a);
    var x, y := Share(p, b) + Share(p + 1, a), Share(p, a) + Share(p + 1, b);
    if p % 3 == 0 {
      EqualModulo(x, y, 2 * (a - b));
    } else if p % 3 == 1 {
      EqualModulo(x, y, 4 * (a - b));
    } else {
      EqualModulo(x, y, 6 * (b - a));
    }
  }

  /** Swapping the unequal eighth and ninth digits is missed exactly when they differ by four or eight. */
  lemma SwapMissedByFour(ds: seq<Digit>)
    requires ValidDigits(ds) && ds[7] != ds[8]
    ensures ValidDigits(Swapped(ds, 7)) <==> ds[7] as int % 4 == ds[8] as int % 4
  {
    SwapUnnoticed(ds, 7);
    var a: int, b: int := ds[7], ds[8];
    EqualModulo(Share(7, b) + Share(8, a), Share(7, a) + Share(8, b), Balance(a) - Balance(b));
    BalanceTable(ds[7]);
    BalanceTable(ds[8]);
    EqualModulo(Balance(a), Balance(b), Balance(a) - Balance(b));
  }

  function Balance(d: int): int {
    2 * d + (5 * d) / 10
  }

  lemma BalanceTable(d: Digit)
    ensures Balance(d) % 10 == [0, 2, 5, 7][d as int % 4]
  {
  }

  // ---------------------------------------------------------------- the test written out

  lemma SumInFull(ds: seq<Digit>)
    requires |ds| >= 9
    ensures var d: seq<int> := ds;
            WeightedSum(ds, 9) == d[0] + 3 * d[1] + 7 * d[2] + d[3] + 3 * d[4] + 7 * d[5] + d[6] + 3 * d[7]
                                  + 5 * d[8] + (5 * d[8]) / 10
  {
    var d: seq<int> := ds;
    assert WeightedSum(ds, 1) == d[0] && WeightedSum(ds, 2) == WeightedSum(ds, 1) + 3 * d[1];
    assert WeightedSum(ds, 3) == WeightedSum(ds, 2) + 7 * d[2] && WeightedSum(ds, 4) == WeightedSum(ds, 3) + d[3];
    assert WeightedSum(ds, 5) == WeightedSum(ds, 4) + 3 * d[4] && WeightedSum(ds, 6) == WeightedSum(ds, 5) + 7 * d[5];
    assert WeightedSum(ds, 7) == WeightedSum(ds, 6) + d[6] && WeightedSum(ds, 8) == WeightedSum(ds, 7) + 3 * d[7];
  }

  /** Ten digits pass if and only if the weighted sum, the carry and the last digit add up to a multiple of ten. */
  lemma ValidInFull(ds: seq<Digit>)
    requires |ds| == 10
    ensures var d: seq<int> := ds;
            ValidDigits(ds) <==>
            (d[0] + 3 * d[1] + 7 * d[2] + d[3] + 3 * d[4] + 7 * d[5] + d[6] + 3 * d[7]
              + 5 * d[8] + (5 * d[8]) / 10 + d[9]) % 10 == 0
  {
    SumInFull(ds);
    ValidBySum(ds);
  }

  /** The value of the decimal digit at a place of a text. */
  function At(s: string, i: nat): int
    requires i < |s|
  {
    s[i] as int - '0' as int
  }

  /** The same of a text: it passes if and only if it is ten ASCII digits whose sum is a multiple of ten. */
  lemma ChecksumInFull(s: string)
    ensures ValidChecksum(s) <==>
            && |s| == 10 && (forall i :: 0 <= i < 10 ==> '0' <= s[i] <= '9')
            && (At(s, 0) + 3 * At(s, 1) + 7 * At(s, 2) + At(s, 3) + 3 * At(s, 4) + 7 * At(s, 5) + At(s, 6) + 3 * At(s,
                7)
                 + 5 * At(s, 8) + (5 * At(s, 8)) / 10 + At(s, 9)) % 10 == 0
  {
    if |s| == 10 && forall i :: 0 <= i < 10 ==> '0' <= s[i] <= '9' {
      ValidInFull(DigitsOf(s));
    }
  }

  /** A number that everybody can check by hand. */
  lemma KnownNumber()
    ensures ValidChecksum("2208162517")
  {
    ChecksumInFull("2208162517");
  }
}
