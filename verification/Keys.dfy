/** Idempotency keys as printed text. */
module Keys {

  function DigitChar(d: nat): (c: char)
    requires d < 10
    ensures '0' <= c <= '9'
  {
    '0' + d as char
  }

  /** Decimal print of a number, as an f-string renders it. */
  function Decimal(n: nat): (s: string)
    ensures s != "" && forall i :: 0 <= i < |s| ==> '0' <= s[i] <= '9'
  {
    if n < 10 then [DigitChar(n)] else Decimal(n / 10) + [DigitChar(n % 10)]
  }

  function PipelineKey(expense: nat, sequence: nat): string {
    "expense:" + Decimal(expense) + ":pipeline:" + Decimal(sequence)
  }

  function GenerationKey(report: nat): string {
    "report:" + Decimal(report) + ":generate"
  }

  /** The number a decimal text stands for. */
  function ValueOf(s: string): int {
    if s == "" then 0 else 10 * ValueOf(s[..|s| - 1]) + (s[|s| - 1] as int - '0' as int)
  }

  lemma {:induction false} DecimalReadsBack(n: nat)
    ensures ValueOf(Decimal(n)) == n
  {
    if n < 10 {
      assert Decimal(n)[..0] == "";
    } else {
      DecimalReadsBack(n / 10);
      assert Decimal(n)[..|Decimal(n)| - 1] == Decimal(n / 10);
    }
  }

  lemma DecimalIsInjective(m: nat, n: nat)
    requires Decimal(m) == Decimal(n)
    ensures m == n
  {
    DecimalReadsBack(m);
    DecimalReadsBack(n);
  }

  /** A text is cut the same way at its first colon. */
  lemma SplitAtColon(x: string, u: string, y: string, v: string)
    requires ':' !in x && ':' !in y && x + ":" + u == y + ":" + v
    ensures x == y && u == v
  {
    var s := x + ":" + u;
    assert s[|x|] == ':' && s[|y|] == ':';
    forall i | 0 <= i < |x| ensures s[i] != ':' {
      assert s[i] == x[i] && x[i] in x;
    }
    forall i | 0 <= i < |y| ensures s[i] != ':' {
      assert s[i] == y[i] && y[i] in y;
    }
    assert s[..|x|] == x && s[..|y|] == y;
    assert s[|x| + 1..] == u && s[|y| + 1..] == v;
  }

  /** Two pipeline keys are equal only for the same expense and the same sequence number. */
  lemma PipelineKeyIsInjective(e: nat, n: nat, e2: nat, n2: nat)
    ensures PipelineKey(e, n) == PipelineKey(e2, n2) <==> e == e2 && n == n2
  {
    if PipelineKey(e, n) == PipelineKey(e2, n2) {
      var x, u := Decimal(e), "pipeline:" + Decimal(n);
      var y, v := Decimal(e2), "pipeline:" + Decimal(n2);
      assert PipelineKey(e, n) == "expense:" + (x + ":" + u);
      assert PipelineKey(e2, n2) == "expense:" + (y + ":" + v);
      assert x + ":" + u == PipelineKey(e, n)[8..] == PipelineKey(e2, n2)[8..] == y + ":" + v;
      SplitAtColon(x, u, y, v);
      assert u[9..] == Decimal(n) && v[9..] == Decimal(n2);
      DecimalIsInjective(e, e2);
      DecimalIsInjective(n, n2);
    }
  }

  lemma GenerationKeyIsInjective(r: nat, r2: nat)
    ensures GenerationKey(r) == GenerationKey(r2) <==> r == r2
  {
    if GenerationKey(r) == GenerationKey(r2) {
      assert GenerationKey(r) == "report:" + (Decimal(r) + ":" + "generate");
      assert GenerationKey(r2) == "report:" + (Decimal(r2) + ":" + "generate");
      assert Decimal(r) + ":" + "generate" == GenerationKey(r)[7..] == GenerationKey(r2)[7..] ==
          Decimal(r2) + ":" + "generate";
      SplitAtColon(Decimal(r), "generate", Decimal(r2), "generate");
      DecimalIsInjective(r, r2);
    }
  }

  /** The two families of keys never meet. */
  lemma KindsAreDisjoint(e: nat, n: nat, r: nat)
    ensures PipelineKey(e, n) != GenerationKey(r)
  {
    assert PipelineKey(e, n)[0] == 'e' && GenerationKey(r)[0] == 'r';
  }

  /** A number is printed by its decimal digits, the highest first. */
  lemma DecimalInFull(n: nat)
    ensures var s := Decimal(n);
            && s[|s| - 1] as int - '0' as int == n % 10
            && (n >= 10 ==> s[..|s| - 1] == Decimal(n / 10)) && (n < 10 ==> |s| == 1)
  {
  }
}
