/** Order ids: the `sim_` counter format, which never repeats, and the string order used to
    break ties and to sort keys. */
module OrderIds {

  // ---------- simulated order ids ----------

  function Digit(d: nat): char
    requires d < 10
  {
    '0' + d as char
  }

  function Decimal(n: nat): (s: string)
    ensures s != []
  {
    if n < 10 then [Digit(n)] else Decimal(n / 10) + [Digit(n % 10)]
  }

  function Zeros(n: nat): (s: string)
    ensures |s| == n
  {
    seq(n, _ => '0')
  }

  function SimId(n: nat): string {
    var digits := Decimal(n);
    "sim_" + Zeros(if |digits| < 8 then 8 - |digits| else 0) + digits
  }

  /** Reads a digit string back; other characters count as their distance from '0'. */
  ghost function Parse(s: string): int {
    if s == [] then 0 else 10 * Parse(s[..|s| - 1]) + (s[|s| - 1] as int - '0' as int)
  }

  lemma {:induction false} ParseDecimal(n: nat)
    ensures Parse(Decimal(n)) == n
  {
    if n >= 10 {
      ParseDecimal(n / 10);
      assert Decimal(n)[..|Decimal(n)| - 1] == Decimal(n / 10);
    }
  }

  lemma {:induction false} ParsePadded(k: nat, s: string)
    ensures Parse(Zeros(k) + s) == Parse(s)
  {
    if s == [] {
      assert Zeros(k) + s == Zeros(k);
      ParseZeros(k);
    } else {
      assert (Zeros(k) + s)[..k + |s| - 1] == Zeros(k) + s[..|s| - 1];
      ParsePadded(k, s[..|s| - 1]);
    }
  }

  lemma {:induction false} ParseZeros(k: nat)
    ensures Parse(Zeros(k)) == 0
  {
    if k > 0 {
      assert Zeros(k)[..k - 1] == Zeros(k - 1);
      ParseZeros(k - 1);
    }
  }

  /** The prefix and at least eight digits, zeros first. */
  lemma SimIdShape(n: nat)
    ensures SimId(n)[..4] == "sim_" && |SimId(n)| >= 12
    ensures |SimId(n)| > 12 ==> SimId(n)[4..] == Decimal(n)
    ensures forall i :: 4 <= i < |SimId(n)| ==> '0' <= SimId(n)[i] <= '9'
  {
    DecimalIsDigits(n);
    var digits := Decimal(n);
    var pad := if |digits| < 8 then 8 - |digits| else 0;
    assert SimId(n)[4..] == Zeros(pad) + digits;
    if pad == 0 { assert Zeros(pad) + digits == digits; }
  }

  lemma {:induction false} DecimalIsDigits(n: nat)
    ensures forall i :: 0 <= i < |Decimal(n)| ==> '0' <= Decimal(n)[i] <= '9'
  {
    if n >= 10 { DecimalIsDigits(n / 10); }
  }

  /** The counter can be read back from the id, so two counters never give one id. */
  lemma SimIdRoundTrip(n: nat)
    ensures Parse(SimId(n)[4..]) == n
  {
    var digits := Decimal(n);
    var pad := if |digits| < 8 then 8 - |digits| else 0;
    assert SimId(n)[4..] == Zeros(pad) + digits;
    ParsePadded(pad, digits);
    ParseDecimal(n);
  }

  lemma SimIdInjective(m: nat, n: nat)
    ensures SimId(m) == SimId(n) ==> m == n
  {
    SimIdRoundTrip(m);
    SimIdRoundTrip(n);
  }

  // ---------- string order ----------

  predicate Less(a: string, b: string) {
    if b == [] then false
    else if a == [] then true
    else a[0] < b[0] || (a[0] == b[0] && Less(a[1..], b[1..]))
  }

  lemma {:induction false} LessIsTotal(a: string, b: string)
    ensures a == b || Less(a, b) || Less(b, a)
    ensures !(Less(a, b) && Less(b, a))
    ensures !Less(a, a)
  {
    if a != [] && b != [] {
      LessIsTotal(a[1..], b[1..]);
      assert a == [a[0]] + a[1..] && b == [b[0]] + b[1..];
    }
    if a != [] { LessIsTotal(a[1..], a[1..]); }
  }

  /** A string comes after its own beginnings; otherwise the first different character decides. */
  lemma {:induction false} LessIsLexicographic(common: string, c: char, d: char, x: string, y: string)
    ensures Less(common, common + [c] + x)
    ensures Less(common + [c] + x, common + [d] + y) <== c < d
  {
    if common != [] {
      var rest := common[1..];
      LessIsLexicographic(rest, c, d, x, y);
      assert (common + [c] + x)[1..] == rest + [c] + x && (common + [d] + y)[1..] == rest + [d] + y;
    }
  }

  lemma {:induction false} LessIsTransitive(a: string, b: string, c: string)
    requires Less(a, b) && Less(b, c)
    ensures Less(a, c)
  {
    if a != [] && a[0] == b[0] == c[0] {
      LessIsTransitive(a[1..], b[1..], c[1..]);
    }
  }
}
