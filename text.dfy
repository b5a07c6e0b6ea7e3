/** The string operations the deploy job applies to identifiers, paths and ports. */
module Text {

  /** The character of a decimal digit. */
  function DigitChar(d: nat): (c: char)
    requires d < 10
    ensures '0' <= c <= '9' && c as int - '0' as int == d
  {
    (('0' as int) + d) as char
  }

  predicate IsDigits(s: string)
  {
    forall i :: 0 <= i < |s| ==> '0' <= s[i] <= '9'
  }

  /** How a template literal renders a non-negative integer: decimal, no leading zeros. */
  function Decimal(n: nat): (s: string)
    ensures |s| > 0 && IsDigits(s)
    ensures s[0] == '0' ==> n == 0
  {
    if n < 10 then [DigitChar(n)] else Decimal(n / 10) + [DigitChar(n % 10)]
  }

  /** The value of a string of decimal digits; the partner of Decimal. */
  function ParseDecimal(s: string): nat
    requires IsDigits(s)
  {
    if s == [] then 0
    else ParseDecimal(s[..|s| - 1]) * 10 + (s[|s| - 1] as int - '0' as int)
  }

  lemma {:induction false} DecimalRoundTrip(n: nat)
    ensures ParseDecimal(Decimal(n)) == n
  {
    if n >= 10 {
      var s := Decimal(n);
      assert s[..|s| - 1] == Decimal(n / 10);
      DecimalRoundTrip(n / 10);
    }
  }

  /** `s.slice(0, n)`: the first n characters, or all of s when it is shorter. */
  function Prefix(s: string, n: nat): (r: string)
    ensures |r| == if |s| < n then |s| else n
    ensures r <= s
  {
    if |s| <= n then s else s[..n]
  }

  /** `s.replace(/\//gi, '-')`: every slash becomes a dash, nothing else changes. */
  function Dashed(s: string): (r: string)
    ensures |r| == |s|
    ensures forall i :: 0 <= i < |s| ==> r[i] == if s[i] == '/' then '-' else s[i]
  {
    if s == [] then []
    else [if s[0] == '/' then '-' else s[0]] + Dashed(s[1..])
  }

  /** Whether two characters agree once every slash is turned into a dash. */
  predicate SameWhenDashed(a: char, b: char)
  {
    a == b || ((a == '/' || a == '-') && (b == '/' || b == '-'))
  }

  /**
   * Dashing is not injective: two paths dash alike exactly when they have the
   * same length and differ only where one has a slash and the other a dash.
   */
  lemma DashedCollides(s: string, t: string)
    ensures Dashed(s) == Dashed(t) <==> |s| == |t| && forall i :: 0 <= i < |s| ==> SameWhenDashed(s[i], t[i])
  {
    var ds, dt := Dashed(s), Dashed(t);
    if ds == dt {
      forall i | 0 <= i < |s| ensures SameWhenDashed(s[i], t[i]) {
        assert ds[i] == dt[i];
      }
    }
    if |s| == |t| && forall i :: 0 <= i < |s| ==> SameWhenDashed(s[i], t[i]) {
      forall i | 0 <= i < |s| ensures ds[i] == dt[i] {
        assert SameWhenDashed(s[i], t[i]);
      }
    }
  }

  /** Dashing introduces no colon, so a colon-free path stays colon-free. */
  lemma DashedKeepsColonFree(s: string)
    requires ':' !in s
    ensures ':' !in Dashed(s)
  {
    var r := Dashed(s);
    forall i | 0 <= i < |r| ensures r[i] != ':' {
      assert s[i] != ':';
    }
  }

  /** `s.split(':')[0]`: the text before the first colon, or all of s when it has none. */
  function BeforeColon(s: string): (r: string)
    ensures r <= s
    ensures ':' !in r
    ensures |r| < |s| ==> s[|r|] == ':'
  {
    if s == [] || s[0] == ':' then []
    else [s[0]] + BeforeColon(s[1..])
  }

  /** Splitting `left + ":" + right` on the colon gives back `left`, whatever `right` holds. */
  lemma BeforeColonOfJoin(left: string, right: string)
    requires ':' !in left
    ensures BeforeColon(left + ":" + right) == left
  {
    var s := left + ":" + right;
    var r := BeforeColon(s);
    assert s[|left|] == ':';
    assert r == s[..|r|] == left;
  }
}
