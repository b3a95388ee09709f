/** Character-level helpers shared by the string-producing parts of the model. */
module Text {
  /** ASCII lower-casing; every string this model lower-cases is ASCII. */
  function LowerChar(c: char): (r: char)
    ensures 'A' <= c <= 'Z' ==> 'a' <= r <= 'z' && r as int == c as int + 32
    ensures !('A' <= c <= 'Z') ==> r == c
  {
    if 'A' <= c <= 'Z' then (c as int + 32) as char else c
  }

  function Lower(s: string): (r: string)
    ensures |r| == |s|
    ensures forall i :: 0 <= i < |s| ==> r[i] == LowerChar(s[i])
  {
    if s == [] then [] else [LowerChar(s[0])] + Lower(s[1..])
  }

  /** Decimal digits of a natural number, most significant first, no leading zeros. */
  function DecimalDigits(n: nat): (r: string)
    ensures |r| >= 1
    ensures forall i :: 0 <= i < |r| ==> '0' <= r[i] <= '9'
    ensures r[0] == '0' <==> n == 0
    ensures n < 10 <==> |r| == 1
    decreases n
  {
    if n < 10 then [('0' as int + n) as char]
    else DecimalDigits(n / 10) + [('0' as int + n % 10) as char]
  }

  /** The value a string of decimal digits denotes. */
  function DecimalValue(s: string): (v: int)
  {
    if s == [] then 0 else DecimalValue(s[..|s| - 1]) * 10 + (s[|s| - 1] as int - '0' as int)
  }

  lemma {:induction false} DecimalRoundTrip(n: nat)
    ensures DecimalValue(DecimalDigits(n)) == n
    decreases n
  {
    if n >= 10 {
      DecimalRoundTrip(n / 10);
      var d := DecimalDigits(n / 10) + [('0' as int + n % 10) as char];
      assert d[..|d| - 1] == DecimalDigits(n / 10);
    }
  }

  /** One or two digits exactly when the number is below 100. */
  lemma {:induction false} DecimalDigitsShort(n: nat)
    ensures n < 10 ==> |DecimalDigits(n)| == 1
    ensures 10 <= n < 100 ==> |DecimalDigits(n)| == 2
    ensures n >= 100 ==> |DecimalDigits(n)| >= 3
    decreases n
  {
    if n >= 10 { DecimalDigitsShort(n / 10); }
  }
}
