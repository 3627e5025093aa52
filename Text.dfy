/** Text helpers shared by the views and the exporters. */
module Text {

  /** The ellipsis appended to truncated story text. */
  const Ellipsis: string := "..."

  /** A story shortened to `cap` characters: text longer than `cap` keeps its first
      `cap` characters followed by an ellipsis; shorter text is left alone.
      Lengths count Dafny characters, which are Unicode scalar values. JavaScript's
      `length` and `slice` count UTF-16 code units instead, so the two agree only on
      text inside the Basic Multilingual Plane. */
  function Truncate(s: string, cap: nat): (r: string)
    ensures |s| <= cap ==> r == s
    ensures |s| > cap ==> |r| == cap + |Ellipsis| && r[..cap] == s[..cap] && r[cap..] == Ellipsis
    ensures |r| <= cap + |Ellipsis|
  {
    if |s| > cap then s[..cap] + Ellipsis else s
  }

  /** Truncating twice is the same as truncating once. */
  lemma TruncateIdempotent(s: string, cap: nat)
    ensures Truncate(Truncate(s, cap), cap) == Truncate(s, cap)
  {
    if |s| > cap {
      var r := Truncate(s, cap);
      assert r[..cap] + Ellipsis == r;
    }
  }

  /** The converse of "short text is unchanged" does not hold: a long text that already
      ends in the ellipsis right after its first `cap` characters comes back unchanged. */
  lemma TruncateLongFixedPoint(cap: nat)
    ensures var s := seq(cap, _ => 'a') + Ellipsis;
            |s| > cap && Truncate(s, cap) == s
  {
    var s := seq(cap, _ => 'a') + Ellipsis;
    assert s[..cap] == seq(cap, _ => 'a');
  }

  /** The character of one decimal digit. */
  function Digit(d: nat): (c: char)
    requires d < 10
    ensures '0' <= c <= '9'
  {
    (48 + d) as char
  }

  predicate IsDigits(s: string) {
    forall i :: 0 <= i < |s| ==> '0' <= s[i] <= '9'
  }

  /** The decimal text of a natural number, as JavaScript's number-to-string
      conversion writes it: at least one digit and no leading zero. */
  function DecimalString(n: nat): (r: string)
    ensures |r| >= 1 && IsDigits(r)
    ensures n >= 10 ==> r[0] != '0'
    decreases n
  {
    if n < 10 then [Digit(n)] else DecimalString(n / 10) + [Digit(n % 10)]
  }

  /** Reads a string of decimal digits back as a number. */
  function ParseDecimal(s: string): nat
    requires IsDigits(s)
  {
    if s == [] then 0
    else ParseDecimal(s[..|s| - 1]) * 10 + (s[|s| - 1] as int - '0' as int)
  }

  /** Decimal text round-trips. */
  lemma {:induction false} ParseDecimalString(n: nat)
    ensures ParseDecimal(DecimalString(n)) == n
    decreases n
  {
    var r := DecimalString(n);
    if n >= 10 {
      ParseDecimalString(n / 10);
      assert r[..|r| - 1] == DecimalString(n / 10);
    }
  }

  /** Therefore distinct numbers have distinct decimal texts. */
  lemma DecimalStringInjective(m: nat, n: nat)
    requires DecimalString(m) == DecimalString(n)
    ensures m == n
  {
    ParseDecimalString(m);
    ParseDecimalString(n);
  }
}
