/** Plain values shared by the model: an optional value (a JavaScript
    property that may be undefined), and the two string conversions the
    legislature intents rely on: `Number.prototype.toString` on a district
    number and `String.prototype.toLowerCase` on a roster code. */
module Values {

  /** A value that may be absent, as an unset property of a JavaScript object. */
  datatype Option<+T> = None | Some(value: T)

  /** The decimal digit character for `d`. */
  function Digit(d: nat): (c: char)
    requires d < 10
    ensures c as int == '0' as int + d
    ensures '0' <= c <= '9'
  {
    ('0' as int + d) as char
  }

  /** Whether every character of `s` is a decimal digit. */
  predicate AllDigits(s: string) {
    forall i :: 0 <= i < |s| ==> '0' <= s[i] <= '9'
  }

  /** The number a text of decimal digits denotes, most significant first. */
  function DecimalValue(s: string): nat
    requires AllDigits(s)
  {
    if s == [] then 0
    else DecimalValue(s[..|s| - 1]) * 10 + (s[|s| - 1] as int - '0' as int)
  }

  /** `n.toString()` for a non-negative integer: its decimal digits, most
      significant first, with no leading zero except for `0` itself, and
      denoting `n`. */
  function DecimalString(n: nat): (s: string)
    ensures 0 < |s|
    ensures AllDigits(s)
    ensures DecimalValue(s) == n
    ensures s[0] == '0' <==> n == 0
    ensures n < 10 <==> |s| == 1
    decreases n
  {
    if n < 10 then
      var s := [Digit(n)];
      assert s[..0] == [];
      s
    else
      var prefix := DecimalString(n / 10);
      var s := prefix + [Digit(n % 10)];
      assert s[..|s| - 1] == prefix;
      s
  }

  /** Distinct district numbers never print as the same text, so comparing
      a roster's district text with `n.toString()` identifies `n`: the text
      denotes its number. */
  lemma DecimalStringInjective(m: nat, n: nat)
    requires DecimalString(m) == DecimalString(n)
    ensures m == n
  {
    assert m == DecimalValue(DecimalString(m));
  }

  /** The ASCII case mapping of one character. */
  function LowerChar(c: char): (l: char)
    ensures 'A' <= c <= 'Z' ==> l as int == c as int + 32
    ensures !('A' <= c <= 'Z') ==> l == c
  {
    if 'A' <= c <= 'Z' then (c as int + 32) as char else c
  }

  /** `s.toLowerCase()`, restricted to the ASCII case mapping. */
  function LowerCase(s: string): (r: string)
    ensures |r| == |s|
    ensures forall i :: 0 <= i < |s| ==> r[i] == LowerChar(s[i])
  {
    seq(|s|, i requires 0 <= i < |s| => LowerChar(s[i]))
  }

  /** The upper-case partner of a lower-case ASCII letter. */
  function UpperOf(c: char): (u: char)
    requires 'a' <= c <= 'z'
    ensures 'A' <= u <= 'Z' && LowerChar(u) == c
  {
    (c as int - 32) as char
  }

  /** `s.toLowerCase() === c`, for a one-letter lower-case `c`, holds exactly
      when `s` is that letter in either case. */
  lemma LowerCaseIsLetter(s: string, c: char)
    requires 'a' <= c <= 'z'
    ensures LowerCase(s) == [c] <==> s == [c] || s == [UpperOf(c)]
  {
    if LowerCase(s) == [c] {
      assert |s| == 1 && LowerChar(s[0]) == c;
      if 'A' <= s[0] <= 'Z' {
        assert s[0] as int == c as int - 32;
        assert s == [UpperOf(c)];
      } else {
        assert s == [c];
      }
    }
    if s == [c] || s == [UpperOf(c)] {
      assert LowerCase(s)[0] == c;
    }
  }
}
