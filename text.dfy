/** Character classes and string comparisons the scripts rely on. */
module Text {

  /** JavaScript's `\s` class: the WhiteSpace and LineTerminator code points of ECMAScript. */
  predicate IsJsWhitespace(c: char) {
    c == '\t' || c == '\n' || c == '\U{000B}' || c == '\U{000C}' || c == '\r' || c == ' '
    || c == '\U{00A0}' || c == '\U{1680}' || ('\U{2000}' <= c <= '\U{200A}')
    || c == '\U{2028}' || c == '\U{2029}' || c == '\U{202F}' || c == '\U{205F}'
    || c == '\U{3000}' || c == '\U{FEFF}'
  }

  /** JavaScript's `\d` class. */
  predicate IsDigit(c: char) {
    '0' <= c <= '9'
  }

  function AsciiUpper(c: char): (u: char)
    ensures !('a' <= u <= 'z')
  {
    if 'a' <= c <= 'z' then (c as int - 32) as char else c
  }

  /** Letter comparison of a case-insensitive regular expression or a base-sensitivity
      locale comparison, restricted to ASCII case folding. */
  predicate CharEqualsIgnoreCase(a: char, b: char) {
    AsciiUpper(a) == AsciiUpper(b)
  }

  predicate EqualsIgnoreCase(a: string, b: string) {
    |a| == |b| && forall k :: 0 <= k < |a| ==> CharEqualsIgnoreCase(a[k], b[k])
  }

  predicate FragmentAt(s: string, i: int, fragment: string) {
    0 <= i <= |s| - |fragment| && EqualsIgnoreCase(s[i..i + |fragment|], fragment)
  }

  /** A server-side substring restriction, compared ignoring case. */
  predicate ContainsIgnoreCase(s: string, fragment: string) {
    exists i | 0 <= i <= |s| - |fragment| :: FragmentAt(s, i, fragment)
  }

  predicate StartsWith(s: string, prefix: string) {
    |prefix| <= |s| && s[..|prefix|] == prefix
  }

  /** The characters lodash's `escape` rewrites. */
  predicate IsHtmlSpecial(c: char) {
    c == '&' || c == '<' || c == '>' || c == '"' || c == '\''
  }

  function EscapeChar(c: char): string {
    match c
    case '&' => "&amp;"
    case '<' => "&lt;"
    case '>' => "&gt;"
    case '"' => "&quot;"
    case '\'' => "&#39;"
    case _ => [c]
  }

  /** lodash's `escape`: each of `& < > " '` becomes its HTML entity. */
  function Escape(s: string): (r: string)
    ensures |r| >= |s|
  {
    if s == [] then [] else EscapeChar(s[0]) + Escape(s[1..])
  }

  /** Escaping changes a string exactly when it holds one of the five special characters. */
  lemma {:induction false} EscapeChangesIff(s: string)
    ensures Escape(s) == s <==> forall k :: 0 <= k < |s| ==> !IsHtmlSpecial(s[k])
    ensures (exists k :: 0 <= k < |s| && IsHtmlSpecial(s[k])) ==> |Escape(s)| > |s|
  {
    if s != [] {
      EscapeChangesIff(s[1..]);
      assert forall k :: 1 <= k < |s| ==> s[k] == s[1..][k - 1];
      if IsHtmlSpecial(s[0]) {
        assert |EscapeChar(s[0])| > 1;
      } else {
        assert EscapeChar(s[0]) == [s[0]];
        if Escape(s) == s {
          assert Escape(s[1..]) == s[1..];
        }
        if Escape(s[1..]) == s[1..] {
          assert Escape(s) == [s[0]] + s[1..] == s;
        }
      }
    }
  }

  /** Strict lexicographic order by code unit, the order the day keys are sorted in. */
  predicate StrLess(a: string, b: string) {
    if a == [] then b != []
    else if b == [] then false
    else a[0] < b[0] || (a[0] == b[0] && StrLess(a[1..], b[1..]))
  }

  lemma {:induction false} StrLessIrreflexive(a: string)
    ensures !StrLess(a, a)
  {
    if a != [] { StrLessIrreflexive(a[1..]); }
  }

  lemma {:induction false} StrLessTransitive(a: string, b: string, c: string)
    requires StrLess(a, b) && StrLess(b, c)
    ensures StrLess(a, c)
  {
    if a != [] && b != [] && c != [] && a[0] == b[0] && b[0] == c[0] {
      StrLessTransitive(a[1..], b[1..], c[1..]);
    }
  }

  lemma {:induction false} StrLessTotal(a: string, b: string)
    ensures a == b || StrLess(a, b) || StrLess(b, a)
  {
    if a != [] && b != [] && a[0] == b[0] {
      StrLessTotal(a[1..], b[1..]);
      if a[1..] == b[1..] {
        assert a == [a[0]] + a[1..] && b == [b[0]] + b[1..];
      }
    }
  }

  /** Decimal rendering of a natural number, as a template literal prints it. */
  function NatToString(n: nat): (r: string)
    ensures |r| > 0
    ensures forall k :: 0 <= k < |r| ==> IsDigit(r[k])
    decreases n
  {
    var d := ['0' + (n % 10) as char];
    if n < 10 then d else NatToString(n / 10) + d
  }

  /** The value of one decimal digit. */
  function DigitValue(c: char): (v: nat)
    requires IsDigit(c)
    ensures v < 10
  {
    (c as int) - ('0' as int)
  }

  /** A run of decimal digits read from left to right, `acc` being the value read so far. */
  function ParseDigits(s: string, acc: nat): nat
    requires forall k :: 0 <= k < |s| ==> IsDigit(s[k])
  {
    if s == [] then acc else ParseDigits(s[1..], 10 * acc + DigitValue(s[0]))
  }

  lemma {:induction false} ParseDigitsSnoc(s: string, c: char, acc: nat)
    requires forall k :: 0 <= k < |s| ==> IsDigit(s[k])
    requires IsDigit(c)
    ensures ParseDigits(s + [c], acc) == 10 * ParseDigits(s, acc) + DigitValue(c)
    decreases |s|
  {
    if s == [] {
      assert s + [c] == [c];
      assert [c][1..] == [];
    } else {
      assert (s + [c])[0] == s[0] && (s + [c])[1..] == s[1..] + [c];
      ParseDigitsSnoc(s[1..], c, 10 * acc + DigitValue(s[0]));
    }
  }

  /** Reading the rendering of `n` back gives `n`; it is "0" for zero and has no
      leading zero otherwise. */
  lemma {:induction false} NatToStringValue(n: nat)
    ensures ParseDigits(NatToString(n), 0) == n
    ensures n == 0 <==> NatToString(n) == "0"
    ensures NatToString(n)[0] == '0' ==> n == 0
    decreases n
  {
    var d := '0' + (n % 10) as char;
    if n < 10 {
      assert NatToString(n) == [d];
      assert [d][1..] == [];
    } else {
      NatToStringValue(n / 10);
      ParseDigitsSnoc(NatToString(n / 10), d, 0);
      assert NatToString(n) == NatToString(n / 10) + [d];
      assert NatToString(n)[0] == NatToString(n / 10)[0];
    }
  }
}
