/** The two string operations the flow controller relies on: JavaScript's
    `String.prototype.trim` (used by the "is this answered" test) and the
    decimal rendering of a non-negative number inside a template literal. */
module Text {

  /** The characters `trim` removes: ECMAScript WhiteSpace (tab, vertical
      tab, form feed, zero width no-break space and every Zs space separator)
      and LineTerminator (line feed, carriage return, U+2028, U+2029). */
  predicate IsJsWhitespace(c: char) {
    || c == '\t' || c == '\n' || c == '\U{000B}' || c == '\U{000C}' || c == '\r'
    || c == ' ' || c == '\U{00A0}' || c == '\U{1680}'
    || ('\U{2000}' <= c <= '\U{200A}')
    || c == '\U{2028}' || c == '\U{2029}' || c == '\U{202F}' || c == '\U{205F}'
    || c == '\U{3000}' || c == '\U{FEFF}'
  }

  /** Drops leading whitespace. */
  function TrimStart(s: string): string {
    if |s| > 0 && IsJsWhitespace(s[0]) then TrimStart(s[1..]) else s
  }

  /** Drops trailing whitespace. */
  function TrimEnd(s: string): string {
    if |s| > 0 && IsJsWhitespace(s[|s| - 1]) then TrimEnd(s[..|s| - 1]) else s
  }

  /** `TrimStart` keeps a suffix of `s` that does not start with whitespace,
      and everything it dropped was whitespace. */
  lemma {:induction false} TrimStartSpec(s: string)
    ensures |TrimStart(s)| <= |s| && TrimStart(s) == s[|s| - |TrimStart(s)|..]
    ensures TrimStart(s) == [] || !IsJsWhitespace(TrimStart(s)[0])
    ensures forall i :: 0 <= i < |s| - |TrimStart(s)| ==> IsJsWhitespace(s[i])
  {
    if |s| > 0 && IsJsWhitespace(s[0]) {
      TrimStartSpec(s[1..]);
      var r := TrimStart(s[1..]);
      forall i | 0 <= i < |s| - |r| ensures IsJsWhitespace(s[i]) {
        if i > 0 {
          assert s[i] == s[1..][i - 1];
        }
      }
    }
  }

  /** `TrimEnd` keeps a prefix of `s` that does not end with whitespace,
      and everything it dropped was whitespace. */
  lemma {:induction false} TrimEndSpec(s: string)
    ensures |TrimEnd(s)| <= |s| && TrimEnd(s) == s[..|TrimEnd(s)|]
    ensures TrimEnd(s) == [] || !IsJsWhitespace(TrimEnd(s)[|TrimEnd(s)| - 1])
    ensures forall i :: |TrimEnd(s)| <= i < |s| ==> IsJsWhitespace(s[i])
  {
    if |s| > 0 && IsJsWhitespace(s[|s| - 1]) {
      TrimEndSpec(s[..|s| - 1]);
      var r := TrimEnd(s[..|s| - 1]);
      forall i | |r| <= i < |s| ensures IsJsWhitespace(s[i]) {
        if i < |s| - 1 {
          assert s[i] == s[..|s| - 1][i];
        }
      }
    }
  }

  /** `s.trim()`. */
  function Trim(s: string): string {
    TrimEnd(TrimStart(s))
  }

  /** `Boolean(s.trim())`: the trimmed string is not empty. */
  predicate NonBlank(s: string) {
    Trim(s) != []
  }

  /** A string is non-blank exactly when it holds a character that `trim`
      does not remove; in particular the empty string is blank. */
  lemma NonBlankIff(s: string)
    ensures NonBlank(s) <==> exists i :: 0 <= i < |s| && !IsJsWhitespace(s[i])
  {
    var t := TrimStart(s);
    var k := |s| - |t|;
    TrimStartSpec(s);
    TrimEndSpec(t);
    if NonBlank(s) {
      var r := TrimEnd(t);
      assert r[0] == t[0] == s[k];
    } else {
      // every character of t would be removed, yet t cannot start with one
      assert t == [];
    }
  }

  function DigitChar(d: nat): (c: char)
    requires d < 10
    ensures '0' <= c <= '9' && c as int - '0' as int == d
  {
    "0123456789"[d]
  }

  /** `${n}` for a non-negative integer: its decimal digits, no leading zero. */
  function NatToString(n: nat): (r: string)
    ensures |r| >= 1
    ensures forall i :: 0 <= i < |r| ==> '0' <= r[i] <= '9'
    ensures |r| > 1 ==> r[0] != '0'
  {
    if n < 10 then [DigitChar(n)] else NatToString(n / 10) + [DigitChar(n % 10)]
  }

  /** `${i}` for an integer: a minus sign before the digits of a negative one. */
  function IntToString(i: int): (r: string)
    ensures i >= 0 ==> r == NatToString(i)
    ensures i < 0 ==> r == "-" + NatToString(-i)
  {
    if i < 0 then "-" + NatToString(-i) else NatToString(i)
  }

  /** Reads a string of decimal digits back as a number. */
  function DigitsValue(s: string): nat
    requires forall i :: 0 <= i < |s| ==> '0' <= s[i] <= '9'
  {
    if s == [] then 0 else DigitsValue(s[..|s| - 1]) * 10 + (s[|s| - 1] as int - '0' as int)
  }

  /** The rendering loses nothing: the digits read back as the number. */
  lemma {:induction false} NatToStringRoundTrip(n: nat)
    ensures DigitsValue(NatToString(n)) == n
  {
    if n >= 10 {
      var p := NatToString(n / 10);
      var r := NatToString(n);
      assert r[..|r| - 1] == p;
      NatToStringRoundTrip(n / 10);
    }
  }

  /** The signed rendering loses nothing either: a leading minus exactly for
      a negative number, then the digits of its magnitude. */
  lemma IntToStringRoundTrip(i: int)
    ensures |IntToString(i)| >= 1
    ensures IntToString(i)[0] == '-' <==> i < 0
    ensures var digits := if i < 0 then IntToString(i)[1..] else IntToString(i);
      && (forall k :: 0 <= k < |digits| ==> '0' <= digits[k] <= '9')
      && DigitsValue(digits) == (if i < 0 then -i else i)
  {
    var m := if i < 0 then -i else i;
    NatToStringRoundTrip(m);
    if i < 0 {
      assert IntToString(i)[1..] == NatToString(m);
    }
  }
}
