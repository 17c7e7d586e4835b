/** Strings as the front end treats them: JavaScript whitespace (as used by
    `trim()` and the regular-expression class `\s`), ASCII lower-casing,
    substring search (`includes`), decimal printing of numbers
    (`toString()` and template strings) and the leading-digits reading of
    `parseFloat`. */
module Text {

  import opened Wrappers

  type String = seq<char>

  /** The whitespace characters `trim()` and `\s` recognise: the ECMAScript
      WhiteSpace and LineTerminator productions, that is tab, vertical tab,
      form feed, the byte-order mark, line feed, carriage return, the line
      and paragraph separators, and every space separator of Unicode
      category Zs (space, no-break space, ogham space mark, U+2000 to
      U+200A, narrow no-break space, medium mathematical space and
      ideographic space). */
  predicate IsWhitespace(c: char) {
    c == '\t' || c == '\U{000B}' || c == '\U{000C}' || c == '\U{FEFF}'
    || c == '\n' || c == '\r' || c == '\U{2028}' || c == '\U{2029}'
    || IsSpaceSeparator(c)
  }

  /** Unicode general category Zs. */
  predicate IsSpaceSeparator(c: char) {
    c == ' ' || c == '\U{00A0}' || c == '\U{1680}' || ('\U{2000}' <= c <= '\U{200A}')
    || c == '\U{202F}' || c == '\U{205F}' || c == '\U{3000}'
  }

  /** `s.trim() === ""`: the string has no non-whitespace character. */
  predicate IsBlank(s: String) {
    forall i :: 0 <= i < |s| ==> IsWhitespace(s[i])
  }

  /** Space separators beyond ASCII are blank, as `trim()` strips them. */
  lemma UnicodeSpacesAreBlank()
    ensures IsBlank("\U{3000}") && IsBlank("\U{2003}\U{1680}\U{202F}\U{205F}")
    ensures !IsBlank("\U{3000}x")
  {
    assert "\U{3000}x"[1] == 'x' && !IsWhitespace('x');
  }

  /** `s.length`: the number of UTF-16 code units, two for a character
      outside the Basic Multilingual Plane and one for any other. */
  function Utf16Length(s: String): (r: nat)
    ensures |s| <= r <= 2 * |s|
    ensures (forall i :: 0 <= i < |s| ==> s[i] as int < 0x10000) ==> r == |s|
  {
    if s == [] then 0
    else
      assert forall i :: 0 <= i < |s[1..]| ==> s[1..][i] == s[i + 1];
      (if s[0] as int < 0x10000 then 1 else 2) + Utf16Length(s[1..])
  }

  /** Two characters outside the Basic Multilingual Plane are four code
      units long. */
  lemma Utf16LengthAstral()
    ensures Utf16Length("\U{1F600}\U{1F600}") == 4
    ensures Utf16Length("ab") == 2
  {
    assert "\U{1F600}\U{1F600}"[1..] == "\U{1F600}";
    assert "ab"[1..] == "b";
  }

  function LowerChar(c: char): (r: char)
    ensures 'A' <= c <= 'Z' ==> 'a' <= r <= 'z'
    ensures !('A' <= c <= 'Z') ==> r == c
  {
    if 'A' <= c <= 'Z' then (c as int - 'A' as int + 'a' as int) as char else c
  }

  /** `toLowerCase()`, restricted to ASCII letters. */
  function Lower(s: String): (r: String)
    ensures |r| == |s|
    ensures forall i :: 0 <= i < |s| ==> r[i] == LowerChar(s[i])
  {
    seq(|s|, i requires 0 <= i < |s| => LowerChar(s[i]))
  }

  predicate OccursAt(hay: String, needle: String, i: nat) {
    i + |needle| <= |hay| && hay[i..i + |needle|] == needle
  }

  /** `hay.includes(needle)`. */
  predicate Contains(hay: String, needle: String) {
    exists i: nat :: i <= |hay| && OccursAt(hay, needle, i)
  }

  lemma ContainsEmpty(hay: String)
    ensures Contains(hay, [])
  {
    assert OccursAt(hay, [], 0);
  }

  // ----- decimal numbers ---------------------------------------------------

  predicate IsDigit(c: char) { '0' <= c <= '9' }

  predicate AllDigits(s: String) {
    forall i :: 0 <= i < |s| ==> IsDigit(s[i])
  }

  function DigitChar(d: nat): (c: char)
    requires d < 10
    ensures IsDigit(c)
  {
    ('0' as int + d) as char
  }

  function DigitValue(c: char): (d: nat)
    requires IsDigit(c)
    ensures d < 10
  {
    c as int - '0' as int
  }

  /** `n.toString()` for a non-negative integer. */
  function NatToString(n: nat): (s: String)
    ensures |s| >= 1 && AllDigits(s)
  {
    if n < 10 then [DigitChar(n)] else NatToString(n / 10) + [DigitChar(n % 10)]
  }

  /** `n.toString()` for any integer. */
  function IntToString(n: int): (s: String)
    ensures |s| >= 1
    ensures n >= 0 <==> s[0] != '-'
  {
    if n < 0 then "-" + NatToString(-n) else NatToString(n)
  }

  /** The value of a string of decimal digits. */
  function ParseDigits(s: String): nat
    requires AllDigits(s)
  {
    if s == [] then 0 else ParseDigits(s[..|s| - 1]) * 10 + DigitValue(s[|s| - 1])
  }

  /** Printing a number and reading its digits back gives the number. */
  lemma {:induction false} ParseNatToString(n: nat)
    ensures ParseDigits(NatToString(n)) == n
  {
    if n >= 10 {
      var s := NatToString(n);
      assert s[..|s| - 1] == NatToString(n / 10);
      ParseNatToString(n / 10);
    }
  }

  /** Different numbers print differently. */
  lemma NatToStringInjective(m: nat, n: nat)
    requires NatToString(m) == NatToString(n)
    ensures m == n
  {
    ParseNatToString(m);
    ParseNatToString(n);
  }

  /** Only one position can be the first non-digit of a string. */
  lemma FirstNonDigitUnique(x: String, i: nat, j: nat)
    requires i < |x| && j < |x|
    requires (forall k :: 0 <= k < i ==> IsDigit(x[k])) && !IsDigit(x[i])
    requires (forall k :: 0 <= k < j ==> IsDigit(x[k])) && !IsDigit(x[j])
    ensures i == j
  {
  }

  /** A number followed by a non-digit separator reads back off the front
      of a string: the number and the rest are both determined. */
  lemma NumberPrefixUnique(m: nat, n: nat, c: char, s: String, t: String)
    requires !IsDigit(c)
    requires NatToString(m) + [c] + s == NatToString(n) + [c] + t
    ensures m == n && s == t
  {
    var a := NatToString(m);
    var b := NatToString(n);
    var x := a + [c] + s;
    FirstNonDigitUnique(x, |a|, |b|);
    assert a == x[..|a|] == b;
    NatToStringInjective(m, n);
    assert s == x[|a| + 1..] == t;
  }

  /** A common prefix can be dropped from both sides of an equation. */
  lemma AppendCancelLeft(p: String, s: String, t: String)
    requires p + s == p + t
    ensures s == t
  {
    assert s == (p + s)[|p|..];
    assert t == (p + t)[|p|..];
  }

  /** Three numbers joined by a separator. */
  function JoinNats(m: nat, n: nat, k: nat, c: char): String {
    NatToString(m) + [c] + NatToString(n) + [c] + NatToString(k)
  }

  /** With a non-digit separator the three numbers read back. */
  lemma JoinNatsInjective(m: nat, n: nat, k: nat, m': nat, n': nat, k': nat, c: char)
    requires !IsDigit(c)
    requires JoinNats(m, n, k, c) == JoinNats(m', n', k', c)
    ensures m == m' && n == n' && k == k'
  {
    var t := NatToString(n) + [c] + NatToString(k);
    var t' := NatToString(n') + [c] + NatToString(k');
    assert JoinNats(m, n, k, c) == NatToString(m) + [c] + t;
    assert JoinNats(m', n', k', c) == NatToString(m') + [c] + t';
    NumberPrefixUnique(m, m', c, t, t');
    NumberPrefixUnique(n, n', c, NatToString(k), NatToString(k'));
    NatToStringInjective(k, k');
  }

  /** The longest prefix of `s` made of digits. */
  function LeadingDigits(s: String): (r: String)
    ensures AllDigits(r) && |r| <= |s| && r == s[..|r|]
    ensures |r| < |s| ==> !IsDigit(s[|r|])
  {
    if s == [] || !IsDigit(s[0]) then [] else [s[0]] + LeadingDigits(s[1..])
  }

  lemma {:induction false} LeadingDigitsOfDigits(s: String)
    requires AllDigits(s)
    ensures LeadingDigits(s) == s
  {
    if s != [] {
      LeadingDigitsOfDigits(s[1..]);
    }
  }

  /** `parseFloat(s) || 0` for the strings the draft stores: the value of
      the leading digits, and 0 when there are none (the `NaN` case). */
  function ParseFloatOrZero(s: String): (r: nat)
    ensures LeadingDigits(s) == [] ==> r == 0
  {
    var d := LeadingDigits(s);
    if d == [] then 0 else ParseDigits(d)
  }

  lemma ParseFloatOfNat(n: nat)
    ensures ParseFloatOrZero(NatToString(n)) == n
  {
    LeadingDigitsOfDigits(NatToString(n));
    ParseNatToString(n);
  }

  // ----- the e-mail pattern ^[^\s@]+@[^\s@]+\.[^\s@]+$ ----------------------

  /** Every character belongs to the class `[^\s@]`. */
  predicate Plain(s: String) {
    forall i :: 0 <= i < |s| ==> !IsWhitespace(s[i]) && s[i] != '@'
  }

  /** The pattern read literally: a non-empty plain local part, `@`, a
      non-empty plain part, a dot, and a non-empty plain tail. */
  ghost predicate MatchesEmailPattern(s: String) {
    exists i: nat, j: nat ::
      0 < i && i + 1 < j && j + 1 < |s| && s[i] == '@' && s[j] == '.'
      && Plain(s[..i]) && Plain(s[i + 1..j]) && Plain(s[j + 1..])
  }

  function IndexOf(s: String, c: char): (r: Option<nat>)
    ensures r.Some? ==> r.value < |s| && s[r.value] == c && c !in s[..r.value]
    ensures r.None? ==> c !in s
  {
    if s == [] then None
    else if s[0] == c then Some(0)
    else match IndexOf(s[1..], c)
      case None => None
      case Some(k) => assert s[1..][..k] == s[1..k + 1]; Some(k + 1)
  }

  /** The first occurrence is the only position before which `c` is absent. */
  lemma IndexOfFirst(s: String, c: char, i: nat)
    requires i < |s| && s[i] == c && c !in s[..i]
    ensures IndexOf(s, c) == Some(i)
  {
  }

  /** The executable check: split at the first `@`; the domain must be plain
      and hold a dot that is neither its first nor its last character. */
  predicate IsValidEmail(s: String) {
    match IndexOf(s, '@')
    case None => false
    case Some(at) =>
      var domain := s[at + 1..];
      at > 0 && Plain(s[..at]) && Plain(domain) && |domain| >= 3 && '.' in domain[1..|domain| - 1]
  }

  lemma EmailCheckSound(s: String)
    requires IsValidEmail(s)
    ensures MatchesEmailPattern(s)
  {
    var at := IndexOf(s, '@').value;
    var domain := s[at + 1..];
    var inner := domain[1..|domain| - 1];
    var k :| 0 <= k < |inner| && inner[k] == '.';
    var j := at + 2 + k;
    assert s[j] == '.';
    assert s[at + 1..j] == domain[..k + 1];
    assert s[j + 1..] == domain[k + 2..];
    PlainSlice(domain, 0, k + 1);
    PlainSlice(domain, k + 2, |domain|);
    assert 0 < at && at + 1 < j && j + 1 < |s| && s[at] == '@' && s[j] == '.'
      && Plain(s[..at]) && Plain(s[at + 1..j]) && Plain(s[j + 1..]);
  }

  /** A slice of a plain string is plain. */
  lemma PlainSlice(s: String, i: nat, j: nat)
    requires Plain(s) && i <= j <= |s|
    ensures Plain(s[i..j])
  {
    forall t | 0 <= t < j - i ensures !IsWhitespace(s[i..j][t]) && s[i..j][t] != '@' {
      assert s[i..j][t] == s[i + t];
    }
  }

  lemma EmailCheckComplete(s: String, i: nat, j: nat)
    requires 0 < i && i + 1 < j && j + 1 < |s| && s[i] == '@' && s[j] == '.'
    requires Plain(s[..i]) && Plain(s[i + 1..j]) && Plain(s[j + 1..])
    ensures IsValidEmail(s)
  {
    assert '@' !in s[..i];
    IndexOfFirst(s, '@', i);
    var domain := s[i + 1..];
    forall t | 0 <= t < |domain|
      ensures !IsWhitespace(domain[t]) && domain[t] != '@'
    {
      if i + 1 + t < j {
        assert domain[t] == s[i + 1..j][t];
      } else if i + 1 + t > j {
        assert domain[t] == s[j + 1..][t - (j - i)];
      }
    }
    assert domain[1..|domain| - 1][j - i - 2] == '.';
  }

  /** The executable check accepts exactly the strings the pattern matches. */
  lemma EmailCheckMatchesPattern(s: String)
    ensures IsValidEmail(s) <==> MatchesEmailPattern(s)
  {
    if IsValidEmail(s) {
      EmailCheckSound(s);
    }
    if MatchesEmailPattern(s) {
      var i: nat, j: nat :| 0 < i && i + 1 < j && j + 1 < |s| && s[i] == '@' && s[j] == '.'
        && Plain(s[..i]) && Plain(s[i + 1..j]) && Plain(s[j + 1..]);
      EmailCheckComplete(s, i, j);
    }
  }

  /** An ideographic space in the local part is a `\s`, so the email is
      rejected. */
  lemma SpaceInEmailRejected()
    ensures !IsValidEmail("a\U{3000}b@c.d")
  {
    assert IndexOf("a\U{3000}b@c.d", '@') == Some(3) by {
      IndexOfFirst("a\U{3000}b@c.d", '@', 3);
    }
    assert "a\U{3000}b@c.d"[..3][1] == '\U{3000}';
  }
}
