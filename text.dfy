/** String operations of the JavaScript runtime that the tutor relies on:
    `includes`, `join`, `split` on one character, `toLowerCase` and
    `toUpperCase` (per character), and decimal formatting of numbers,
    including `toFixed(0)`. Strings are sequences of Unicode characters. */
module Text {
  import opened Wrappers

  /** JavaScript truthiness of an optional string: present and not empty. */
  predicate Truthy(o: Option<string>): (b: bool)
    ensures b <==> o.GetOr("") != ""
    ensures b ==> o.GetOr("") == o.value
  {
    o.Some? && o.value != ""
  }

  // ---------------------------------------------------------------------
  // includes

  /** `s.includes(sub)`: `sub` occurs in `s` at some position. */
  predicate Contains(s: string, sub: string): (b: bool)
    ensures b ==> |sub| <= |s|
    ensures |sub| == 0 ==> b
    decreases |s|
  {
    sub <= s || (|s| > 0 && Contains(s[1..], sub))
  }

  /** `sub` is found in `s` starting at index `i`. */
  predicate OccursAt(s: string, sub: string, i: int) {
    0 <= i <= |s| - |sub| && s[i..i + |sub|] == sub
  }

  /** `Contains` holds exactly when `sub` is found at some index of `s`. */
  lemma {:induction false} ContainsAt(s: string, sub: string)
    ensures Contains(s, sub) <==> exists i :: OccursAt(s, sub, i)
    decreases |s|
  {
    if sub <= s {
      assert OccursAt(s, sub, 0);
    } else if |s| == 0 {
    } else {
      forall i | 0 < i && OccursAt(s, sub, i)
        ensures OccursAt(s[1..], sub, i - 1)
      {
        OccursTail(s, sub, i - 1);
      }
      assert !OccursAt(s, sub, 0);
      ContainsAt(s[1..], sub);
      if Contains(s[1..], sub) {
        var i :| OccursAt(s[1..], sub, i);
        OccursTail(s, sub, i);
      }
    }
  }

  /** An occurrence in the tail of `s` is one in `s`, one position later. */
  lemma OccursTail(s: string, sub: string, i: nat)
    requires |s| > 0
    ensures OccursAt(s[1..], sub, i) <==> OccursAt(s, sub, i + 1)
  {
    if i + |sub| <= |s| - 1 {
      assert s[1..][i..i + |sub|] == s[i + 1..i + 1 + |sub|];
    }
  }

  /** Adding text on either side never removes an occurrence. */
  lemma ContainsExtend(s: string, sub: string, before: string, after: string)
    requires Contains(s, sub)
    ensures Contains(before + s + after, sub)
  {
    ContainsAt(s, sub);
    var i :| OccursAt(s, sub, i);
    var t := before + s + after;
    assert t[|before| + i..|before| + i + |sub|] == s[i..i + |sub|];
    assert OccursAt(t, sub, |before| + i);
    ContainsAt(t, sub);
  }

  // ---------------------------------------------------------------------
  // join and split

  /** `parts.join(sep)`. */
  function Join(parts: seq<string>, sep: string): string
  {
    if |parts| == 0 then ""
    else if |parts| == 1 then parts[0]
    else parts[0] + sep + Join(parts[1..], sep)
  }

  /** Joining two non-empty lists is joining each and putting one
      separator between them. */
  lemma {:induction false} JoinConcat(a: seq<string>, b: seq<string>, sep: string)
    requires |a| > 0 && |b| > 0
    ensures Join(a + b, sep) == Join(a, sep) + sep + Join(b, sep)
    decreases |a|
  {
    if |a| == 1 {
      assert (a + b)[1..] == b;
    } else {
      assert (a + b)[1..] == a[1..] + b;
      JoinConcat(a[1..], b, sep);
    }
  }

  /** `s.split(sep)` for a one-character separator: the pieces between the
      separators, empty ones included, so there is always at least one. */
  function Split(s: string, sep: char): (parts: seq<string>)
    ensures |parts| >= 1
    ensures forall i :: 0 <= i < |parts| ==> sep !in parts[i]
    ensures Join(parts, [sep]) == s
    decreases |s|
  {
    if |s| == 0 then [""]
    else
      var rest := Split(s[1..], sep);
      if s[0] == sep then
        assert s == [sep] + Join(rest, [sep]);
        [""] + rest
      else
        var parts := [[s[0]] + rest[0]] + rest[1..];
        assert parts[1..] == rest[1..];
        assert s == [s[0]] + s[1..];
        parts
  }

  /** The three facts in Split's contract determine the pieces: any other
      list of separator-free pieces that joins back to `s` is Split's. */
  lemma {:induction false} SplitUnique(s: string, sep: char, parts: seq<string>)
    requires |parts| >= 1
    requires forall i :: 0 <= i < |parts| ==> sep !in parts[i]
    requires Join(parts, [sep]) == s
    ensures parts == Split(s, sep)
    decreases |s|, |parts[0]|
  {
    if |s| == 0 {
    } else if |parts[0]| == 0 {
      assert s == [sep] + Join(parts[1..], [sep]);
      assert s[1..] == Join(parts[1..], [sep]);
      SplitUnique(s[1..], sep, parts[1..]);
      assert parts == [""] + parts[1..];
    } else {
      var w := parts[0];
      var shorter := [w[1..]] + parts[1..];
      assert w == [w[0]] + w[1..];
      assert w[0] in w;
      assert Join(parts, [sep]) == [w[0]] + Join(shorter, [sep]) by {
        if |parts| == 1 {
        } else {
          assert shorter[1..] == parts[1..];
        }
      }
      assert s[0] == w[0] && s[1..] == Join(shorter, [sep]);
      forall i | 0 <= i < |shorter| ensures sep !in shorter[i] {
        if i == 0 {
          assert forall c :: c in w[1..] ==> c in w;
        } else {
          assert shorter[i] == parts[i];
        }
      }
      SplitUnique(s[1..], sep, shorter);
    }
  }

  // ---------------------------------------------------------------------
  // case mapping

  /** Lower case of one character: ASCII letters and the nine Polish
      letters with diacritics; every other character maps to itself. */
  function LowerChar(c: char): char
  {
    if 'A' <= c <= 'Z' then (c as int - 'A' as int + 'a' as int) as char
    else match c
      case 'Ą' => 'ą' case 'Ć' => 'ć' case 'Ę' => 'ę' case 'Ł' => 'ł' case 'Ń' => 'ń'
      case 'Ó' => 'ó' case 'Ś' => 'ś' case 'Ź' => 'ź' case 'Ż' => 'ż'
      case _ => c
  }

  /** Upper case of one character, the inverse table of LowerChar. */
  function UpperChar(c: char): char
  {
    if 'a' <= c <= 'z' then (c as int - 'a' as int + 'A' as int) as char
    else match c
      case 'ą' => 'Ą' case 'ć' => 'Ć' case 'ę' => 'Ę' case 'ł' => 'Ł' case 'ń' => 'Ń'
      case 'ó' => 'Ó' case 'ś' => 'Ś' case 'ź' => 'Ź' case 'ż' => 'Ż'
      case _ => c
  }

  /** `s.toLowerCase()`, character by character. */
  function ToLower(s: string): (r: string)
    ensures |r| == |s| && forall i :: 0 <= i < |s| ==> r[i] == LowerChar(s[i])
  {
    seq(|s|, i requires 0 <= i < |s| => LowerChar(s[i]))
  }

  /** `s.toUpperCase()`, character by character. */
  function ToUpper(s: string): (r: string)
    ensures |r| == |s| && forall i :: 0 <= i < |s| ==> r[i] == UpperChar(s[i])
  {
    seq(|s|, i requires 0 <= i < |s| => UpperChar(s[i]))
  }

  /** An occurrence survives lower-casing: if `s` contains `sub`, the lower
      case of `s` contains the lower case of `sub`. */
  lemma ContainsToLower(s: string, sub: string)
    requires Contains(s, sub)
    ensures Contains(ToLower(s), ToLower(sub))
  {
    ContainsAt(s, sub);
    var i :| OccursAt(s, sub, i);
    assert ToLower(s)[i..i + |sub|] == ToLower(sub);
    assert OccursAt(ToLower(s), ToLower(sub), i);
    ContainsAt(ToLower(s), ToLower(sub));
  }

  // ---------------------------------------------------------------------
  // numbers

  function DigitChar(d: nat): char
    requires d < 10
  {
    ('0' as int + d) as char
  }

  /** `s` is a string of decimal digits. */
  predicate IsDigits(s: string) {
    forall i :: 0 <= i < |s| ==> '0' <= s[i] <= '9'
  }

  /** The decimal numeral that JavaScript prints for a non-negative integer. */
  function NatToString(n: nat): (r: string)
    ensures |r| >= 1 && IsDigits(r)
    ensures r[0] == '0' ==> n == 0
  {
    if n < 10 then [DigitChar(n)] else NatToString(n / 10) + [DigitChar(n % 10)]
  }

  /** The value of a string of decimal digits. */
  function DigitsValue(s: string): nat
    requires IsDigits(s)
  {
    if |s| == 0 then 0 else 10 * DigitsValue(s[..|s| - 1]) + (s[|s| - 1] as int - '0' as int)
  }

  /** NatToString is read back as the number it prints. */
  lemma {:induction false} NatToStringValue(n: nat)
    ensures DigitsValue(NatToString(n)) == n
  {
    if n >= 10 {
      NatToStringValue(n / 10);
      var s := NatToString(n);
      assert s[..|s| - 1] == NatToString(n / 10);
    }
  }

  /** The numeral JavaScript prints for an integer (`${n}`). */
  function IntToString(n: int): (r: string)
    ensures |r| >= 1
    ensures (r[0] == '-') <==> n < 0
    ensures n >= 0 ==> IsDigits(r) && DigitsValue(r) == n
    ensures n < 0 ==> IsDigits(r[1..]) && DigitsValue(r[1..]) == -n
  {
    NatToStringValue(if n < 0 then -n else n);
    if n < 0 then
      assert ("-" + NatToString(-n))[1..] == NatToString(-n);
      "-" + NatToString(-n)
    else NatToString(n)
  }

  /** The integer nearest to a non-negative real, the larger one on a tie. */
  function RoundHalfUp(x: real): (n: nat)
    requires x >= 0.0
    ensures n as real - 0.5 <= x < n as real + 0.5
  {
    (x + 0.5).Floor
  }

  /** `x.toFixed(0)` for a number below 10^21 in magnitude: the sign of `x`
      (so a small negative `x` prints as "-0"), then the digits of the
      integer nearest to |x|, the larger one on a tie. */
  function FixedZero(x: real): (r: string)
    ensures |r| >= 1
    ensures x >= 0.0 ==> IsDigits(r)
    ensures x < 0.0 ==> IsDigits(r[1..])
    ensures (r[0] == '-') <==> x < 0.0
    ensures x >= 0.0 ==> DigitsValue(r) == RoundHalfUp(x)
    ensures x < 0.0 ==> DigitsValue(r[1..]) == RoundHalfUp(-x)
  {
    var digits := NatToString(RoundHalfUp(if x < 0.0 then -x else x));
    NatToStringValue(RoundHalfUp(if x < 0.0 then -x else x));
    if x < 0.0 then
      assert ("-" + digits)[1..] == digits;
      "-" + digits
    else digits
  }
}
