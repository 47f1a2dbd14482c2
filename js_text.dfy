/** The few JavaScript string operations the dashboard's logic relies on:
    `String.prototype.includes`, `String.prototype.split` with a one-character
    separator, the global `parseInt` with no radix, the `\s` character class of
    regular expressions, and the decimal rendering of a number in a template
    literal. A Dafny `char` is a Unicode scalar value; every keyword and character
    class used here lies in the Basic Multilingual Plane, where one `char` is one
    UTF-16 code unit of the JavaScript string. */
module JsText {
  import opened Wrappers

  // ---------------------------------------------------------------------------
  // includes

  /** `sub` occurs in `s` starting at position `i`. */
  ghost predicate OccursAt(s: string, sub: string, i: int) {
    0 <= i <= |s| - |sub| && s[i..i + |sub|] == sub
  }

  /** `s.includes(sub)`, computed by trying every start position in turn. */
  predicate Includes(s: string, sub: string)
    decreases |s|
  {
    |sub| <= |s| && (s[..|sub|] == sub || Includes(s[1..], sub))
  }

  /** `includes` holds exactly when `sub` occurs at some position of `s`. */
  lemma {:induction false} IncludesIff(s: string, sub: string)
    ensures Includes(s, sub) <==> exists i :: OccursAt(s, sub, i)
    decreases |s|
  {
    if |sub| <= |s| {
      if s[..|sub|] == sub {
        assert OccursAt(s, sub, 0);
      } else {
        IncludesIff(s[1..], sub);
        if Includes(s[1..], sub) {
          var i :| OccursAt(s[1..], sub, i);
          assert s[i + 1..i + 1 + |sub|] == s[1..][i..i + |sub|];
          assert OccursAt(s, sub, i + 1);
        } else {
          forall i | OccursAt(s, sub, i) ensures false {
            if i > 0 {
              OccursInTail(s, sub, i);
            }
          }
        }
      }
    }
  }

  /** An occurrence past the first position is an occurrence in the tail. */
  lemma OccursInTail(s: string, sub: string, i: int)
    requires OccursAt(s, sub, i) && i > 0
    ensures OccursAt(s[1..], sub, i - 1)
  {
    assert s[1..][i - 1..i - 1 + |sub|] == s[i..i + |sub|];
  }

  /** A string includes every block that occurs at a known position of it. */
  lemma IncludesAt(s: string, sub: string, i: int)
    requires 0 <= i <= |s| - |sub| && s[i..i + |sub|] == sub
    ensures Includes(s, sub)
  {
    assert OccursAt(s, sub, i);
    IncludesIff(s, sub);
  }

  /** Every string includes itself at its start: `(a + b).includes(a)`. */
  lemma IncludesPrefix(a: string, b: string)
    ensures Includes(a + b, a)
  {
    assert (a + b)[0..0 + |a|] == a;
    IncludesAt(a + b, a, 0);
  }

  // ---------------------------------------------------------------------------
  // split

  /** `s.split(sep)` for a one-character separator: the pieces between
      separators, in order, empty pieces included; never an empty list. */
  function Split(s: string, sep: char): (r: seq<string>)
    ensures |r| >= 1
    decreases |s|
  {
    if |s| == 0 then [""]
    else
      var rest := Split(s[1..], sep);
      if s[0] == sep then [""] + rest else [[s[0]] + rest[0]] + rest[1..]
  }

  /** `pieces.join(sep)`. */
  function Join(pieces: seq<string>, sep: char): string
    requires |pieces| >= 1
  {
    if |pieces| == 1 then pieces[0] else pieces[0] + [sep] + Join(pieces[1..], sep)
  }

  /** Splitting loses nothing and leaves no separator inside a piece:
      joining the pieces with the separator gives back the string. */
  lemma {:induction false} SplitJoin(s: string, sep: char)
    ensures Join(Split(s, sep), sep) == s
    ensures forall k :: 0 <= k < |Split(s, sep)| ==> sep !in Split(s, sep)[k]
    decreases |s|
  {
    if |s| > 0 {
      var rest := Split(s[1..], sep);
      SplitJoin(s[1..], sep);
      if s[0] == sep {
        assert Split(s, sep) == [""] + rest;
        assert ([""] + rest)[1..] == rest;
        assert s == [] + [sep] + s[1..];
      } else {
        var r := [[s[0]] + rest[0]] + rest[1..];
        assert Split(s, sep) == r;
        if |rest| == 1 {
          assert s == [s[0]] + s[1..];
        } else {
          assert r[1..] == rest[1..];
          assert Join(rest, sep) == rest[0] + [sep] + Join(rest[1..], sep);
          assert s == [s[0]] + s[1..];
        }
      }
    }
  }

  /** A string without the separator splits into itself alone. */
  lemma {:induction false} SplitNoSeparator(s: string, sep: char)
    requires sep !in s
    ensures Split(s, sep) == [s]
    decreases |s|
  {
    if |s| > 0 {
      assert sep !in s[1..];
      SplitNoSeparator(s[1..], sep);
      assert [s[0]] + s[1..] == s;
    }
  }

  /** The first piece ends at the first separator. */
  lemma {:induction false} SplitAtFirst(a: string, b: string, sep: char)
    requires sep !in a
    ensures Split(a + [sep] + b, sep) == [a] + Split(b, sep)
    decreases |a|
  {
    if |a| == 0 {
      assert a + [sep] + b == [sep] + b;
      assert ([sep] + b)[1..] == b;
    } else {
      var s := a + [sep] + b;
      assert s[1..] == a[1..] + [sep] + b;
      assert sep !in a[1..];
      SplitAtFirst(a[1..], b, sep);
      assert [a[0]] + a[1..] == a;
    }
  }

  // ---------------------------------------------------------------------------
  // whitespace

  /** The code units matched by `\s` in a JavaScript regular expression, which are
      also the ones `parseInt` skips at the front: the WhiteSpace and
      LineTerminator code points of ECMA-262 (section 12.2 and 12.3 of the 2023
      edition), with the Unicode space separators written out. */
  predicate IsJsWhitespace(c: char) {
    var u := c as int;
    u == 0x09 || u == 0x0A || u == 0x0B || u == 0x0C || u == 0x0D || u == 0x20
    || u == 0xA0 || u == 0x1680 || (0x2000 <= u <= 0x200A)
    || u == 0x2028 || u == 0x2029 || u == 0x202F || u == 0x205F
    || u == 0x3000 || u == 0xFEFF
  }

  /** The line terminators, which `.` in a regular expression does not match. */
  predicate IsLineTerminator(c: char) {
    var u := c as int;
    u == 0x0A || u == 0x0D || u == 0x2028 || u == 0x2029
  }

  // ---------------------------------------------------------------------------
  // parseInt

  predicate IsDecimalDigit(c: char) { '0' <= c <= '9' }

  /** Whether `c` is a digit of base 10 or base 16 (either case of letter). */
  predicate IsRadixDigit(c: char, radix: int) {
    IsDecimalDigit(c) || (radix == 16 && ('a' <= c <= 'f' || 'A' <= c <= 'F'))
  }

  function DigitValue(c: char): (d: nat)
    ensures IsDecimalDigit(c) ==> d < 10
    ensures d < 16 || !IsRadixDigit(c, 16)
  {
    if IsDecimalDigit(c) then c as int - '0' as int
    else if 'a' <= c <= 'f' then c as int - 'a' as int + 10
    else if 'A' <= c <= 'F' then c as int - 'A' as int + 10
    else 0
  }

  /** The value of a string of digits read most significant first. */
  function DigitsValue(z: string, radix: int): int
  {
    if |z| == 0 then 0 else DigitsValue(z[..|z| - 1], radix) * radix + DigitValue(z[|z| - 1])
  }

  /** The longest prefix of `s` made of digits of the radix. */
  function DigitPrefix(s: string, radix: int): (z: string)
    ensures z <= s
    ensures forall k :: 0 <= k < |z| ==> IsRadixDigit(z[k], radix)
    ensures |z| < |s| ==> !IsRadixDigit(s[|z|], radix)
  {
    if |s| > 0 && IsRadixDigit(s[0], radix) then [s[0]] + DigitPrefix(s[1..], radix) else []
  }

  /** `s` without its leading whitespace: what is removed is all whitespace, and
      what is left does not start with whitespace. */
  function TrimStart(s: string): (t: string)
    ensures |t| <= |s| && t == s[|s| - |t|..]
    ensures forall k :: 0 <= k < |s| - |t| ==> IsJsWhitespace(s[k])
    ensures |t| > 0 ==> !IsJsWhitespace(t[0])
  {
    if |s| > 0 && IsJsWhitespace(s[0]) then TrimStart(s[1..]) else s
  }

  /** The global `parseInt(s)` with no radix argument (ECMA-262 section 19.2.5):
      skip leading whitespace, take an optional sign, read base 16 after a
      "0x" or "0X" prefix and base 10 otherwise, and stop at the first code unit
      that is not a digit; `None` stands for `NaN`, returned when no digit was read.
      The sign of a negative zero is not kept. */
  function ParseInt(s: string): Option<int>
  {
    var t := TrimStart(s);
    if |t| > 0 && t[0] == '-' then Negate(ParseMagnitude(t[1..]))
    else if |t| > 0 && t[0] == '+' then ParseMagnitude(t[1..])
    else ParseMagnitude(t)
  }

  function Negate(r: Option<int>): Option<int> {
    match r
    case None => None
    case Some(v) => Some(-v)
  }

  predicate HasHexPrefix(u: string) {
    |u| >= 2 && u[0] == '0' && (u[1] == 'x' || u[1] == 'X')
  }

  /** The unsigned part of `parseInt`, after whitespace and sign. */
  function ParseMagnitude(u: string): Option<int>
  {
    if HasHexPrefix(u) then ReadDigits(u[2..], 16) else ReadDigits(u, 10)
  }

  /** The value of the leading digits of `body`, or `None` when there are none. */
  function ReadDigits(body: string, radix: int): Option<int>
  {
    var z := DigitPrefix(body, radix);
    if |z| == 0 then None else Some(DigitsValue(z, radix))
  }

  lemma DigitIsNotWhitespace(c: char)
    requires IsDecimalDigit(c)
    ensures !IsJsWhitespace(c) && c != '-' && c != '+'
  {
  }

  /** A string of decimal digits is its own digit prefix. */
  lemma {:induction false} DigitPrefixOfDigits(s: string)
    requires forall k :: 0 <= k < |s| ==> IsDecimalDigit(s[k])
    ensures DigitPrefix(s, 10) == s
  {
    if |s| > 0 {
      DigitPrefixOfDigits(s[1..]);
      assert [s[0]] + s[1..] == s;
    }
  }

  /** `parseInt` of a non-empty string of decimal digits is its decimal value,
      leading zeros included ("09" reads as 9). */
  lemma ParseIntOfDigits(s: string)
    requires |s| > 0 && forall k :: 0 <= k < |s| ==> IsDecimalDigit(s[k])
    ensures ParseInt(s) == Some(DigitsValue(s, 10))
  {
    TrimStartOfDigit(s);
    assert !HasHexPrefix(s) by {
      if |s| >= 2 { assert IsDecimalDigit(s[1]); }
    }
    DigitPrefixOfDigits(s);
  }

  /** Trimming stops at a leading digit. */
  lemma TrimStartOfDigit(s: string)
    requires |s| > 0 && IsDecimalDigit(s[0])
    ensures TrimStart(s) == s && s[0] != '-' && s[0] != '+'
  {
    DigitIsNotWhitespace(s[0]);
  }

  // ---------------------------------------------------------------------------
  // number rendering

  function DigitChar(d: nat): (c: char)
    requires d < 10
    ensures IsDecimalDigit(c) && DigitValue(c) == d
  {
    ('0' as int + d) as char
  }

  /** The decimal rendering of a non-negative integer, as `${n}` produces it. */
  function NatToString(n: nat): (s: string)
    ensures |s| > 0
    ensures forall k :: 0 <= k < |s| ==> IsDecimalDigit(s[k])
    ensures s[0] == '0' <==> n == 0
    ensures |s| == 1 || s[0] != '0'
  {
    if n < 10 then [DigitChar(n)] else NatToString(n / 10) + [DigitChar(n % 10)]
  }

  /** Rendering and reading back a number are inverse. */
  lemma {:induction false} NatToStringValue(n: nat)
    ensures DigitsValue(NatToString(n), 10) == n
  {
    var s := NatToString(n);
    if n < 10 {
      assert s[..0] == [];
    } else {
      NatToStringValue(n / 10);
      assert s[..|s| - 1] == NatToString(n / 10);
    }
  }

  /** `parseInt` reads back what `${n}` wrote. */
  lemma ParseIntOfNatToString(n: nat)
    ensures ParseInt(NatToString(n)) == Some(n)
  {
    ParseIntOfDigits(NatToString(n));
    NatToStringValue(n);
  }

  /** A number below 100 written with two digits, zero-padded as clocks show it. */
  function TwoDigits(n: nat): (s: string)
    requires n < 100
    ensures |s| == 2 && IsDecimalDigit(s[0]) && IsDecimalDigit(s[1])
    ensures DigitsValue(s, 10) == n
  {
    var s := [DigitChar(n / 10), DigitChar(n % 10)];
    assert s[..1] == [s[0]] && s[..1][..0] == [];
    assert DigitsValue(s[..1], 10) == n / 10;
    s
  }

  /** Two-digit renderings of different numbers differ. */
  lemma TwoDigitsInjective(a: nat, b: nat)
    requires a < 100 && b < 100 && TwoDigits(a) == TwoDigits(b)
    ensures a == b
  {
  }

  /** `parseInt` reads back a zero-padded two-digit number. */
  lemma ParseIntOfTwoDigits(n: nat)
    requires n < 100
    ensures ParseInt(TwoDigits(n)) == Some(n)
  {
    var s := TwoDigits(n);
    assert forall k :: 0 <= k < |s| ==> IsDecimalDigit(s[k]);
    ParseIntOfDigits(s);
  }
}
