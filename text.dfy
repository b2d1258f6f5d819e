/**
 * String operations the pages rely on, restricted to what the model needs:
 * ASCII case mapping (`toLowerCase` / `toUpperCase`), `String.prototype.includes`,
 * `split(c)[0]`, `padStart`, decimal printing of integers and a decimal `parseInt`.
 */
module Text {
  import opened Wrappers

  /** The characters `\s` matches in an ECMAScript regular expression (WhiteSpace and
      LineTerminator); `parseInt` skips the same set before the number. */
  predicate IsSpace(c: char)
  {
    c == '\t' || c == '\n' || c == '\U{000B}' || c == '\U{000C}' || c == '\r' || c == ' '
    || c == '\U{00A0}' || c == '\U{1680}' || ('\U{2000}' <= c <= '\U{200A}')
    || c == '\U{2028}' || c == '\U{2029}' || c == '\U{202F}' || c == '\U{205F}'
    || c == '\U{3000}' || c == '\U{FEFF}'
  }

  predicate IsDigit(c: char)
  {
    '0' <= c <= '9'
  }

  predicate AllDigits(s: string)
  {
    forall i :: 0 <= i < |s| ==> IsDigit(s[i])
  }

  // ---------------------------------------------------------------------------
  // Case mapping (ASCII letters only)
  // ---------------------------------------------------------------------------

  function LowerChar(c: char): char
  {
    if 'A' <= c <= 'Z' then (c as int + 32) as char else c
  }

  function UpperChar(c: char): char
  {
    if 'a' <= c <= 'z' then (c as int - 32) as char else c
  }

  /** `s.toLowerCase()` on ASCII letters: every character is mapped, nothing is added or dropped. */
  function Lower(s: string): (r: string)
    ensures |r| == |s|
    ensures forall i :: 0 <= i < |s| ==> r[i] == LowerChar(s[i])
  {
    if s == [] then [] else [LowerChar(s[0])] + Lower(s[1..])
  }

  /** `s.toUpperCase()` on ASCII letters. */
  function Upper(s: string): (r: string)
    ensures |r| == |s|
    ensures forall i :: 0 <= i < |s| ==> r[i] == UpperChar(s[i])
  {
    if s == [] then [] else [UpperChar(s[0])] + Upper(s[1..])
  }

  /** Lower-casing twice is lower-casing once. */
  lemma LowerIdempotent(s: string)
    ensures Lower(Lower(s)) == Lower(s)
  {
  }

  /** Lower-casing forgets whether the input was upper-cased first: a search term typed in
      capitals finds what the same term in small letters finds. */
  lemma LowerOfUpper(s: string)
    ensures Lower(Upper(s)) == Lower(s)
  {
    assert forall i :: 0 <= i < |s| ==> LowerChar(UpperChar(s[i])) == LowerChar(s[i]);
  }

  /** Lower-casing commutes with taking a slice. */
  lemma {:induction false} LowerSlice(s: string, i: int, j: int)
    requires 0 <= i <= j <= |s|
    ensures Lower(s)[i..j] == Lower(s[i..j])
  {
    assert forall k :: 0 <= k < j - i ==> Lower(s)[i..j][k] == LowerChar(s[i + k]) == Lower(s[i..j])[k];
  }

  // ---------------------------------------------------------------------------
  // String.prototype.includes
  // ---------------------------------------------------------------------------

  /** `t` occurs in `s` starting at index `i`. */
  predicate OccursAt(s: string, t: string, i: int)
  {
    0 <= i && i + |t| <= |s| && s[i..i + |t|] == t
  }

  /** `s.includes(t)`: `t` is a prefix of `s` or of a suffix of `s`. */
  predicate Includes(s: string, t: string)
    decreases |s|
  {
    t <= s || (|s| > 0 && Includes(s[1..], t))
  }

  /** `Includes` agrees with the positional definition of a substring. */
  lemma {:induction false} IncludesIff(s: string, t: string)
    ensures Includes(s, t) <==> exists i :: OccursAt(s, t, i)
    decreases |s|
  {
    if t <= s {
      assert OccursAt(s, t, 0);
    } else if |s| > 0 {
      IncludesIff(s[1..], t);
      if Includes(s[1..], t) {
        var i :| OccursAt(s[1..], t, i);
        assert s[1..][i..i + |t|] == s[i + 1..i + 1 + |t|];
        assert OccursAt(s, t, i + 1);
      }
      if i :| OccursAt(s, t, i) {
        assert i != 0;
        assert s[1..][i - 1..i - 1 + |t|] == s[i..i + |t|];
        assert OccursAt(s[1..], t, i - 1);
      }
    }
  }

  /** Every string includes the empty string. */
  lemma IncludesEmpty(s: string)
    ensures Includes(s, [])
  {
  }

  /** Substring inclusion is transitive. */
  lemma IncludesTransitive(a: string, b: string, c: string)
    requires Includes(a, b) && Includes(b, c)
    ensures Includes(a, c)
  {
    IncludesIff(a, b);
    IncludesIff(b, c);
    var i :| OccursAt(a, b, i);
    var j :| OccursAt(b, c, j);
    forall k | 0 <= k < |c| ensures a[i + j + k] == c[k] {
      assert c[k] == b[j + k];
      assert b[j + k] == a[i + j + k];
    }
    assert a[i + j..i + j + |c|] == c;
    assert OccursAt(a, c, i + j);
    IncludesIff(a, c);
  }

  /** Lower-casing preserves inclusion. */
  lemma {:induction false} IncludesLower(s: string, t: string)
    requires Includes(s, t)
    ensures Includes(Lower(s), Lower(t))
  {
    IncludesIff(s, t);
    var i :| OccursAt(s, t, i);
    LowerSlice(s, i, i + |t|);
    assert Lower(s)[i..i + |t|] == Lower(t);
    assert OccursAt(Lower(s), Lower(t), i);
    IncludesIff(Lower(s), Lower(t));
  }

  // ---------------------------------------------------------------------------
  // split(c)[0] and the piece after the first separator
  // ---------------------------------------------------------------------------

  /** `s.split(c)`, first piece and the text after the first `c` (None when `c` does not occur). */
  function SplitFirst(s: string, c: char): (r: (string, Option<string>))
    ensures c !in r.0
    ensures r.1.None? <==> c !in s
    ensures r.1.None? ==> r.0 == s
    ensures r.1.Some? ==> s == r.0 + [c] + r.1.value
  {
    if s == [] then ([], None)
    else if s[0] == c then ([], Some(s[1..]))
    else
      var rest := SplitFirst(s[1..], c);
      ([s[0]] + rest.0, rest.1)
  }

  /** Splitting the concatenation of a separator-free piece, the separator and a tail gives
      the piece back with the tail. */
  lemma {:induction false} SplitFirstOfJoin(a: string, c: char, b: string)
    requires c !in a
    ensures SplitFirst(a + [c] + b, c) == (a, Some(b))
    decreases |a|
  {
    var s := a + [c] + b;
    if a == [] {
      assert s[0] == c && s[1..] == b;
    } else {
      assert s[0] == a[0] != c;
      assert s[1..] == a[1..] + [c] + b;
      SplitFirstOfJoin(a[1..], c, b);
      assert [s[0]] + a[1..] == a;
    }
  }

  /** Splitting a string free of the separator gives the whole string and no tail. */
  lemma SplitFirstNoSeparator(s: string, c: char)
    requires c !in s
    ensures SplitFirst(s, c) == (s, None)
  {
  }

  // ---------------------------------------------------------------------------
  // padStart
  // ---------------------------------------------------------------------------

  function Repeat(c: char, n: nat): (r: string)
    ensures |r| == n && forall i :: 0 <= i < n ==> r[i] == c
  {
    if n == 0 then [] else [c] + Repeat(c, n - 1)
  }

  /** `s.padStart(n, [c])`: the string is kept at the end and filled on the left up to length `n`. */
  function PadStart(s: string, n: nat, c: char): (r: string)
    ensures |r| == if |s| >= n then |s| else n
    ensures r[|r| - |s|..] == s
    ensures forall i :: 0 <= i < |r| - |s| ==> r[i] == c
  {
    if |s| >= n then s else Repeat(c, n - |s|) + s
  }

  // ---------------------------------------------------------------------------
  // Decimal numerals
  // ---------------------------------------------------------------------------

  function DigitValue(c: char): (d: nat)
    requires IsDigit(c)
    ensures d < 10
  {
    c as int - '0' as int
  }

  function DigitChar(d: nat): (c: char)
    requires d < 10
    ensures IsDigit(c) && DigitValue(c) == d
  {
    ('0' as int + d) as char
  }

  function Pow10(k: nat): (p: nat)
    ensures p >= 1
  {
    if k == 0 then 1 else 10 * Pow10(k - 1)
  }

  /** `n.toString()` for a non-negative integer: decimal digits, no leading zero. */
  function NatToString(n: nat): (s: string)
    ensures |s| >= 1 && AllDigits(s)
    ensures s[0] == '0' <==> n == 0
    decreases n
  {
    if n < 10 then [DigitChar(n)] else NatToString(n / 10) + [DigitChar(n % 10)]
  }

  /** `n.toString()` for any integer: a minus sign before the digits of a negative number. */
  function IntToString(n: int): (s: string)
    ensures |s| >= 1
    ensures n >= 0 ==> s == NatToString(n)
    ensures n < 0 ==> s[0] == '-' && s[1..] == NatToString(-n)
  {
    if n >= 0 then NatToString(n) else "-" + NatToString(-n)
  }

  /** The number a string of decimal digits denotes. */
  function DigitsValue(s: string): nat
    requires AllDigits(s)
  {
    if s == [] then 0 else DigitsValue(s[..|s| - 1]) * 10 + DigitValue(s[|s| - 1])
  }

  /** Appending a digit shifts the value one place and adds the digit. */
  lemma DigitsValueSnoc(s: string, c: char)
    requires AllDigits(s) && IsDigit(c)
    ensures AllDigits(s + [c]) && DigitsValue(s + [c]) == DigitsValue(s) * 10 + DigitValue(c)
  {
    assert (s + [c])[..|s|] == s;
  }

  /** Printing then reading back a number gives the number. */
  lemma {:induction false} DigitsValueOfNatToString(n: nat)
    ensures DigitsValue(NatToString(n)) == n
    decreases n
  {
    if n >= 10 {
      var s := NatToString(n);
      assert s[..|s| - 1] == NatToString(n / 10);
      DigitsValueOfNatToString(n / 10);
    }
  }

  /** A leading zero does not change the value of a numeral. */
  lemma {:induction false} DigitsValueLeadingZero(s: string)
    requires AllDigits(s)
    ensures AllDigits("0" + s) && DigitsValue("0" + s) == DigitsValue(s)
    decreases |s|
  {
    if s != [] {
      assert ("0" + s)[..|s|] == "0" + s[..|s| - 1];
      DigitsValueLeadingZero(s[..|s| - 1]);
    }
  }

  /** The decimal string of `n` has at most `k` digits exactly when `n < 10^k`. */
  lemma {:induction false} NatToStringLength(n: nat, k: nat)
    requires k >= 1
    ensures |NatToString(n)| <= k <==> n < Pow10(k)
    decreases n
  {
    if n >= 10 {
      if k == 1 {
        assert |NatToString(n)| >= 2 by { assert |NatToString(n)| == |NatToString(n / 10)| + 1; }
      } else {
        NatToStringLength(n / 10, k - 1);
        assert n / 10 < Pow10(k - 1) <==> n < Pow10(k);
      }
    }
  }

  /** A number from 100000 to 999999 prints as exactly six digits, the first of them non-zero. */
  lemma SixDigitNumeral(n: nat)
    requires 100000 <= n <= 999999
    ensures |NatToString(n)| == 6 && AllDigits(NatToString(n)) && NatToString(n)[0] != '0'
  {
    assert Pow10(5) == 100000 && Pow10(6) == 1000000;
    NatToStringLength(n, 5);
    NatToStringLength(n, 6);
  }

  // ---------------------------------------------------------------------------
  // parseInt(s) with the default radix
  // ---------------------------------------------------------------------------

  /** The longest prefix of `s` made of decimal digits. */
  function DigitPrefix(s: string): (p: string)
    ensures p <= s && AllDigits(p)
    ensures |p| < |s| ==> !IsDigit(s[|p|])
  {
    if s != [] && IsDigit(s[0]) then [s[0]] + DigitPrefix(s[1..]) else []
  }

  /** `s` with its leading white space removed. */
  function TrimStartSpace(s: string): (t: string)
    ensures |t| <= |s| && t == s[|s| - |t|..]
    ensures forall i :: 0 <= i < |s| - |t| ==> IsSpace(s[i])
    ensures t != [] ==> !IsSpace(t[0])
  {
    if s != [] && IsSpace(s[0]) then TrimStartSpace(s[1..]) else s
  }

  /** `parseInt(s)`: skip leading white space, read an optional sign and the longest run of
      decimal digits; None stands for NaN. A number comes out exactly when a digit follows the
      white space and the sign, and it is negative only after a minus sign. */
  function ParseInt(s: string): (r: Option<int>)
    ensures var t := TrimStartSpace(s);
            var u := if t != [] && (t[0] == '-' || t[0] == '+') then t[1..] else t;
            (r.Some? <==> u != [] && IsDigit(u[0]))
            && (r.Some? && r.value < 0 ==> t[0] == '-')
  {
    var t := TrimStartSpace(s);
    var signed := t != [] && (t[0] == '-' || t[0] == '+');
    var u := if signed then t[1..] else t;
    var d := DigitPrefix(u);
    if d == [] then None
    else if signed && t[0] == '-' then Some(0 - DigitsValue(d) as int)
    else Some(DigitsValue(d))
  }

  /** A string that does not start with white space, a sign or a digit reads as NaN. */
  lemma ParseIntNaN(s: string)
    requires s == [] || (!IsSpace(s[0]) && !IsDigit(s[0]) && s[0] != '-' && s[0] != '+')
    ensures ParseInt(s) == None
  {
  }

  /** `parseInt` reads back what `toString` printed, also when something that is not a digit follows. */
  lemma ParseIntOfNatToString(n: nat, rest: string)
    requires rest == [] || !IsDigit(rest[0])
    ensures ParseInt(NatToString(n) + rest) == Some(n)
  {
    ParseIntOfDigits(NatToString(n), rest);
    DigitsValueOfNatToString(n);
  }

  /** `parseInt` reads back what `toString` printed for any integer, negative ones included. */
  lemma ParseIntOfIntToString(n: int)
    ensures ParseInt(IntToString(n)) == Some(n)
  {
    if n >= 0 {
      ParseIntOfNatToString(n, []);
      assert NatToString(n) + [] == NatToString(n);
    } else {
      ParseIntOfMinusDigits(NatToString(-n));
      DigitsValueOfNatToString(-n);
    }
  }

  /** `parseInt` of a minus sign and a numeral is the negated value of the numeral. */
  lemma ParseIntOfMinusDigits(d: string)
    requires d != [] && AllDigits(d)
    ensures ParseInt("-" + d) == Some(0 - DigitsValue(d) as int)
  {
    var s := "-" + d;
    assert s[0] == '-' && !IsSpace(s[0]);
    assert TrimStartSpace(s) == s;
    assert s[1..] == d + [];
    DigitPrefixOfDigits(d, []);
  }

  /** The digit prefix of a numeral followed by a non-digit is the numeral. */
  lemma {:induction false} DigitPrefixOfDigits(d: string, rest: string)
    requires AllDigits(d)
    requires rest == [] || !IsDigit(rest[0])
    ensures DigitPrefix(d + rest) == d
    decreases |d|
  {
    if d != [] {
      assert (d + rest)[1..] == d[1..] + rest;
      DigitPrefixOfDigits(d[1..], rest);
    }
  }

  /** `parseInt` of a numeral with leading zeros, followed by a non-digit, is its value. */
  lemma ParseIntOfDigits(d: string, rest: string)
    requires d != [] && AllDigits(d)
    requires rest == [] || !IsDigit(rest[0])
    ensures ParseInt(d + rest) == Some(DigitsValue(d))
  {
    var s := d + rest;
    assert s[0] == d[0] && IsDigit(s[0]) && !IsSpace(s[0]);
    assert TrimStartSpace(s) == s;
    DigitPrefixOfDigits(d, rest);
  }
}
