/**
 * The JavaScript string built-ins the core relies on: `Array.prototype.join`,
 * the decimal rendering of a non-negative integer in a template literal, and
 * `String.prototype.trim`. `Split` and `ParseNat` are their inverses, used to
 * state that the renderings lose no information.
 */
module JsText {

  /** The parts in order with `sep` between neighbours, as `Array.prototype.join` writes them. */
  function Join(parts: seq<string>, sep: string): (r: string)
    ensures |parts| == 0 ==> r == []
    ensures |parts| >= 1 ==> parts[0] <= r
    ensures |parts| >= 1 ==> var last := parts[|parts| - 1];
              |last| <= |r| && r[|r| - |last|..] == last
  {
    if |parts| == 0 then ""
    else if |parts| == 1 then parts[0]
    else parts[0] + sep + Join(parts[1..], sep)
  }

  /** The pieces of `s` between occurrences of `c`, as `String.prototype.split` cuts them. */
  function Split(s: string, c: char): (r: seq<string>)
    ensures |r| >= 1
  {
    if |s| == 0 then [""]
    else
      var rest := Split(s[1..], c);
      if s[0] == c then [""] + rest
      else [[s[0]] + rest[0]] + rest[1..]
  }

  lemma {:induction false} SplitWithoutSeparator(s: string, c: char)
    requires c !in s
    ensures Split(s, c) == [s]
  {
    if |s| > 0 {
      assert c !in s[1..] by {
        forall i | 0 <= i < |s[1..]| ensures s[1..][i] != c {
          assert s[1..][i] == s[i + 1];
        }
      }
      SplitWithoutSeparator(s[1..], c);
      assert [s[0]] + s[1..] == s;
    }
  }

  lemma {:induction false} SplitAfterFirstPart(a: string, c: char, b: string)
    requires c !in a
    ensures Split(a + [c] + b, c) == [a] + Split(b, c)
  {
    if |a| == 0 {
      assert a + [c] + b == [c] + b;
      assert ([c] + b)[1..] == b;
    } else {
      assert (a + [c] + b)[1..] == a[1..] + [c] + b;
      assert c !in a[1..] by {
        forall i | 0 <= i < |a[1..]| ensures a[1..][i] != c {
          assert a[1..][i] == a[i + 1];
        }
      }
      SplitAfterFirstPart(a[1..], c, b);
      assert [a[0]] + a[1..] == a;
    }
  }

  /** Joining with a separator that occurs in no part can be undone by splitting. */
  lemma {:induction false} SplitJoin(parts: seq<string>, c: char)
    requires |parts| >= 1
    requires forall i :: 0 <= i < |parts| ==> c !in parts[i]
    ensures Split(Join(parts, [c]), c) == parts
  {
    if |parts| == 1 {
      SplitWithoutSeparator(parts[0], c);
    } else {
      SplitJoin(parts[1..], c);
      SplitAfterFirstPart(parts[0], c, Join(parts[1..], [c]));
      assert [parts[0]] + parts[1..] == parts;
    }
  }

  /** Joining after appending one part adds the separator and that part at the end. */
  lemma {:induction false} JoinAppend(parts: seq<string>, last: string, sep: string)
    requires |parts| >= 1
    ensures Join(parts + [last], sep) == Join(parts, sep) + sep + last
  {
    var whole := parts + [last];
    if |parts| == 1 {
      assert whole[1..] == [last];
      assert Join(whole, sep) == whole[0] + sep + Join([last], sep);
    } else {
      assert whole[1..] == parts[1..] + [last];
      JoinAppend(parts[1..], last, sep);
      var tail := Join(parts[1..], sep);
      assert Join(whole, sep) == parts[0] + sep + (tail + sep + last);
      assert Join(parts, sep) == parts[0] + sep + tail;
    }
  }

  /** `p` occurs in `s` as a contiguous piece (`s.includes(p)`). */
  predicate IsInfix(p: string, s: string)
  {
    p <= s || (|s| > 0 && IsInfix(p, s[1..]))
  }

  lemma {:induction false} InfixExtendLeft(p: string, a: string, b: string)
    requires IsInfix(p, b)
    ensures IsInfix(p, a + b)
  {
    if |a| > 0 {
      assert (a + b)[1..] == a[1..] + b;
      InfixExtendLeft(p, a[1..], b);
      assert IsInfix(p, (a + b)[1..]);
    } else {
      assert a + b == b;
    }
  }

  lemma {:induction false} InfixExtendRight(p: string, a: string, b: string)
    requires IsInfix(p, a)
    ensures IsInfix(p, a + b)
  {
    if p <= a {
      assert p <= a + b by {
        assert (a + b)[..|p|] == a[..|p|];
      }
    } else {
      assert (a + b)[1..] == a[1..] + b;
      InfixExtendRight(p, a[1..], b);
    }
  }

  /** Every part of a join occurs in it. */
  lemma {:induction false} JoinContainsPart(parts: seq<string>, sep: string, k: nat)
    requires k < |parts|
    ensures IsInfix(parts[k], Join(parts, sep))
  {
    if |parts| == 1 {
      assert parts[k] <= Join(parts, sep);
    } else if k == 0 {
      assert parts[0] <= parts[0] + sep + Join(parts[1..], sep);
    } else {
      JoinContainsPart(parts[1..], sep, k - 1);
      assert parts[1..][k - 1] == parts[k];
      InfixExtendLeft(parts[k], parts[0] + sep, Join(parts[1..], sep));
    }
  }

  /** Every part of a join occurs in it, for all parts at once. */
  lemma JoinContainsAll(parts: seq<string>, sep: string)
    ensures forall k :: 0 <= k < |parts| ==> IsInfix(parts[k], Join(parts, sep))
  {
    forall k | 0 <= k < |parts| ensures IsInfix(parts[k], Join(parts, sep)) {
      JoinContainsPart(parts, sep, k);
    }
  }

  /** The digits of `Number.prototype.toString(16)`, lowercase. */
  const HexAlphabet := "0123456789abcdef"

  const Digits := "0123456789"

  /** The character of a decimal digit value. */
  function DigitChar(d: nat): char
    requires d < 10
  {
    Digits[d]
  }

  predicate IsDigit(c: char) { '0' <= c <= '9' }

  /** The value of a decimal digit character. */
  function DigitValue(c: char): nat
    requires IsDigit(c)
  {
    (c as int) - ('0' as int)
  }

  /** A non-negative integer in a template literal: its decimal digits, without leading zeros. */
  function NatToString(n: nat): (s: string)
    ensures |s| >= 1
    ensures forall i :: 0 <= i < |s| ==> IsDigit(s[i])
    ensures s[0] == '0' ==> n == 0
    decreases n
  {
    if n < 10 then [DigitChar(n)] else NatToString(n / 10) + [DigitChar(n % 10)]
  }

  /** The value of a string of decimal digits. */
  function ParseNat(s: string): nat
    requires forall i :: 0 <= i < |s| ==> IsDigit(s[i])
  {
    if |s| == 0 then 0
    else ParseNat(s[..|s| - 1]) * 10 + DigitValue(s[|s| - 1])
  }

  lemma {:induction false} ParseNatToString(n: nat)
    ensures ParseNat(NatToString(n)) == n
    decreases n
  {
    var s := NatToString(n);
    if n < 10 {
      assert s[..0] == [];
    } else {
      ParseNatToString(n / 10);
      assert s[..|s| - 1] == NatToString(n / 10);
    }
  }

  /** Distinct numbers render differently. */
  lemma NatToStringInjective(m: nat, n: nat)
    requires NatToString(m) == NatToString(n)
    ensures m == n
  {
    ParseNatToString(m);
    ParseNatToString(n);
  }

  /**
   * The characters `String.prototype.trim` removes: the ECMAScript WhiteSpace
   * code points (tab, vertical tab, form feed, U+FEFF and the Unicode space
   * separators) and the LineTerminator code points.
   */
  predicate IsJsSpace(c: char)
  {
    var n := c as int;
    n == 0x09 || n == 0x0A || n == 0x0B || n == 0x0C || n == 0x0D || n == 0x20 ||
    n == 0xA0 || n == 0x1680 || (0x2000 <= n <= 0x200A) || n == 0x2028 || n == 0x2029 ||
    n == 0x202F || n == 0x205F || n == 0x3000 || n == 0xFEFF
  }

  predicate AllSpace(s: string)
  {
    forall i :: 0 <= i < |s| ==> IsJsSpace(s[i])
  }

  /** The number of white-space characters `s` starts with. */
  function LeadingSpaces(s: string): (n: nat)
    ensures n <= |s|
    ensures forall i :: 0 <= i < n ==> IsJsSpace(s[i])
    ensures n < |s| ==> !IsJsSpace(s[n])
  {
    if |s| > 0 && IsJsSpace(s[0]) then
      var m := LeadingSpaces(s[1..]);
      assert forall i :: 1 <= i < m + 1 ==> s[i] == s[1..][i - 1];
      1 + m
    else 0
  }

  /** The number of white-space characters `s` ends with. */
  function TrailingSpaces(s: string): (n: nat)
    ensures n <= |s|
    ensures forall i :: |s| - n <= i < |s| ==> IsJsSpace(s[i])
    ensures n < |s| ==> !IsJsSpace(s[|s| - n - 1])
  {
    if |s| > 0 && IsJsSpace(s[|s| - 1]) then
      1 + TrailingSpaces(s[..|s| - 1])
    else 0
  }

  /**
   * `s.trim()`: the slice of `s` between its leading and its trailing white
   * space. It is empty exactly when `s` is all white space.
   */
  function Trim(s: string): (r: string)
    ensures r == [] || (!IsJsSpace(r[0]) && !IsJsSpace(r[|r| - 1]))
    ensures r == [] <==> AllSpace(s)
    ensures var k := LeadingSpaces(s);
            k + |r| <= |s| && r == s[k..k + |r|] &&
            (forall i :: 0 <= i < k ==> IsJsSpace(s[i])) &&
            (forall i :: k + |r| <= i < |s| ==> IsJsSpace(s[i]))
  {
    var k := LeadingSpaces(s);
    var t := s[k..];
    var m := TrailingSpaces(t);
    var r := t[..|t| - m];
    TrimParts(s, k, m);
    r
  }

  lemma TrimParts(s: string, k: nat, m: nat)
    requires k == LeadingSpaces(s) && k <= |s| && m == TrailingSpaces(s[k..])
    ensures var r := s[k..][..|s| - k - m];
            k + |r| <= |s| && r == s[k..k + |r|] &&
            (r == [] || (!IsJsSpace(r[0]) && !IsJsSpace(r[|r| - 1]))) &&
            (forall i :: k + |r| <= i < |s| ==> IsJsSpace(s[i])) &&
            (r == [] <==> AllSpace(s))
  {
    var t := s[k..];
    var r := t[..|t| - m];
    assert r == s[k..k + |r|];
    TrimTail(s, k, m);
    if r != [] {
      assert r[0] == s[k];
      assert r[|r| - 1] == t[|t| - m - 1];
    } else {
      TrimAllSpace(s, k, m);
    }
  }

  lemma TrimTail(s: string, k: nat, m: nat)
    requires k <= |s| && m == TrailingSpaces(s[k..])
    ensures forall i :: |s| - m <= i < |s| ==> IsJsSpace(s[i])
  {
    var t := s[k..];
    forall i | |s| - m <= i < |s| ensures IsJsSpace(s[i]) {
      assert s[i] == t[i - k];
    }
  }

  lemma TrimAllSpace(s: string, k: nat, m: nat)
    requires k == LeadingSpaces(s) && k <= |s| && m == TrailingSpaces(s[k..]) && m == |s| - k
    ensures AllSpace(s)
  {
    TrimTail(s, k, m);
  }

  /** Trimming an already trimmed string changes nothing. */
  lemma TrimIdempotent(s: string)
    ensures Trim(Trim(s)) == Trim(s)
  {
    TrimOfUnpadded(Trim(s));
  }

  /** A string that neither starts nor ends with white space is its own trim. */
  lemma TrimOfUnpadded(s: string)
    requires s == [] || (!IsJsSpace(s[0]) && !IsJsSpace(s[|s| - 1]))
    ensures Trim(s) == s
  {
    assert LeadingSpaces(s) == 0;
    assert s[0..] == s;
    assert TrailingSpaces(s) == 0;
  }
}
