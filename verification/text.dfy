/**
 * String helpers that the modelled Python code gets from its standard library:
 * decimal and hexadecimal formatting, str.startswith, str.split, and the
 * code-point order that sorted() uses on strings; and the `#main-key` key ids
 * that name an actor's signing key.
 */
module Text {

  // ---------------------------------------------------------------- decimal

  predicate IsDigit(c: char) { '0' <= c <= '9' }

  predicate AllDigits(s: string) { forall i :: 0 <= i < |s| ==> IsDigit(s[i]) }

  function DigitChar(d: nat): (c: char)
    requires d < 10
    ensures IsDigit(c) && c as int - '0' as int == d
  {
    (48 + d) as char
  }

  /** str(n) for a natural number: the shortest decimal numeral. */
  function NatToString(n: nat): string
    decreases n
  {
    if n < 10 then [DigitChar(n)] else NatToString(n / 10) + [DigitChar(n % 10)]
  }

  /** str(i) for any integer: a minus sign in front of a negative number. */
  function IntToString(i: int): (s: string)
    ensures |s| > 0 && (s[0] == '-' || IsDigit(s[0]))
  {
    NatToStringShape(if i < 0 then -i else i);
    if i < 0 then "-" + NatToString(-i) else NatToString(i)
  }

  /** The value of a numeral, read most significant digit first. */
  function DigitsValue(s: string): nat
    requires AllDigits(s)
  {
    if s == [] then 0 else DigitsValue(s[..|s| - 1]) * 10 + (s[|s| - 1] as int - '0' as int)
  }

  lemma {:induction false} NatToStringShape(n: nat)
    ensures |NatToString(n)| > 0 && AllDigits(NatToString(n))
    decreases n
  {
    if n >= 10 { NatToStringShape(n / 10); }
  }

  /** Reading back a numeral written by NatToString gives the number. */
  lemma {:induction false} NatToStringRoundTrip(n: nat)
    ensures AllDigits(NatToString(n)) && DigitsValue(NatToString(n)) == n
    decreases n
  {
    NatToStringShape(n);
    if n >= 10 {
      var s := NatToString(n);
      NatToStringRoundTrip(n / 10);
      assert s[..|s| - 1] == NatToString(n / 10);
    }
  }

  /** A numeral written by NatToString has no leading zero. */
  lemma {:induction false} NatToStringLeadingZero(n: nat)
    ensures NatToString(n)[0] == '0' ==> n == 0
    decreases n
  {
    NatToStringShape(n);
    if n >= 10 {
      NatToStringShape(n / 10);
      NatToStringLeadingZero(n / 10);
      assert NatToString(n)[0] == NatToString(n / 10)[0];
    }
  }

  /** Distinct numbers have distinct numerals. */
  lemma NatToStringInjective(m: nat, n: nat)
    requires NatToString(m) == NatToString(n)
    ensures m == n
  {
    NatToStringRoundTrip(m);
    NatToStringRoundTrip(n);
  }

  // ------------------------------------------------------------ hexadecimal

  const HEX_DIGITS := "0123456789abcdef"

  predicate IsHexDigit(c: char) { c in HEX_DIGITS }

  function Pow16(k: nat): (r: nat)
    ensures r >= 1
  {
    if k == 0 then 1 else 16 * Pow16(k - 1)
  }

  /** The k lowest hexadecimal digits of n, zero-padded, lower case. */
  function HexDigits(n: nat, k: nat): (s: string)
    ensures |s| == k && forall i :: 0 <= i < k ==> IsHexDigit(s[i])
  {
    if k == 0 then "" else HexDigits(n / 16, k - 1) + [HEX_DIGITS[n % 16]]
  }

  function HexDigitValue(c: char): (d: nat)
    requires IsHexDigit(c)
    ensures d < 16 && HEX_DIGITS[d] == c
  {
    if '0' <= c <= '9' then c as int - '0' as int else c as int - 'a' as int + 10
  }

  function HexValue(s: string): nat
    requires forall i :: 0 <= i < |s| ==> IsHexDigit(s[i])
  {
    if s == [] then 0 else HexValue(s[..|s| - 1]) * 16 + HexDigitValue(s[|s| - 1])
  }

  lemma {:induction false} HexDigitsRoundTrip(n: nat, k: nat)
    requires n < Pow16(k)
    ensures HexValue(HexDigits(n, k)) == n
  {
    if k > 0 {
      var s := HexDigits(n, k);
      var q, d := n / 16, n % 16;
      DivideByBase(n, k);
      var t := HexDigits(q, k - 1);
      HexDigitsRoundTrip(q, k - 1);
      HexDigitValueAt(d);
      LastDigit(t, HEX_DIGITS[d]);
      assert s == t + [HEX_DIGITS[d]];
    }
  }

  /** Appending a digit multiplies the value by sixteen and adds the digit. */
  lemma LastDigit(t: string, c: char)
    requires forall i :: 0 <= i < |t| ==> IsHexDigit(t[i])
    requires IsHexDigit(c)
    ensures forall i :: 0 <= i < |t + [c]| ==> IsHexDigit((t + [c])[i])
    ensures HexValue(t + [c]) == HexValue(t) * 16 + HexDigitValue(c)
  {
    var s := t + [c];
    assert s[..|s| - 1] == t && s[|s| - 1] == c;
  }

  /** The last hexadecimal digit of n and the digits before it. */
  lemma DivideByBase(n: nat, k: nat)
    requires k > 0 && n < Pow16(k)
    ensures n / 16 < Pow16(k - 1) && n % 16 < 16 && n == n / 16 * 16 + n % 16
  {
    assert Pow16(k) == 16 * Pow16(k - 1);
  }

  /** Each digit of HEX_DIGITS reads back as its position. */
  lemma HexDigitValueAt(d: nat)
    requires d < 16
    ensures HexDigitValue(HEX_DIGITS[d]) == d
  {
    var c := HEX_DIGITS[d];
    if d < 10 {
      assert HEX_DIGITS[..10] == "0123456789";
      assert c as int == '0' as int + d;
    } else {
      assert HEX_DIGITS[10..] == "abcdef";
      assert c as int == 'a' as int + d - 10;
    }
  }

  // ---------------------------------------------------------------- key ids

  /** The fragment that names an actor's single signing key. */
  const MAIN_KEY := "#main-key"

  predicate IsMainKeyId(k: string)
  {
    |k| >= |MAIN_KEY| && k[|k| - |MAIN_KEY|..] == MAIN_KEY
  }

  /** The owner a key id names: the key id without its fragment. */
  function KeyOwner(k: string): string
    requires IsMainKeyId(k)
  {
    k[..|k| - |MAIN_KEY|]
  }

  /** `url + '#main-key'`: a key id whose owner is `owner`. */
  function MainKeyId(owner: string): (k: string)
    ensures IsMainKeyId(k) && KeyOwner(k) == owner
  {
    owner + MAIN_KEY
  }

  // ------------------------------------------------------- prefixes, split

  predicate StartsWith(s: string, prefix: string) { prefix <= s }

  /** sep occurs somewhere in s. */
  predicate Contains(s: string, sep: string)
    decreases |s|
  {
    sep <= s || (s != [] && Contains(s[1..], sep))
  }

  /**
   * str.split(sep): the pieces between the leftmost non-overlapping
   * occurrences of sep; `current` is the piece being collected.
   */
  function SplitFrom(s: string, sep: string, current: string): (parts: seq<string>)
    requires |sep| > 0
    ensures |parts| > 0
    decreases |s|
  {
    if sep <= s then [current] + SplitFrom(s[|sep|..], sep, "")
    else if s == [] then [current]
    else SplitFrom(s[1..], sep, current + [s[0]])
  }

  function Split(s: string, sep: string): (parts: seq<string>)
    requires |sep| > 0
    ensures |parts| > 0
  {
    SplitFrom(s, sep, "")
  }

  /** sep.join(parts) */
  function Join(parts: seq<string>, sep: string): string
  {
    if parts == [] then "" else if |parts| == 1 then parts[0] else parts[0] + sep + Join(parts[1..], sep)
  }

  lemma {:induction false} SplitFromJoin(s: string, sep: string, current: string)
    requires |sep| > 0
    ensures Join(SplitFrom(s, sep, current), sep) == current + s
    decreases |s|
  {
    if sep <= s {
      SplitFromJoin(s[|sep|..], sep, "");
      JoinAtSep(s, sep, current);
    } else if s == [] {
    } else {
      SplitFromJoin(s[1..], sep, current + [s[0]]);
      assert current + [s[0]] + s[1..] == current + s;
    }
  }

  lemma JoinAtSep(s: string, sep: string, current: string)
    requires |sep| > 0 && sep <= s
    requires Join(SplitFrom(s[|sep|..], sep, ""), sep) == "" + s[|sep|..]
    ensures Join(SplitFrom(s, sep, current), sep) == current + s
  {
    var tail := SplitFrom(s[|sep|..], sep, "");
    assert SplitFrom(s, sep, current) == [current] + tail;
    assert ([current] + tail)[1..] == tail;
    assert "" + s[|sep|..] == s[|sep|..];
    assert s == sep + s[|sep|..];
  }

  /** Joining the pieces of a split with the same separator gives back the string. */
  lemma SplitJoin(s: string, sep: string)
    requires |sep| > 0
    ensures Join(Split(s, sep), sep) == s
  {
    SplitFromJoin(s, sep, "");
  }

  lemma {:induction false} SplitFromNoSep(s: string, sep: string, current: string)
    requires |sep| > 0 && !Contains(s, sep)
    ensures SplitFrom(s, sep, current) == [current + s]
    decreases |s|
  {
    assert !(sep <= s);
    if s == [] {
      assert current + s == current;
    } else {
      SplitFromNoSep(s[1..], sep, current + [s[0]]);
      assert current + [s[0]] + s[1..] == current + s;
    }
  }

  /** A string without the separator splits into itself alone. */
  lemma SplitNoSep(s: string, sep: string)
    requires |sep| > 0 && !Contains(s, sep)
    ensures Split(s, sep) == [s]
  {
    SplitFromNoSep(s, sep, "");
    assert "" + s == s;
  }

  lemma {:induction false} SplitFromAtSep(a: string, sep: string, b: string, current: string)
    requires |sep| > 0 && sep[0] !in a
    ensures SplitFrom(a + sep + b, sep, current) == [current + a] + SplitFrom(b, sep, "")
    decreases |a|
  {
    var s := a + sep + b;
    if a == [] {
      assert sep <= s && s[|sep|..] == b;
      assert current + a == current;
    } else {
      assert s[0] == a[0] != sep[0];
      assert s[1..] == a[1..] + sep + b;
      SplitFromAtSep(a[1..], sep, b, current + [a[0]]);
      assert current + [a[0]] + a[1..] == current + a;
    }
  }

  /** Splitting a + sep + b, where a holds no first character of sep, puts a first and goes on with b. */
  lemma SplitAtSep(a: string, sep: string, b: string)
    requires |sep| > 0 && sep[0] !in a
    ensures Split(a + sep + b, sep) == [a] + Split(b, sep)
  {
    SplitFromAtSep(a, sep, b, "");
    assert "" + a == a;
  }

  /** A string without the first character of sep does not contain sep. */
  lemma {:induction false} NotContainsFirst(s: string, sep: string)
    requires |sep| > 0 && sep[0] !in s
    ensures !Contains(s, sep)
    decreases |s|
  {
    if s != [] {
      assert s[0] != sep[0];
      NotContainsFirst(s[1..], sep);
    }
  }

  // ------------------------------------------------------ code-point order

  /** a < b in Python's string order: by code points, a proper prefix first. */
  predicate Less(a: string, b: string)
  {
    if a == [] then b != []
    else if b == [] then false
    else if a[0] != b[0] then a[0] < b[0]
    else Less(a[1..], b[1..])
  }

  lemma {:induction false} LessIrreflexive(a: string)
    ensures !Less(a, a)
  {
    if a != [] { LessIrreflexive(a[1..]); }
  }

  lemma {:induction false} LessTransitive(a: string, b: string, c: string)
    requires Less(a, b) && Less(b, c)
    ensures Less(a, c)
  {
    if a != [] && b != [] && c != [] && a[0] == b[0] && b[0] == c[0] {
      LessTransitive(a[1..], b[1..], c[1..]);
    }
  }

  lemma {:induction false} LessTotal(a: string, b: string)
    requires a != b
    ensures Less(a, b) || Less(b, a)
  {
    if a != [] && b != [] && a[0] == b[0] {
      assert a == [a[0]] + a[1..] && b == [b[0]] + b[1..];
      LessTotal(a[1..], b[1..]);
    }
  }

  lemma {:induction false} LessAsymmetric(a: string, b: string)
    requires Less(a, b)
    ensures !Less(b, a)
  {
    if a != [] && b != [] && a[0] == b[0] {
      LessAsymmetric(a[1..], b[1..]);
    }
  }
}
