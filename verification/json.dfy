/**
 * JSON text as the modelled code produces and reads it: `json.dumps` with its
 * default separators (", " between items, ": " after a key), `json.dumps(...,
 * sort_keys=True)`, and `json.loads`, which refuses text that is not JSON.
 * Objects are ordered association lists, as Python dicts are.
 */
module Json {
  import opened Wrappers
  import opened Text
  import opened Dicts

  datatype Json =
    | JNull                     // Python None
    | JBool(b: bool)
    | JInt(n: int)
    | JStr(str: string)
    | JArr(items: seq<Json>)
    | JObj(members: Dict<Json>)

  /** Every object, at any depth, has distinct keys: the shape of a Python value. */
  predicate Valid(j: Json)
    decreases j
  {
    match j
    case JArr(items) => forall i :: 0 <= i < |items| ==> Valid(items[i])
    case JObj(m) => Distinct(m) && forall i :: 0 <= i < |m| ==> ValidMember(m[i])
    case _ => true
  }

  predicate ValidMember(p: (string, Json))
    decreases p
  {
    Valid(p.1)
  }

  /**
   * Python's `==` on the values json.loads gives: a dict equals one with the
   * same keys and equal values whatever their order, lists compare item by
   * item, and True equals 1 and False equals 0.
   */
  predicate PyEq(a: Json, b: Json)
    decreases a
  {
    match a
    case JNull => b == JNull
    case JBool(x) => b == JBool(x) || b == JInt(if x then 1 else 0)
    case JInt(n) => b == JInt(n) || (b.JBool? && n == if b.b then 1 else 0)
    case JStr(s) => b == JStr(s)
    case JArr(xs) => b.JArr? && |xs| == |b.items| && forall i :: 0 <= i < |xs| ==> PyEq(xs[i], b.items[i])
    case JObj(m) =>
      && b.JObj?
      && (forall j :: 0 <= j < |b.members| ==> HasKey(m, b.members[j].0))
      && forall i :: 0 <= i < |m| ==> HasKey(b.members, m[i].0) && PyEq(m[i].1, Lookup(b.members, m[i].0).value)
  }

  /** Every Python value equals itself. */
  lemma {:induction false} PyEqRefl(a: Json)
    requires Valid(a)
    ensures PyEq(a, a)
    decreases a
  {
    match a
    case JArr(xs) =>
      forall i | 0 <= i < |xs| ensures PyEq(xs[i], xs[i]) {
        PyEqRefl(xs[i]);
      }
    case JObj(m) =>
      forall j | 0 <= j < |m| ensures HasKey(m, m[j].0) {
        LookupAt(m, j);
      }
      forall i | 0 <= i < |m| ensures HasKey(m, m[i].0) && PyEq(m[i].1, Lookup(m, m[i].0).value) {
        LookupIndex(m, i);
        assert ValidMember(m[i]);
        PyEqRefl(m[i].1);
      }
    case _ =>
  }

  /** Python's `==` on these values is symmetric: `x != y` and `y != x` agree. */
  lemma {:induction false} PyEqSym(a: Json, b: Json)
    requires Valid(a) && Valid(b) && PyEq(a, b)
    ensures PyEq(b, a)
    decreases a
  {
    match a
    case JArr(xs) =>
      forall i | 0 <= i < |xs| ensures PyEq(b.items[i], xs[i]) {
        PyEqSym(xs[i], b.items[i]);
      }
    case JObj(m) =>
      var bm := b.members;
      forall j | 0 <= j < |bm| ensures HasKey(m, bm[j].0) && PyEq(bm[j].1, Lookup(m, bm[j].0).value) {
        var i := KeyIndex(m, bm[j].0);
        LookupIndex(bm, j);
        assert ValidMember(m[i]) && ValidMember(bm[j]);
        PyEqSym(m[i].1, bm[j].1);
      }
    case _ =>
  }

  /**
   * Two dicts that differ only in key order are different lists but equal
   * Python values, and so are True and 1.
   */
  lemma PyEqKeyOrder()
    ensures var p := JObj([("id", JStr("u")), ("type", JStr("Person"))]);
      var q := JObj([("type", JStr("Person")), ("id", JStr("u"))]);
      p != q && PyEq(p, q) && PyEq(q, p)
    ensures JBool(true) != JInt(1) && PyEq(JBool(true), JInt(1))
  {
    var p := JObj([("id", JStr("u")), ("type", JStr("Person"))]);
    var q := JObj([("type", JStr("Person")), ("id", JStr("u"))]);
    assert p.members[0] != q.members[0];
    assert Lookup(q.members, "id") == Some(JStr("u"));
    assert Lookup(p.members, "type") == Some(JStr("Person"));
  }

  // ------------------------------------------------------------- encoding

  const BACKSPACE: char := '\U{8}'
  const FORMFEED: char := '\U{c}'

  /** How json.dumps writes one character of a string. */
  function EscapeChar(c: char): (e: string)
    ensures |e| > 0 && e[0] != '"'
  {
    if c == '"' then "\\\""
    else if c == '\\' then "\\\\"
    else if c == '\n' then "\\n"
    else if c == '\r' then "\\r"
    else if c == '\t' then "\\t"
    else if c == BACKSPACE then "\\b"
    else if c == FORMFEED then "\\f"
    else if c < ' ' then "\\u" + HexDigits(c as int, 4)
    else [c]
  }

  function Escape(s: string): string
  {
    if s == [] then "" else EscapeChar(s[0]) + Escape(s[1..])
  }

  function Quote(s: string): string
  {
    "\"" + Escape(s) + "\""
  }

  /** json.dumps(j) */
  function Encode(j: Json): (text: string)
    decreases j
  {
    match j
    case JNull => "null"
    case JBool(b) => if b then "true" else "false"
    case JInt(n) => IntToString(n)
    case JStr(s) => Quote(s)
    case JArr(items) => "[" + EncodeItems(items) + "]"
    case JObj(m) => "{" + EncodeMembers(m) + "}"
  }

  function EncodeItems(items: seq<Json>): string
    decreases items
  {
    if items == [] then ""
    else if |items| == 1 then Encode(items[0])
    else Encode(items[0]) + ", " + EncodeItems(items[1..])
  }

  function EncodeMember(p: (string, Json)): string
    decreases p
  {
    Quote(p.0) + ": " + Encode(p.1)
  }

  function EncodeMembers(m: Dict<Json>): string
    decreases m
  {
    if m == [] then ""
    else if |m| == 1 then EncodeMember(m[0])
    else EncodeMember(m[0]) + ", " + EncodeMembers(m[1..])
  }

  /** The value with every object's entries in key order, at every depth. */
  function SortKeys(j: Json): Json
    decreases j
  {
    match j
    case JArr(items) => JArr(SortItems(items))
    case JObj(m) => JObj(SortByKey(SortMembers(m)))
    case _ => j
  }

  function SortItems(items: seq<Json>): (r: seq<Json>)
    ensures |r| == |items|
    decreases items
  {
    if items == [] then [] else [SortKeys(items[0])] + SortItems(items[1..])
  }

  function SortMember(p: (string, Json)): (string, Json)
    decreases p
  {
    (p.0, SortKeys(p.1))
  }

  function SortMembers(m: Dict<Json>): (r: Dict<Json>)
    ensures |r| == |m|
    decreases m
  {
    if m == [] then [] else [SortMember(m[0])] + SortMembers(m[1..])
  }

  /** json.dumps(j, sort_keys=True) */
  function EncodeSorted(j: Json): string
  {
    Encode(SortKeys(j))
  }

  // -------------------------------------------------------------- parsing

  predicate IsSpace(c: char) { c == ' ' || c == '\t' || c == '\n' || c == '\r' }

  function SkipSpace(s: string): (r: string)
    ensures |r| <= |s| && (r == [] || !IsSpace(r[0]))
  {
    if s != [] && IsSpace(s[0]) then SkipSpace(s[1..]) else s
  }

  predicate IsSurrogate(v: int) { 0xD800 <= v < 0xE000 }

  /** The character an escape sequence `\c` stands for, other than `\u`. */
  function Unescape(c: char): Option<char>
  {
    if c == '"' then Some('"')
    else if c == '\\' then Some('\\')
    else if c == '/' then Some('/')
    else if c == 'n' then Some('\n')
    else if c == 'r' then Some('\r')
    else if c == 't' then Some('\t')
    else if c == 'b' then Some(BACKSPACE)
    else if c == 'f' then Some(FORMFEED)
    else None
  }

  /**
   * The body of a string literal up to its closing quote, with escapes
   * resolved; raw control characters are refused, as json.loads does.
   */
  function ParseString(s: string, acc: string): (r: Option<(string, string)>)
    ensures r.Some? ==> |r.value.1| < |s|
    decreases |s|
  {
    if s == [] then None
    else if s[0] == '"' then Some((acc, s[1..]))
    else if s[0] == '\\' then
      if |s| < 2 then None
      else if s[1] == 'u' then
        if |s| < 6 || !(forall i :: 2 <= i < 6 ==> IsHexDigit(s[i])) then None
        else
          var v := HexValue(s[2..6]);
          if IsSurrogate(v) || v >= 0x11_0000 then None
          else ParseString(s[6..], acc + [v as char])
      else match Unescape(s[1])
        case None => None
        case Some(c) => ParseString(s[2..], acc + [c])
    else if s[0] < ' ' then None
    else ParseString(s[1..], acc + [s[0]])
  }

  /** The length of the run of decimal digits at the start of s. */
  function DigitRun(s: string): (n: nat)
    ensures n <= |s| && AllDigits(s[..n]) && (n == |s| || !IsDigit(s[n]))
  {
    if s != [] && IsDigit(s[0]) then
      var k := DigitRun(s[1..]);
      assert s[..k + 1] == [s[0]] + s[1..][..k];
      k + 1
    else 0
  }

  /** An integer: an optional minus sign and digits without a leading zero. */
  function ParseInt(s: string): (r: Option<(Json, string)>)
    ensures r.Some? ==> |r.value.1| < |s|
  {
    var neg := s != [] && s[0] == '-';
    var t := if neg then s[1..] else s;
    var k := DigitRun(t);
    if k == 0 || (k > 1 && t[0] == '0') then None
    else
      var v: int := DigitsValue(t[..k]);
      Some((JInt(if neg then -v else v), t[k..]))
  }

  /** One JSON value after optional white space, and the text after it. */
  function ParseValue(s: string): (r: Option<(Json, string)>)
    ensures r.Some? ==> |r.value.1| < |s|
    decreases |s|, 1
  {
    ParseToken(SkipSpace(s))
  }

  /** One JSON value at the very start of t, chosen by its first character. */
  function ParseToken(t: string): (r: Option<(Json, string)>)
    ensures r.Some? ==> |r.value.1| < |t|
    decreases |t|, 0
  {
    if t == [] then None
    else if t[0] == 'n' then (if "null" <= t then Some((JNull, t[4..])) else None)
    else if t[0] == 't' then (if "true" <= t then Some((JBool(true), t[4..])) else None)
    else if t[0] == 'f' then (if "false" <= t then Some((JBool(false), t[5..])) else None)
    else if t[0] == '"' then
      match ParseString(t[1..], "")
      case None => None
      case Some((str, rest)) => Some((JStr(str), rest))
    else if t[0] == '[' then ParseArray(t[1..])
    else if t[0] == '{' then ParseObject(t[1..])
    else if t[0] == '-' || IsDigit(t[0]) then ParseInt(t)
    else None
  }

  /** An array after its opening bracket. */
  function ParseArray(s: string): (r: Option<(Json, string)>)
    ensures r.Some? ==> |r.value.1| < |s|
    decreases |s|, 3
  {
    var t := SkipSpace(s);
    if t != [] && t[0] == ']' then Some((JArr([]), t[1..]))
    else ParseElements(s, [])
  }

  /** The elements of a non-empty array, `acc` holding those already read. */
  function ParseElements(s: string, acc: seq<Json>): (r: Option<(Json, string)>)
    ensures r.Some? ==> |r.value.1| < |s|
    decreases |s|, 2
  {
    match ParseValue(s)
    case None => None
    case Some((v, rest)) =>
      var t := SkipSpace(rest);
      if t == [] then None
      else if t[0] == ',' then ParseElements(t[1..], acc + [v])
      else if t[0] == ']' then Some((JArr(acc + [v]), t[1..]))
      else None
  }

  /** An object after its opening brace. */
  function ParseObject(s: string): (r: Option<(Json, string)>)
    ensures r.Some? ==> |r.value.1| < |s|
    decreases |s|, 3
  {
    var t := SkipSpace(s);
    if t != [] && t[0] == '}' then Some((JObj([]), t[1..]))
    else ParseMembers(t, [])
  }

  /**
   * The members of a non-empty object; a repeated key keeps its first
   * position and takes the last value, as dict() does.
   */
  function ParseMembers(s: string, acc: Dict<Json>): (r: Option<(Json, string)>)
    ensures r.Some? ==> |r.value.1| < |s|
    decreases |s|, 2
  {
    var t := SkipSpace(s);
    if t == [] || t[0] != '"' then None
    else match ParseString(t[1..], "")
      case None => None
      case Some((key, rest)) =>
        var u := SkipSpace(rest);
        if u == [] || u[0] != ':' then None
        else match ParseValue(u[1..])
          case None => None
          case Some((v, rest2)) =>
            var w := SkipSpace(rest2);
            if w == [] then None
            else if w[0] == ',' then ParseMembers(w[1..], Put(acc, key, v))
            else if w[0] == '}' then Some((JObj(Put(acc, key, v)), w[1..]))
            else None
  }

  /** json.loads(s): one value, then nothing but white space. */
  function Decode(s: string): Option<Json>
  {
    match ParseValue(s)
    case Some((j, rest)) => if SkipSpace(rest) == [] then Some(j) else None
    case None => None
  }

  // ----------------------------------------------------------- round trip

  /** What may follow a value inside encoded text. */
  predicate Delimited(rest: string)
  {
    rest == [] || rest[0] == ',' || rest[0] == ']' || rest[0] == '}'
  }

  lemma EscapeCharParses(c: char, more: string, acc: string)
    ensures ParseString(EscapeChar(c) + more, acc) == ParseString(more, acc + [c])
  {
    if c == '"' || c == '\\' || c == '\n' || c == '\r' || c == '\t' || c == BACKSPACE || c == FORMFEED {
      ShortEscapeParses(c, more, acc);
    } else if c < ' ' {
      UnicodeEscapeParses(c, more, acc);
    } else {
      var s := EscapeChar(c) + more;
      assert s[0] == c && s[1..] == more;
    }
  }

  lemma ShortEscapeParses(c: char, more: string, acc: string)
    requires c == '"' || c == '\\' || c == '\n' || c == '\r' || c == '\t' || c == BACKSPACE || c == FORMFEED
    ensures ParseString(EscapeChar(c) + more, acc) == ParseString(more, acc + [c])
  {
    var s := EscapeChar(c) + more;
    assert |EscapeChar(c)| == 2 && s[0] == '\\' && s[1] == EscapeChar(c)[1] && s[2..] == more;
    assert Unescape(s[1]) == Some(c);
  }

  lemma UnicodeEscapeParses(c: char, more: string, acc: string)
    requires c < ' ' && c != '\n' && c != '\r' && c != '\t' && c != BACKSPACE && c != FORMFEED
    ensures ParseString(EscapeChar(c) + more, acc) == ParseString(more, acc + [c])
  {
    var h := HexDigits(c as int, 4);
    var s := EscapeChar(c) + more;
    assert EscapeChar(c) == "\\u" + h;
    assert Pow16(4) == 65536;
    HexDigitsRoundTrip(c as int, 4);
    assert s[0] == '\\' && s[1] == 'u' && s[2..6] == h && s[6..] == more;
    assert forall i :: 2 <= i < 6 ==> IsHexDigit(s[i]);
    var v := HexValue(s[2..6]);
    assert v == c as int && !IsSurrogate(v) && v < 0x11_0000 && v as char == c;
  }

  lemma {:induction false} EscapeParses(str: string, rest: string, acc: string)
    ensures ParseString(Escape(str) + "\"" + rest, acc) == Some((acc + str, rest))
    decreases |str|
  {
    if str == [] {
      assert (Escape(str) + "\"" + rest)[1..] == rest;
      assert acc + str == acc;
    } else {
      var more := Escape(str[1..]) + "\"" + rest;
      assert Escape(str) + "\"" + rest == EscapeChar(str[0]) + more;
      EscapeCharParses(str[0], more, acc);
      EscapeParses(str[1..], rest, acc + [str[0]]);
      assert acc + [str[0]] + str[1..] == acc + str;
    }
  }

  lemma DigitRunPrefix(d: string, rest: string)
    requires AllDigits(d) && (rest == [] || !IsDigit(rest[0]))
    ensures DigitRun(d + rest) == |d|
    decreases |d|
  {
    if d != [] {
      assert (d + rest)[1..] == d[1..] + rest;
      DigitRunPrefix(d[1..], rest);
    } else {
      assert d + rest == rest;
    }
  }

  lemma NatParses(v: nat, rest: string)
    requires rest == [] || !IsDigit(rest[0])
    ensures var d := NatToString(v);
      DigitRun(d + rest) == |d| && (d + rest)[..|d|] == d && (d + rest)[|d|..] == rest
      && DigitsValue(d) == v && (|d| > 1 ==> d[0] != '0')
  {
    var d := NatToString(v);
    NatToStringRoundTrip(v);
    NatToStringLeadingZero(v);
    DigitRunPrefix(d, rest);
    assert (d + rest)[..|d|] == d;
    if v == 0 {
      assert |d| == 1;
    }
  }

  lemma IntParses(n: int, rest: string)
    requires Delimited(rest)
    ensures ParseInt(IntToString(n) + rest) == Some((JInt(n), rest))
  {
    if n < 0 {
      NegativeParses(-n, rest);
      assert IntToString(n) == "-" + NatToString(-n);
    } else {
      NatParses(n, rest);
      NatToStringShape(n);
      var s := NatToString(n) + rest;
      assert s[0] != '-';
      assert IntToString(n) + rest == s;
    }
  }

  /** A minus sign, then the digits of v, then the delimited rest, parses as -v. */
  lemma NegativeParses(v: nat, rest: string)
    requires Delimited(rest) && v > 0
    ensures ParseInt("-" + NatToString(v) + rest) == Some((JInt(-(v as int)), rest))
  {
    var d := NatToString(v);
    NatParses(v, rest);
    var s := "-" + d + rest;
    var t := s[1..];
    assert s[0] == '-' && t == d + rest;
    assert DigitRun(t) == |d| && t[..|d|] == d && t[|d|..] == rest && DigitsValue(d) == v;
  }

  lemma SkipSpaceEncoded(j: Json, rest: string)
    ensures SkipSpace(Encode(j) + rest) == Encode(j) + rest
    ensures |Encode(j)| > 0 && Encode(j)[0] != ']'
  {
    match j
    case JInt(n) =>
      NatToStringShape(if n < 0 then -n else n);
      assert (Encode(j) + rest)[0] == IntToString(n)[0];
    case _ =>
  }

  /** Parsing the encoding of a valid value, followed by a delimiter, gives the value back. */
  lemma {:induction false} ParseEncode(j: Json, rest: string)
    requires Valid(j) && Delimited(rest)
    ensures ParseValue(Encode(j) + rest) == Some((j, rest))
    decreases j, 2
  {
    SkipSpaceEncoded(j, rest);
    TokenParses(j, rest);
  }

  lemma {:induction false} TokenParses(j: Json, rest: string)
    requires Valid(j) && Delimited(rest)
    ensures ParseToken(Encode(j) + rest) == Some((j, rest))
    decreases j, 1
  {
    match j
    case JNull => LiteralParses("null", JNull, rest);
    case JBool(b) =>
      if b { LiteralParses("true", j, rest); } else { LiteralParses("false", j, rest); }
    case JInt(n) => IntTokenParses(n, rest);
    case JStr(str) => StringTokenParses(str, rest);
    case JArr(items) => ArrayTokenParses(items, rest);
    case JObj(m) => ObjectTokenParses(m, rest);
  }

  lemma {:induction false} ArrayTokenParses(items: seq<Json>, rest: string)
    requires Valid(JArr(items)) && Delimited(rest)
    ensures ParseToken(Encode(JArr(items)) + rest) == Some((JArr(items), rest))
    decreases JArr(items), 0
  {
    var s := Encode(JArr(items)) + rest;
    assert s == "[" + (EncodeItems(items) + "]" + rest);
    assert s[0] == '[' && s[1..] == EncodeItems(items) + "]" + rest;
    ArrayParses(items, rest);
    assert ParseToken(s) == ParseArray(s[1..]);
  }

  lemma {:induction false} ObjectTokenParses(m: Dict<Json>, rest: string)
    requires Valid(JObj(m)) && Delimited(rest)
    ensures ParseToken(Encode(JObj(m)) + rest) == Some((JObj(m), rest))
    decreases JObj(m), 0
  {
    var s := Encode(JObj(m)) + rest;
    assert s == "{" + (EncodeMembers(m) + "}" + rest);
    assert s[0] == '{' && s[1..] == EncodeMembers(m) + "}" + rest;
    assert Distinct(m) && forall i :: 0 <= i < |m| ==> ValidMember(m[i]);
    ObjectParses(m, rest);
    assert ParseToken(s) == ParseObject(s[1..]);
  }

  lemma LiteralParses(word: string, j: Json, rest: string)
    requires word == "null" || word == "true" || word == "false"
    requires j == (if word == "null" then JNull else JBool(word == "true"))
    ensures ParseToken(word + rest) == Some((j, rest))
  {
    var t := word + rest;
    assert word <= t && t[|word|..] == rest;
  }

  lemma IntTokenParses(n: int, rest: string)
    requires Delimited(rest)
    ensures ParseToken(IntToString(n) + rest) == Some((JInt(n), rest))
  {
    var t := IntToString(n) + rest;
    assert t[0] == IntToString(n)[0];
    IntParses(n, rest);
  }

  lemma StringTokenParses(str: string, rest: string)
    ensures ParseToken(Quote(str) + rest) == Some((JStr(str), rest))
  {
    var t := Quote(str) + rest;
    assert t[0] == '"' && t[1..] == Escape(str) + "\"" + rest;
    EscapeParses(str, rest, "");
    assert "" + str == str;
  }

  lemma {:induction false} ArrayParses(items: seq<Json>, rest: string)
    requires Delimited(rest)
    requires forall i :: 0 <= i < |items| ==> Valid(items[i])
    ensures ParseArray(EncodeItems(items) + "]" + rest) == Some((JArr(items), rest))
    decreases items, 1
  {
    var s := EncodeItems(items) + "]" + rest;
    if items == [] {
      assert s == "]" + rest;
    } else {
      ItemsNotClosing(items, rest);
      ParseEncodeItems(items, [], rest);
      assert [] + items == items;
    }
  }

  lemma {:induction false} ObjectParses(m: Dict<Json>, rest: string)
    requires Delimited(rest)
    requires Distinct(m) && forall i :: 0 <= i < |m| ==> ValidMember(m[i])
    ensures ParseObject(EncodeMembers(m) + "}" + rest) == Some((JObj(m), rest))
    decreases m, 1
  {
    var s := EncodeMembers(m) + "}" + rest;
    if m == [] {
      assert s == "}" + rest;
    } else {
      MembersSkipSpace(m, rest);
      ParseEncodeMembers(m, [], rest);
      assert [] + m == m;
    }
  }

  /** A non-empty element list does not start with the closing bracket. */
  lemma ItemsNotClosing(items: seq<Json>, rest: string)
    requires items != []
    ensures var t := SkipSpace(EncodeItems(items) + "]" + rest); t != [] && t[0] != ']'
  {
    var e := Encode(items[0]);
    var more := if |items| == 1 then "]" + rest else ", " + EncodeItems(items[1..]) + "]" + rest;
    assert EncodeItems(items) + "]" + rest == e + more;
    SkipSpaceEncoded(items[0], more);
  }

  lemma MembersSkipSpace(m: Dict<Json>, rest: string)
    requires m != []
    ensures var s := EncodeMembers(m) + "}" + rest; SkipSpace(s) == s && s[0] == '"'
  {
    var more := if |m| == 1 then "}" + rest else ", " + EncodeMembers(m[1..]) + "}" + rest;
    assert EncodeMembers(m) + "}" + rest == EncodeMember(m[0]) + more;
    MemberStartsWithQuote(m[0], more);
  }

  /** An encoded member starts with the quote of its key, so no space is skipped. */
  lemma MemberStartsWithQuote(p: (string, Json), more: string)
    ensures var s := EncodeMember(p) + more; s != [] && s[0] == '"' && SkipSpace(s) == s
  {
    assert EncodeMember(p) == "\"" + Escape(p.0) + "\"" + ": " + Encode(p.1);
    MemberTail(Escape(p.0), Encode(p.1), more);
    QuoteFirst(Escape(p.0) + "\"" + (": " + Encode(p.1) + more));
  }

  /** A string that opens with a quote has nothing to skip. */
  lemma QuoteFirst(x: string)
    ensures var s := "\"" + x; s != [] && s[0] == '"' && SkipSpace(s) == s
  {
    assert ("\"" + x)[0] == '"';
  }

  lemma {:induction false} ParseEncodeItems(items: seq<Json>, acc: seq<Json>, rest: string)
    requires items != [] && Delimited(rest)
    requires forall i :: 0 <= i < |items| ==> Valid(items[i])
    ensures ParseElements(EncodeItems(items) + "]" + rest, acc) == Some((JArr(acc + items), rest))
    decreases items, 0
  {
    var s := EncodeItems(items) + "]" + rest;
    if |items| == 1 {
      assert s == Encode(items[0]) + ("]" + rest);
      ParseEncode(items[0], "]" + rest);
      assert [items[0]] == items;
    } else {
      var tail := EncodeItems(items[1..]) + "]" + rest;
      ItemsSplit(items, rest);
      ParseEncode(items[0], ", " + tail);
      forall i | 0 <= i < |items[1..]| ensures Valid(items[1..][i]) {
        assert items[1..][i] == items[i + 1];
      }
      ParseEncodeItems(items[1..], acc + [items[0]], rest);
      ItemsGlue(items, acc, rest);
    }
  }

  lemma ItemsSplit(items: seq<Json>, rest: string)
    requires |items| > 1
    ensures EncodeItems(items) + "]" + rest == Encode(items[0]) + (", " + (EncodeItems(items[1..]) + "]" + rest))
  {
    var a := Encode(items[0]);
    var b := EncodeItems(items[1..]);
    assert EncodeItems(items) == a + ", " + b;
    Regroup(a, ", ", b, "]", rest);
  }

  /** Joins the first element's parse to the parse of the remaining elements. */
  lemma ItemsGlue(items: seq<Json>, acc: seq<Json>, rest: string)
    requires |items| > 1
    requires var tail := EncodeItems(items[1..]) + "]" + rest;
      ParseValue(Encode(items[0]) + (", " + tail)) == Some((items[0], ", " + tail))
    requires ParseElements(EncodeItems(items[1..]) + "]" + rest, acc + [items[0]])
      == Some((JArr(acc + [items[0]] + items[1..]), rest))
    ensures ParseElements(EncodeItems(items) + "]" + rest, acc) == Some((JArr(acc + items), rest))
  {
    var tail := EncodeItems(items[1..]) + "]" + rest;
    ItemsSplit(items, rest);
    assert SkipSpace(", " + tail) == ", " + tail;
    assert (", " + tail)[1..] == " " + tail;
    ElementsSkipSpace(items[1..], acc + [items[0]], tail);
    AppendHead(acc, items);
  }

  /** The element parser skips the space that json.dumps writes after a comma. */
  lemma ElementsSkipSpace(items: seq<Json>, acc: seq<Json>, tail: string)
    ensures ParseElements(" " + tail, acc) == ParseElements(tail, acc)
  {
    assert SkipSpace(" " + tail) == SkipSpace(tail) by {
      assert (" " + tail)[1..] == tail;
    }
    ParseValueSkipsSpace(" " + tail, tail);
  }

  lemma ParseValueSkipsSpace(s: string, t: string)
    requires SkipSpace(s) == SkipSpace(t)
    ensures ParseValue(s) == ParseValue(t)
  {
  }

  lemma MemberKeyParses(p: (string, Json), more: string)
    ensures var s := EncodeMember(p) + more;
      SkipSpace(s) == s && s[0] == '"' &&
      ParseString(s[1..], "") == Some((p.0, ": " + Encode(p.1) + more))
  {
    var e := Escape(p.0);
    var x := ": " + Encode(p.1) + more;
    MemberStartsWithQuote(p, more);
    MemberTail(e, Encode(p.1), more);
    assert EncodeMember(p) + more == "\"" + (e + "\"" + x);
    EscapeParses(p.0, x, "");
    assert "" + p.0 == p.0;
  }

  /** An encoded member after its opening quote: the escaped key, its closing quote, then the rest. */
  lemma MemberTail(e: string, v: string, more: string)
    ensures ("\"" + e + "\"" + ": " + v) + more == "\"" + (e + "\"" + (": " + v + more))
    ensures ("\"" + (e + "\"" + (": " + v + more)))[1..] == e + "\"" + (": " + v + more)
  {
  }

  lemma {:induction false} MemberValueParses(p: (string, Json), rest: string)
    requires ValidMember(p) && Delimited(rest)
    ensures ParseValue((": " + Encode(p.1) + rest)[1..]) == Some((p.1, rest))
    decreases p, 0
  {
    var s := ": " + Encode(p.1) + rest;
    assert s[1..] == " " + (Encode(p.1) + rest);
    SkipSpaceEncoded(p.1, rest);
    assert SkipSpace(" " + (Encode(p.1) + rest)) == Encode(p.1) + rest by {
      assert (" " + (Encode(p.1) + rest))[1..] == Encode(p.1) + rest;
    }
    ParseEncode(p.1, rest);
    ParseValueSkipsSpace(s[1..], Encode(p.1) + rest);
  }

  lemma {:induction false} ParseEncodeMembers(m: Dict<Json>, acc: Dict<Json>, rest: string)
    requires m != [] && Delimited(rest)
    requires Distinct(m) && forall i :: 0 <= i < |m| ==> ValidMember(m[i])
    requires forall k :: HasKey(m, k) ==> !HasKey(acc, k)
    ensures ParseMembers(EncodeMembers(m) + "}" + rest, acc) == Some((JObj(acc + m), rest))
    decreases m, 0
  {
    var p := m[0];
    assert HasKey(m, p.0);
    PutFresh(acc, p.0, p.1);
    var acc' := acc + [p];
    assert ValidMember(m[0]);
    if |m| == 1 {
      var more := "}" + rest;
      assert EncodeMembers(m) + "}" + rest == EncodeMember(p) + more;
      MemberStep(p, more, acc);
      assert [p] == m;
      assert more[1..] == rest;
    } else {
      var tail := EncodeMembers(m[1..]) + "}" + rest;
      var more := ", " + tail;
      MemberStep(p, more, acc);
      MembersTail(m, acc);
      ParseEncodeMembers(m[1..], acc', rest);
      MembersGlue(m, acc, rest);
    }
  }

  /** Joins the first member's step to the parse of the remaining members. */
  lemma MembersGlue(m: Dict<Json>, acc: Dict<Json>, rest: string)
    requires |m| > 1 && !HasKey(acc, m[0].0)
    requires var more := ", " + (EncodeMembers(m[1..]) + "}" + rest);
      ParseMembers(EncodeMember(m[0]) + more, acc) == ParseMembers(more[1..], Put(acc, m[0].0, m[0].1))
    requires ParseMembers(EncodeMembers(m[1..]) + "}" + rest, acc + [m[0]])
      == Some((JObj(acc + [m[0]] + m[1..]), rest))
    ensures ParseMembers(EncodeMembers(m) + "}" + rest, acc) == Some((JObj(acc + m), rest))
  {
    var p := m[0];
    var tail := EncodeMembers(m[1..]) + "}" + rest;
    var more := ", " + tail;
    MembersSplit(m, rest);
    PutFresh(acc, p.0, p.1);
    assert more[1..] == " " + tail;
    MembersSkipLeadingSpace(tail, acc + [p]);
    AppendHead(acc, m);
  }

  lemma AppendHead<T>(a: seq<T>, m: seq<T>)
    requires m != []
    ensures a + [m[0]] + m[1..] == a + m
  {
    assert m == [m[0]] + m[1..];
  }

  lemma MembersSplit(m: Dict<Json>, rest: string)
    requires |m| > 1
    ensures EncodeMembers(m) + "}" + rest == EncodeMember(m[0]) + (", " + (EncodeMembers(m[1..]) + "}" + rest))
  {
    var a := EncodeMember(m[0]);
    var b := EncodeMembers(m[1..]);
    assert EncodeMembers(m) == a + ", " + b;
    Regroup(a, ", ", b, "}", rest);
  }

  lemma Regroup(a: string, b: string, c: string, d: string, e: string)
    ensures a + b + c + d + e == a + (b + (c + d + e))
  {
  }

  lemma MembersTail(m: Dict<Json>, acc: Dict<Json>)
    requires m != [] && Distinct(m) && forall i :: 0 <= i < |m| ==> ValidMember(m[i])
    requires forall k :: HasKey(m, k) ==> !HasKey(acc, k)
    ensures Distinct(m[1..]) && forall i :: 0 <= i < |m[1..]| ==> ValidMember(m[1..][i])
    ensures forall k :: HasKey(m[1..], k) ==> !HasKey(acc + [m[0]], k)
  {
    forall k | HasKey(m[1..], k) ensures !HasKey(acc + [m[0]], k) {
      LookupAppend(acc, [m[0]], k);
      assert k != m[0].0;
    }
    forall i | 0 <= i < |m[1..]| ensures ValidMember(m[1..][i]) {
      assert m[1..][i] == m[i + 1];
    }
  }

  lemma MembersSkipLeadingSpace(tail: string, acc: Dict<Json>)
    ensures ParseMembers(" " + tail, acc) == ParseMembers(tail, acc)
  {
    assert SkipSpace(" " + tail) == SkipSpace(tail) by {
      assert (" " + tail)[1..] == tail;
    }
  }

  /** One encoded member, followed by a comma or the closing brace. */
  lemma {:induction false} MemberStep(p: (string, Json), more: string, acc: Dict<Json>)
    requires ValidMember(p) && more != [] && (more[0] == ',' || more[0] == '}')
    ensures more[0] == ',' ==>
      ParseMembers(EncodeMember(p) + more, acc) == ParseMembers(more[1..], Put(acc, p.0, p.1))
    ensures more[0] == '}' ==>
      ParseMembers(EncodeMember(p) + more, acc) == Some((JObj(Put(acc, p.0, p.1)), more[1..]))
    decreases p, 1
  {
    var s := EncodeMember(p) + more;
    MemberKeyParses(p, more);
    var r := ": " + Encode(p.1) + more;
    assert SkipSpace(r) == r;
    MemberValueParses(p, more);
    assert SkipSpace(more) == more;
  }

  /** json.loads(json.dumps(j)) == j for every valid value. */
  lemma DecodeEncode(j: Json)
    requires Valid(j)
    ensures Decode(Encode(j)) == Some(j)
  {
    ParseEncode(j, []);
    assert Encode(j) + [] == Encode(j);
  }

  // ---------------------------------------------------------- sort_keys

  lemma {:induction false} SortMembersAt(m: Dict<Json>, i: nat)
    requires i < |m|
    ensures SortMembers(m)[i] == SortMember(m[i])
    decreases m
  {
    if i > 0 {
      SortMembersAt(m[1..], i - 1);
    }
  }

  /** Sorting the values inside members keeps each key with its (sorted) value. */
  lemma {:induction false} LookupSortMembers(m: Dict<Json>, k: string)
    ensures Lookup(SortMembers(m), k) ==
      match Lookup(m, k) case None => None case Some(v) => Some(SortKeys(v))
    decreases m
  {
    if m != [] {
      LookupSortMembers(m[1..], k);
    }
  }

  lemma {:induction false} SortMembersDistinct(m: Dict<Json>)
    requires Distinct(m)
    ensures Distinct(SortMembers(m))
    decreases m
  {
    if m != [] {
      SortMembersDistinct(m[1..]);
      LookupSortMembers(m[1..], m[0].0);
    }
  }

  /** json.dumps(sort_keys=True) writes a valid value's objects with distinct keys in key order. */
  lemma {:induction false} SortKeysValid(j: Json)
    requires Valid(j)
    ensures Valid(SortKeys(j))
    decreases j, 1
  {
    match j
    case JArr(items) =>
      forall i | 0 <= i < |items| ensures Valid(SortItems(items)[i]) {
        SortItemsAt(items, i);
        SortKeysValid(items[i]);
      }
    case JObj(m) =>
      var sm := SortMembers(m);
      var s := SortByKey(sm);
      SortMembersDistinct(m);
      SortByKeyEntries(sm);
      SortByKeySorted(sm);
      forall i | 0 <= i < |s| ensures ValidMember(s[i]) {
        assert s[i] in multiset(sm);
        var t :| 0 <= t < |sm| && sm[t] == s[i];
        SortMembersAt(m, t);
        assert ValidMember(m[t]);
        SortMemberValid(m[t]);
      }
    case _ =>
  }

  lemma {:induction false} SortMemberValid(p: (string, Json))
    requires ValidMember(p)
    ensures ValidMember(SortMember(p))
    decreases p, 0
  {
    SortKeysValid(p.1);
  }

  lemma {:induction false} SortItemsAt(items: seq<Json>, i: nat)
    requires i < |items|
    ensures SortItems(items)[i] == SortKeys(items[i])
    decreases items
  {
    if i > 0 {
      SortItemsAt(items[1..], i - 1);
    }
  }

  /** json.loads(json.dumps(j, sort_keys=True)) is j with its objects' keys in order. */
  lemma DecodeEncodeSorted(j: Json)
    requires Valid(j)
    ensures Decode(EncodeSorted(j)) == Some(SortKeys(j))
  {
    SortKeysValid(j);
    DecodeEncode(SortKeys(j));
  }

  /** Sorting an object's keys keeps the value read at every key. */
  lemma LookupSortKeys(m: Dict<Json>, k: string)
    requires Distinct(m)
    ensures Lookup(SortKeys(JObj(m)).members, k) ==
      match Lookup(m, k) case None => None case Some(v) => Some(SortKeys(v))
  {
    SortMembersDistinct(m);
    SortByKeyEntries(SortMembers(m));
    LookupSortMembers(m, k);
  }
}
