/**
  The pieces of JavaScript's value model and string built-ins that the services
  lean on: truthiness, `String(value)`, `String.prototype.trim`, `split(',')`,
  `Array.prototype.join`, `parseInt(s, 10)`, integer-to-decimal conversion and
  `toLowerCase` restricted to ASCII letters.
*/
module Js {
  import opened Wrappers

  /** A decoded JSON value as JavaScript sees it; numbers are restricted to integers. */
  datatype JsValue =
    | Undefined
    | Null
    | Bool(b: bool)
    | Num(n: int)
    | Str(s: string)
    | Arr(items: seq<JsValue>)
    | Obj(fields: map<string, JsValue>)

  /** `undefined` or `null`: reading a property of one of these throws a TypeError. */
  predicate Nullish(v: JsValue) {
    v.Undefined? || v.Null?
  }

  /** `undefined`, `null`, `false`, `0` and `''` are falsy; every other value is truthy. */
  predicate Truthy(v: JsValue) {
    match v
    case Undefined => false
    case Null => false
    case Bool(b) => b
    case Num(n) => n != 0
    case Str(s) => s != ""
    case Arr(_) => true
    case Obj(_) => true
  }

  /** `v.key` on a value that is not nullish: only objects carry the keys the services read. */
  function Get(v: JsValue, key: string): JsValue
    requires !Nullish(v)
  {
    if v.Obj? && key in v.fields then v.fields[key] else Undefined
  }

  /** `v || fallback` */
  function Or(v: JsValue, fallback: JsValue): JsValue {
    if Truthy(v) then v else fallback
  }

  /**
    `(v || [])` as a list that `.map` can run on: `[]` for a falsy value, the
    items of an array, and `None` for any other truthy value, whose `.map` is
    not a function.
  */
  function ListOrEmpty(v: JsValue): (r: Option<seq<JsValue>>)
    ensures !Truthy(v) ==> r == Some([])
    ensures v.Arr? ==> r == Some(v.items)
    ensures r.None? <==> Truthy(v) && !v.Arr?
  {
    if v.Arr? then Some(v.items) else if Truthy(v) then None else Some([])
  }

  /** `record.properties || {}` on a CRM record: an object to read the fields from, never nullish. */
  function PropertiesOf(record: JsValue): (props: JsValue)
    requires !Nullish(record)
    ensures !Nullish(props)
    ensures !Truthy(Get(record, "properties")) ==> forall key :: Get(props, key).Undefined?
  {
    Or(Get(record, "properties"), Obj(map[]))
  }

  // ---------------------------------------------------------------- decimals

  predicate IsDigit(c: char) {
    '0' <= c <= '9'
  }

  predicate AllDigits(s: string) {
    forall i :: 0 <= i < |s| ==> IsDigit(s[i])
  }

  function DigitChar(d: nat): (c: char)
    requires d < 10
    ensures IsDigit(c)
  {
    ('0' as int + d) as char
  }

  function DigitValue(c: char): (d: nat)
    requires IsDigit(c)
    ensures d < 10
  {
    c as int - '0' as int
  }

  /** `n.toString()` for a non-negative integer: no sign, no leading zeros. */
  function NatToDecimal(n: nat): (s: string)
    ensures 1 <= |s| && AllDigits(s)
    ensures |s| > 1 ==> s[0] != '0'
    decreases n
  {
    if n < 10 then [DigitChar(n)] else NatToDecimal(n / 10) + [DigitChar(n % 10)]
  }

  /** `n.toString()` for any integer. */
  function IntToDecimal(n: int): (s: string)
    ensures s != ""
  {
    if n < 0 then "-" + NatToDecimal(-n) else NatToDecimal(n)
  }

  /** The value of a string of decimal digits. */
  function DigitsValue(d: string): nat
    requires AllDigits(d)
  {
    if d == "" then 0 else DigitsValue(d[..|d| - 1]) * 10 + DigitValue(d[|d| - 1])
  }

  // ---------------------------------------------------------------- String(value)

  /** `Array.prototype.join(sep)` over strings. */
  function Join(parts: seq<string>, sep: string): string {
    if |parts| == 0 then ""
    else if |parts| == 1 then parts[0]
    else parts[0] + sep + Join(parts[1..], sep)
  }

  /**
    `String(value)`: arrays join their elements with ',' (null and undefined
    elements becoming ''), plain objects print as "[object Object]".
  */
  function ToJsString(v: JsValue): string
    decreases v, if v.Arr? then |v.items| + 1 else 0
  {
    match v
    case Undefined => "undefined"
    case Null => "null"
    case Bool(b) => if b then "true" else "false"
    case Num(n) => IntToDecimal(n)
    case Str(s) => s
    case Arr(items) => Join(ElementStrings(items, v), ",")
    case Obj(_) => "[object Object]"
  }

  /** The strings `join` puts between the commas for the elements of `parent`. */
  function ElementStrings(items: seq<JsValue>, ghost parent: JsValue): (r: seq<string>)
    requires forall x :: x in items ==> x < parent
    ensures |r| == |items|
    decreases parent, |items|
  {
    if items == [] then []
    else
      assert items[0] in items;
      assert forall x :: x in items[1..] ==> x in items;
      [if Nullish(items[0]) then "" else ToJsString(items[0])] + ElementStrings(items[1..], parent)
  }

  // ---------------------------------------------------------------- trim

  /** ECMAScript's WhiteSpace and LineTerminator code points, the set `trim` removes. */
  predicate IsWhitespace(c: char) {
    || c == '\t' || c == '\n' || c == '\U{000B}' || c == '\U{000C}' || c == '\r'
    || c == ' ' || c == '\U{00A0}' || c == '\U{1680}'
    || ('\U{2000}' <= c <= '\U{200A}')
    || c == '\U{2028}' || c == '\U{2029}' || c == '\U{202F}' || c == '\U{205F}'
    || c == '\U{3000}' || c == '\U{FEFF}'
  }

  predicate AllWhitespace(s: string) {
    forall i :: 0 <= i < |s| ==> IsWhitespace(s[i])
  }

  /** Neither end of the string is whitespace. */
  predicate IsTrimmed(s: string) {
    s == [] || (!IsWhitespace(s[0]) && !IsWhitespace(s[|s| - 1]))
  }

  /** How many whitespace characters `s` starts with. */
  function LeadingWhitespace(s: string): (n: nat)
    ensures n <= |s| && (n == |s| || !IsWhitespace(s[n]))
  {
    if |s| > 0 && IsWhitespace(s[0]) then 1 + LeadingWhitespace(s[1..]) else 0
  }

  /** How many whitespace characters `s` ends with. */
  function TrailingWhitespace(s: string): (n: nat)
    ensures n <= |s| && (n == |s| || !IsWhitespace(s[|s| - 1 - n]))
  {
    if |s| > 0 && IsWhitespace(s[|s| - 1]) then 1 + TrailingWhitespace(s[..|s| - 1]) else 0
  }

  function TrimStart(s: string): (r: string)
    ensures |r| <= |s| && r == s[|s| - |r|..]
    ensures r == [] || !IsWhitespace(r[0])
  {
    s[LeadingWhitespace(s)..]
  }

  function TrimEnd(s: string): (r: string)
    ensures |r| <= |s| && r == s[..|r|]
    ensures r == [] || !IsWhitespace(r[|r| - 1])
  {
    s[..|s| - TrailingWhitespace(s)]
  }

  /** `s.trim()`: neither end of the result is whitespace. */
  function Trim(s: string): (r: string)
    ensures |r| <= |s| && IsTrimmed(r)
  {
    TrimEnd(TrimStart(s))
  }

  lemma {:induction false} TrimStartDropsWhitespace(s: string)
    ensures AllWhitespace(s[..|s| - |TrimStart(s)|])
  {
    if |s| > 0 && IsWhitespace(s[0]) {
      TrimStartDropsWhitespace(s[1..]);
      var k := |s| - |TrimStart(s)|;
      assert s[..k] == [s[0]] + s[1..][..k - 1];
    }
  }

  lemma {:induction false} TrimEndDropsWhitespace(s: string)
    ensures AllWhitespace(s[|TrimEnd(s)|..])
  {
    if |s| > 0 && IsWhitespace(s[|s| - 1]) {
      var p := s[..|s| - 1];
      TrimEndDropsWhitespace(p);
      assert s[|TrimEnd(s)|..] == p[|TrimEnd(p)|..] + [s[|s| - 1]];
    }
  }

  /**
    What `trim` keeps is a slice of `s`: the one that starts where `TrimStart`
    stopped.
  */
  lemma TrimIsSlice(s: string)
    ensures var i := |s| - |TrimStart(s)|;
            i + |Trim(s)| <= |s| && Trim(s) == s[i..i + |Trim(s)|]
  {
    var t := TrimStart(s);
    var r := TrimEnd(t);
    var i := |s| - |t|;
    assert t == s[i..];
    assert r == t[..|r|];
    SuffixSlices(s, i, |r|);
    assert Trim(s) == r;
  }

  /** What `trim` removes, on either side of that slice, is whitespace. */
  lemma TrimDropsWhitespace(s: string)
    ensures var i := |s| - |TrimStart(s)|;
            i + |Trim(s)| <= |s| && AllWhitespace(s[..i]) && AllWhitespace(s[i + |Trim(s)|..])
  {
    var t := TrimStart(s);
    TrimStartDropsWhitespace(s);
    TrimEndDropsWhitespace(t);
    SuffixSlices(s, |s| - |t|, |TrimEnd(t)|);
  }

  lemma SuffixSlices(s: string, i: nat, n: nat)
    requires i + n <= |s|
    ensures s[i..][..n] == s[i..i + n] && s[i..][n..] == s[i + n..]
  {
  }

  /** `trim` gives the empty string exactly when `s` is all whitespace. */
  lemma TrimEmptyIff(s: string)
    ensures Trim(s) == "" <==> AllWhitespace(s)
  {
    var r := Trim(s);
    var i := |s| - |TrimStart(s)|;
    TrimIsSlice(s);
    TrimDropsWhitespace(s);
    if r != "" {
      assert r[0] == s[i] && !IsWhitespace(r[0]);
    } else {
      assert s == s[..i] + s[i..];
    }
  }

  /** A string with no whitespace at either end is left alone by `trim`. */
  lemma TrimFixesTrimmed(s: string)
    requires IsTrimmed(s)
    ensures Trim(s) == s
  {
    assert TrimStart(s) == s;
    assert TrimEnd(s) == s;
  }

  lemma TrimIdempotent(s: string)
    ensures Trim(Trim(s)) == Trim(s)
  {
    TrimFixesTrimmed(Trim(s));
  }

  // ---------------------------------------------------------------- split

  /**
    `s.split(sep)` for a one-character separator: every occurrence of `sep`
    starts a new part, so there is always at least one part.
  */
  function Split(s: string, sep: char): (parts: seq<string>)
    ensures |parts| >= 1
    ensures forall i :: 0 <= i < |parts| ==> sep !in parts[i]
  {
    if |s| == 0 then [""]
    else
      var rest := Split(s[1..], sep);
      if s[0] == sep then [""] + rest else [[s[0]] + rest[0]] + rest[1..]
  }

  /** Joining the parts of a split with the separator gives the original string back. */
  lemma {:induction false} JoinSplit(s: string, sep: char)
    ensures Join(Split(s, sep), [sep]) == s
  {
    if |s| > 0 {
      var rest := Split(s[1..], sep);
      JoinSplit(s[1..], sep);
      if s[0] == sep {
        assert ([""] + rest)[1..] == rest;
      } else {
        var parts := [[s[0]] + rest[0]] + rest[1..];
        if |rest| == 1 {
          assert parts == [[s[0]] + rest[0]];
        } else {
          assert parts[1..] == rest[1..];
          assert Join(rest, [sep]) == rest[0] + [sep] + Join(rest[1..], [sep]);
        }
      }
    }
  }

  // ---------------------------------------------------------------- parseInt

  /** The longest prefix of `s` made of decimal digits. */
  function DigitPrefix(s: string): (d: string)
    ensures |d| <= |s| && d == s[..|d|] && AllDigits(d)
    ensures |d| < |s| ==> !IsDigit(s[|d|])
  {
    if |s| > 0 && IsDigit(s[0]) then [s[0]] + DigitPrefix(s[1..]) else ""
  }

  /**
    `parseInt(s, 10)`: skip leading whitespace, read an optional sign, then the
    longest run of digits; `None` is NaN (no digits at all).
  */
  function ParseInt(s: string): Option<int> {
    ParseSigned(TrimStart(s))
  }

  /** `parseInt` once leading whitespace is gone. */
  function ParseSigned(t: string): Option<int> {
    if |t| > 0 && t[0] == '-' then
      match ParseDigits(t[1..])
      case None => None
      case Some(m) => Some(-m)
    else if |t| > 0 && t[0] == '+' then ParseDigits(t[1..])
    else ParseDigits(t)
  }

  /** The value of the leading run of digits, `None` when there is none. */
  function ParseDigits(u: string): Option<int> {
    var d := DigitPrefix(u);
    if d == "" then None else Some(DigitsValue(d))
  }

  lemma {:induction false} DigitsValueOfDecimal(n: nat)
    ensures DigitsValue(NatToDecimal(n)) == n
  {
    if n >= 10 {
      var s := NatToDecimal(n);
      var hd := NatToDecimal(n / 10);
      assert s[..|s| - 1] == hd;
      DigitsValueOfDecimal(n / 10);
    }
  }

  lemma {:induction false} DigitPrefixOfDigits(d: string, rest: string)
    requires AllDigits(d)
    requires rest == "" || !IsDigit(rest[0])
    ensures DigitPrefix(d + rest) == d
  {
    if d != "" {
      assert (d + rest)[1..] == d[1..] + rest;
      DigitPrefixOfDigits(d[1..], rest);
    }
  }

  /**
    `parseInt` reads back what `toString` wrote, and stops at the first
    character after the number that is not a digit (so `parseInt('12abc')` is 12).
  */
  lemma ParseDigitsOfDecimal(m: nat, rest: string)
    requires rest == "" || !IsDigit(rest[0])
    ensures ParseDigits(NatToDecimal(m) + rest) == Some(m)
  {
    DigitPrefixOfDigits(NatToDecimal(m), rest);
    DigitsValueOfDecimal(m);
  }

  lemma NotWhitespaceStart(s: string)
    requires s != "" && (s[0] == '-' || IsDigit(s[0]))
    ensures TrimStart(s) == s
  {
  }

  lemma {:induction false} ParseIntOfDecimal(n: int, rest: string)
    requires rest == "" || !IsDigit(rest[0])
    ensures ParseInt(IntToDecimal(n) + rest) == Some(n)
  {
    var s := IntToDecimal(n) + rest;
    if n < 0 {
      var d := NatToDecimal(-n);
      assert s == "-" + d + rest;
      assert s[0] == '-';
      NotWhitespaceStart(s);
      assert ParseInt(s) == ParseSigned(s);
      ParseNegative(-n, rest);
    } else {
      var d := NatToDecimal(n);
      assert s == d + rest;
      assert IsDigit(d[0]) && s[0] == d[0];
      NotWhitespaceStart(s);
      assert ParseInt(s) == ParseSigned(s);
      ParsePositive(n, rest);
    }
  }


  lemma ParseNegative(m: nat, rest: string)
    requires rest == "" || !IsDigit(rest[0])
    ensures ParseSigned("-" + NatToDecimal(m) + rest) == Some(-(m as int))
  {
    var u := NatToDecimal(m) + rest;
    assert "-" + NatToDecimal(m) + rest == "-" + u;
    ParseDigitsOfDecimal(m, rest);
    ParseMinus(u, m);
  }

  lemma ParseMinus(u: string, m: nat)
    requires ParseDigits(u) == Some(m)
    ensures ParseSigned("-" + u) == Some(-(m as int))
  {
    assert ("-" + u)[1..] == u;
  }

  lemma ParsePositive(m: nat, rest: string)
    requires rest == "" || !IsDigit(rest[0])
    ensures ParseSigned(NatToDecimal(m) + rest) == Some(m)
  {
    ParseDigitsOfDecimal(m, rest);
    var s := NatToDecimal(m) + rest;
    assert IsDigit(s[0]);
  }

  /** Leading whitespace never changes what `parseInt` reads. */
  lemma ParseIntSkipsWhitespace(ws: string, s: string)
    requires AllWhitespace(ws)
    ensures ParseInt(ws + s) == ParseInt(s)
  {
    TrimStartSkips(ws, s);
  }

  lemma {:induction false} TrimStartSkips(ws: string, s: string)
    requires AllWhitespace(ws)
    ensures TrimStart(ws + s) == TrimStart(s)
  {
    if ws != "" {
      assert (ws + s)[0] == ws[0] && IsWhitespace(ws[0]);
      assert (ws + s)[1..] == ws[1..] + s;
      assert AllWhitespace(ws[1..]) by {
        forall i | 0 <= i < |ws| - 1 ensures IsWhitespace(ws[1..][i]) {
          assert ws[1..][i] == ws[i + 1];
        }
      }
      TrimStartSkips(ws[1..], s);
      var w := ws + s;
      assert |w| > 0 && IsWhitespace(w[0]);
      assert TrimStart(w) == TrimStart(w[1..]);
    } else {
      assert ws + s == s;
    }
  }

  // ---------------------------------------------------------------- case

  function AsciiLowerChar(c: char): char {
    if 'A' <= c <= 'Z' then (c as int + 32) as char else c
  }

  /** `s.toLowerCase()` on ASCII letters; every other character is kept. */
  function AsciiLower(s: string): (r: string)
    ensures |r| == |s|
  {
    seq(|s|, i requires 0 <= i < |s| => AsciiLowerChar(s[i]))
  }
}
