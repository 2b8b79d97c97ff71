/**
  The HubSpot proxy's normalisation helpers (`safeString`, `safeArray`,
  `toISODate`): total functions from a loosely-typed upstream value to a string
  or a list of strings.
*/
module Helpers {
  import opened Wrappers
  import opened Js

  /**
    `safeString`: `undefined`, `null` and `''` become `''`; anything else is
    converted with `String` and trimmed. Unlike a `|| ''` default, the falsy
    number `0` survives as "0".
  */
  function SafeString(v: JsValue): (r: string)
    ensures IsTrimmed(r)
    ensures v.Undefined? || v.Null? || v == Str("") ==> r == ""
    ensures v.Str? ==> r == Trim(v.s)
    ensures v == Num(0) ==> r == "0"
  {
    if v.Undefined? || v.Null? || v == Str("") then ""
    else
      TrimFixesTrimmed("0");
      assert ToJsString(Num(0)) == "0";
      Trim(ToJsString(v))
  }

  /** `safeString` maps a string to `''` exactly when it is blank. */
  lemma SafeStringBlank(s: string)
    ensures SafeString(Str(s)) == "" <==> AllWhitespace(s)
  {
    TrimEmptyIff(s);
  }

  /** Running a `safeString` result through `safeString` again changes nothing. */
  lemma SafeStringIdempotent(v: JsValue)
    ensures SafeString(Str(SafeString(v))) == SafeString(v)
  {
    var r := SafeString(v);
    if r != "" {
      TrimFixesTrimmed(r);
    }
  }

  /** `items.filter(v => v).map(v => String(v))` */
  function TruthyStrings(items: seq<JsValue>): (r: seq<string>)
    ensures |r| <= |items|
  {
    if items == [] then []
    else (if Truthy(items[0]) then [ToJsString(items[0])] else []) + TruthyStrings(items[1..])
  }

  /** Filtering and stringifying keeps order: it distributes over concatenation. */
  lemma {:induction false} TruthyStringsAppend(a: seq<JsValue>, b: seq<JsValue>)
    ensures TruthyStrings(a + b) == TruthyStrings(a) + TruthyStrings(b)
  {
    if a != [] {
      assert (a + b)[0] == a[0];
      assert (a + b)[1..] == a[1..] + b;
      TruthyStringsAppend(a[1..], b);
    } else {
      assert a + b == b;
    }
  }

  /** When every element is truthy nothing is dropped: element `i` becomes `String(items[i])`. */
  lemma {:induction false} TruthyStringsKeepsTruthy(items: seq<JsValue>)
    requires forall i :: 0 <= i < |items| ==> Truthy(items[i])
    ensures |TruthyStrings(items)| == |items|
    ensures forall i :: 0 <= i < |items| ==> TruthyStrings(items)[i] == ToJsString(items[i])
  {
    if items != [] {
      TruthyStringsKeepsTruthy(items[1..]);
    }
  }

  /** When every element is falsy the result is empty. */
  lemma {:induction false} TruthyStringsDropsFalsy(items: seq<JsValue>)
    requires forall i :: 0 <= i < |items| ==> !Truthy(items[i])
    ensures TruthyStrings(items) == []
  {
    if items != [] {
      TruthyStringsDropsFalsy(items[1..]);
    }
  }

  /**
    `safeArray`: a falsy value (including `0`, `false` and `''`) gives `[]`; an
    array keeps its truthy elements, stringified; any other truthy value becomes
    the one-element list of its string form, untrimmed.
  */
  function SafeArray(v: JsValue): (r: seq<string>)
    ensures !Truthy(v) ==> r == []
    ensures v.Arr? ==> r == TruthyStrings(v.items) && |r| <= |v.items|
    ensures v.Str? && v.s != "" ==> r == [v.s]
    ensures Truthy(v) && !v.Arr? ==> r == [ToJsString(v)]
  {
    if !Truthy(v) then []
    else if v.Arr? then TruthyStrings(v.items)
    else [ToJsString(v)]
  }

  /**
    `toISODate`: `''` for a falsy value and for one the date parser rejects;
    otherwise the ISO form `isoOf` produces. `isoOf` stands for
    `new Date(v)` followed by `toISOString`, `None` for an invalid date.
  */
  function ToIsoDate(v: JsValue, isoOf: JsValue -> Option<string>): (r: string)
    ensures !Truthy(v) ==> r == ""
    ensures isoOf(v).None? ==> r == ""
    ensures r != "" ==> Truthy(v) && isoOf(v) == Some(r)
  {
    if !Truthy(v) then ""
    else
      match isoOf(v)
      case None => ""
      case Some(iso) => iso
  }
}
