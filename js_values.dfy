/**
 * JavaScript values as the app's code sees them, and the handful of
 * JavaScript coercions that code relies on: truthiness (`!x`, `a || b`),
 * optional property reads (`x?.k`), parameter defaults (`k = d`),
 * `String(x)` and `Number(x)`.
 *
 * Numbers are integers here: `Num(n)` is a finite integral number and `NaN`
 * is NaN.  Objects keep their properties in insertion order, which is the
 * order `JSON.stringify` and `Object.entries` follow for string keys; the
 * integer-like keys JavaScript lists first, in ascending order, are not
 * modelled.
 */
module JsValues {

  datatype Option<T> = None | Some(value: T)

  datatype JsVal =
    | Undefined
    | Null
    | Bool(b: bool)
    | Num(n: int)
    | NaN
    | Str(s: string)
    | Obj(props: seq<Prop>)
    | Arr(items: seq<JsVal>)

  /** One own property of an object, in insertion order. */
  datatype Prop = Prop(key: string, value: JsVal)

  predicate IsNullish(v: JsVal) {
    v.Undefined? || v.Null?
  }

  /** JavaScript truthiness: `!!v`. Objects and arrays, even empty ones, are truthy. */
  predicate Truthy(v: JsVal) {
    match v
    case Undefined => false
    case Null => false
    case Bool(b) => b
    case Num(n) => n != 0
    case NaN => false
    case Str(s) => s != ""
    case Obj(_) => true
    case Arr(_) => true
  }

  /** `a || b`: the first operand when it is truthy, otherwise the second. */
  function Or(a: JsVal, b: JsVal): JsVal {
    if Truthy(a) then a else b
  }

  lemma OrTruthy(a: JsVal, b: JsVal)
    ensures Truthy(Or(a, b)) <==> Truthy(a) || Truthy(b)
    ensures Or(a, b) == a || Or(a, b) == b
    ensures Truthy(a) ==> Or(a, b) == a
    ensures !Truthy(a) ==> Or(a, b) == b
  {
  }

  /** A default in a destructuring pattern (`{ k = d }`) applies only to `undefined`, not to `null`. */
  function Default(v: JsVal, d: JsVal): (r: JsVal)
    ensures v != Undefined ==> r == v
    ensures v == Undefined ==> r == d
  {
    if v.Undefined? then d else v
  }

  predicate HasKey(props: seq<Prop>, k: string) {
    exists i :: 0 <= i < |props| && props[i].key == k
  }

  /** The property names, in order (`Object.keys`). */
  function Keys(props: seq<Prop>): (ks: seq<string>)
    ensures |ks| == |props|
  {
    seq(|props|, i requires 0 <= i < |props| => props[i].key)
  }

  /** No two properties share a key, as in every JavaScript object. */
  predicate UniqueKeys(props: seq<Prop>) {
    forall i, j :: 0 <= i < j < |props| ==> props[i].key != props[j].key
  }

  /** The value of the last property named `k`; `Undefined` when there is none. */
  function Lookup(props: seq<Prop>, k: string): JsVal {
    if props == [] then Undefined
    else if props[|props| - 1].key == k then props[|props| - 1].value
    else Lookup(props[..|props| - 1], k)
  }

  /** `Lookup` finds the last property named `k`, and `Undefined` when there is none. */
  lemma {:induction false} LookupLast(props: seq<Prop>, k: string)
    ensures !HasKey(props, k) ==> Lookup(props, k) == Undefined
    ensures HasKey(props, k) ==>
      exists i :: 0 <= i < |props| && props[i].key == k && props[i].value == Lookup(props, k) &&
        forall j :: i < j < |props| ==> props[j].key != k
  {
    if props != [] && props[|props| - 1].key != k {
      var init := props[..|props| - 1];
      LookupLast(init, k);
      if HasKey(props, k) {
        var i :| 0 <= i < |props| && props[i].key == k;
        assert init[i].key == k;
        var i' :| 0 <= i' < |init| && init[i'].key == k && init[i'].value == Lookup(init, k) &&
          forall j :: i' < j < |init| ==> init[j].key != k;
        assert props[i'] == init[i'];
      } else {
        assert !HasKey(init, k) by {
          forall i | 0 <= i < |init|
            ensures init[i].key != k
          {
            assert props[i] == init[i];
          }
        }
      }
    }
  }

  /**
   * `v?.k` for the keys this app reads: a property of an object, `undefined`
   * for every other value (a primitive has none of these properties, and the
   * optional chain stops at `null`/`undefined`).  Where the code writes a
   * plain `v.k` on a value that may be nullish, callers model the TypeError
   * with `IsNullish` themselves.
   */
  function Get(v: JsVal, k: string): JsVal {
    if v.Obj? then Lookup(v.props, k) else Undefined
  }

  /** In an object whose keys are distinct, reading a property's own key gives that property's value. */
  lemma GetUnique(props: seq<Prop>, i: nat)
    requires UniqueKeys(props) && i < |props|
    ensures Get(Obj(props), props[i].key) == props[i].value
  {
    GetLiteral(props, i, props[i].key);
  }

  lemma GetLiteral(props: seq<Prop>, i: nat, k: string)
    requires i < |props| && props[i].key == k
    requires forall j :: 0 <= j < |props| && j != i ==> props[j].key != k
    ensures Get(Obj(props), k) == props[i].value
  {
    LookupLast(props, k);
    assert HasKey(props, k);
    var i' :| 0 <= i' < |props| && props[i'].key == k && props[i'].value == Lookup(props, k);
    assert i' == i;
  }

  /** Every property named `k` gets the value `v`; order and other properties are kept. */
  function ReplaceAll(props: seq<Prop>, k: string, v: JsVal): (r: seq<Prop>)
    ensures |r| == |props|
    ensures forall i :: 0 <= i < |r| ==> r[i].key == props[i].key
  {
    if props == [] then []
    else
      var last := props[|props| - 1];
      ReplaceAll(props[..|props| - 1], k, v) + [if last.key == k then Prop(k, v) else last]
  }

  /** `{ ...props, [k]: v }`: an existing key keeps its position and takes the new value; a new key goes last. */
  function SetProp(props: seq<Prop>, k: string, v: JsVal): seq<Prop> {
    if HasKey(props, k) then ReplaceAll(props, k, v) else props + [Prop(k, v)]
  }

  /** A key is present exactly when the last property has it or an earlier one does. */
  lemma HasKeySplit(props: seq<Prop>, k: string)
    requires props != []
    ensures HasKey(props, k) <==> HasKey(props[..|props| - 1], k) || props[|props| - 1].key == k
  {
    var init := props[..|props| - 1];
    if HasKey(props, k) && props[|props| - 1].key != k {
      var i :| 0 <= i < |props| && props[i].key == k;
      assert init[i].key == k;
    }
    if HasKey(init, k) {
      var i :| 0 <= i < |init| && init[i].key == k;
      assert props[i].key == k;
    }
  }

  lemma {:induction false} LookupReplaceAll(props: seq<Prop>, k: string, v: JsVal, k': string)
    ensures Lookup(ReplaceAll(props, k, v), k') ==
      if k' == k && HasKey(props, k) then v else Lookup(props, k')
  {
    if props != [] {
      var init := props[..|props| - 1];
      var last := props[|props| - 1];
      var r := ReplaceAll(props, k, v);
      var rInit := ReplaceAll(init, k, v);
      var rLast := if last.key == k then Prop(k, v) else last;
      assert r == rInit + [rLast];
      assert r[..|r| - 1] == rInit && r[|r| - 1] == rLast;
      LookupReplaceAll(init, k, v, k');
      HasKeySplit(props, k);
    }
  }

  /** Reading after `SetProp`: the new value under `k`, everything else as before. */
  lemma LookupSetProp(props: seq<Prop>, k: string, v: JsVal, k': string)
    ensures Lookup(SetProp(props, k, v), k') == if k' == k then v else Lookup(props, k')
    ensures HasKey(SetProp(props, k, v), k') <==> k' == k || HasKey(props, k')
  {
    if HasKey(props, k) {
      LookupReplaceAll(props, k, v, k');
      var r := ReplaceAll(props, k, v);
      if HasKey(r, k') {
        var i :| 0 <= i < |r| && r[i].key == k';
        assert props[i].key == k';
      }
      if HasKey(props, k') {
        var i :| 0 <= i < |props| && props[i].key == k';
        assert r[i].key == k';
      }
    } else {
      var r := props + [Prop(k, v)];
      assert r[..|r| - 1] == props;
      if HasKey(r, k') && k' != k {
        var i :| 0 <= i < |r| && r[i].key == k';
        assert props[i].key == k';
      }
      if HasKey(props, k') {
        var i :| 0 <= i < |props| && props[i].key == k';
        assert r[i].key == k';
      }
    }
  }

  // ---------------------------------------------------------------------
  // Decimal digits (shared by String(), Number() and JSON text)
  // ---------------------------------------------------------------------

  predicate IsDigit(c: char) {
    '0' <= c <= '9'
  }

  predicate AllDigits(s: string) {
    forall i :: 0 <= i < |s| ==> IsDigit(s[i])
  }

  function DigitChar(d: nat): (c: char)
    requires d < 10
    ensures IsDigit(c)
  {
    ['0', '1', '2', '3', '4', '5', '6', '7', '8', '9'][d]
  }

  function DigitValue(c: char): (d: nat)
    requires IsDigit(c)
    ensures d < 10
  {
    (c as int - '0' as int) as nat
  }

  lemma DigitRoundTrip(d: nat)
    requires d < 10
    ensures DigitValue(DigitChar(d)) == d
  {
  }

  /** The decimal value of a string of digits, read left to right. */
  function DigitsValue(s: string): nat
    requires AllDigits(s)
  {
    if s == [] then 0
    else DigitsValue(s[..|s| - 1]) * 10 + DigitValue(s[|s| - 1])
  }

  /** The shortest decimal numeral of `n` (what `String(n)` gives for a non-negative integer). */
  function NatToString(n: nat): (s: string)
    ensures |s| >= 1 && AllDigits(s)
  {
    if n < 10 then [DigitChar(n)]
    else NatToString(n / 10) + [DigitChar(n % 10)]
  }

  lemma {:induction false} NatToStringValue(n: nat)
    ensures DigitsValue(NatToString(n)) == n
  {
    var s := NatToString(n);
    if n < 10 {
      assert s[..0] == [];
      DigitRoundTrip(n);
    } else {
      NatToStringValue(n / 10);
      assert s[..|s| - 1] == NatToString(n / 10);
      DigitRoundTrip(n % 10);
    }
  }

  /** `String(n)` for an integral number. */
  function IntToString(n: int): (s: string)
    ensures |s| >= 1
  {
    if n < 0 then "-" + NatToString(-n) else NatToString(n)
  }

  // ---------------------------------------------------------------------
  // String(v)
  // ---------------------------------------------------------------------

  /** `String(v)`; an array is joined with commas, `null`/`undefined` items becoming empty. */
  function ToStr(v: JsVal): string {
    match v
    case Undefined => "undefined"
    case Null => "null"
    case Bool(b) => if b then "true" else "false"
    case Num(n) => IntToString(n)
    case NaN => "NaN"
    case Str(s) => s
    case Obj(_) => "[object Object]"
    case Arr(items) => JoinItems(items)
  }

  function JoinItems(items: seq<JsVal>): string {
    if items == [] then ""
    else
      var first := if IsNullish(items[0]) then "" else ToStr(items[0]);
      if |items| == 1 then first else first + "," + JoinItems(items[1..])
  }

  // ---------------------------------------------------------------------
  // Number(v)
  // ---------------------------------------------------------------------

  /** JavaScript's white space and line terminators, which `Number` trims. */
  predicate IsSpace(c: char) {
    c == ' ' || c == '\t' || c == '\n' || c == '\r' || c == '\U{0B}' || c == '\U{0C}' ||
    c == '\U{A0}' || c == '\U{1680}' || ('\U{2000}' <= c <= '\U{200A}') ||
    c == '\U{2028}' || c == '\U{2029}' || c == '\U{202F}' || c == '\U{205F}' ||
    c == '\U{3000}' || c == '\U{FEFF}'
  }

  function TrimStart(s: string): (t: string)
    ensures |t| <= |s| && t == s[|s| - |t|..]
    ensures t == [] || !IsSpace(t[0])
  {
    if s != [] && IsSpace(s[0]) then TrimStart(s[1..]) else s
  }

  function TrimEnd(s: string): (t: string)
    ensures |t| <= |s| && t == s[..|t|]
    ensures t == [] || !IsSpace(t[|t| - 1])
  {
    if s != [] && IsSpace(s[|s| - 1]) then TrimEnd(s[..|s| - 1]) else s
  }

  /**
   * `Number(s)` for a string: surrounding white space is ignored, an empty
   * string is 0, an optionally signed run of decimal digits is that integer,
   * and anything else is NaN (including the hexadecimal, binary and octal
   * forms, fractions and exponents that JavaScript reads as numbers).
   */
  function StringToNumber(s: string): (r: JsVal)
    ensures r.Num? || r.NaN?
  {
    var t := TrimEnd(TrimStart(s));
    if t == [] then Num(0)
    else if t[0] == '-' && |t| > 1 && AllDigits(t[1..]) then Num(-(DigitsValue(t[1..]) as int))
    else if t[0] == '+' && |t| > 1 && AllDigits(t[1..]) then Num(DigitsValue(t[1..]))
    else if AllDigits(t) then Num(DigitsValue(t))
    else NaN
  }

  /**
   * `Number(v)`.  Objects and arrays go through their string form, as
   * JavaScript's ToPrimitive does (so `Number([])` is 0 and `Number([7])` is 7).
   */
  function ToNumber(v: JsVal): (r: JsVal)
    ensures r.Num? || r.NaN?
  {
    match v
    case Undefined => NaN
    case Null => Num(0)
    case Bool(b) => Num(if b then 1 else 0)
    case Num(n) => Num(n)
    case NaN => NaN
    case Str(s) => StringToNumber(s)
    case Obj(_) => StringToNumber(ToStr(v))
    case Arr(_) => StringToNumber(ToStr(v))
  }

  lemma TrimNoSpace(s: string)
    requires AllDigits(s) || (s != [] && (s[0] == '-' || s[0] == '+') && AllDigits(s[1..]))
    requires s != []
    ensures TrimEnd(TrimStart(s)) == s
  {
    assert !IsSpace(s[0]);
    assert !IsSpace(s[|s| - 1]) by {
      if |s| > 1 { assert s[|s| - 1] == s[1..][|s| - 2]; }
    }
  }

  /** `Number(String(n)) === n` for every integer `n`. */
  lemma NumberOfIntString(n: int)
    ensures ToNumber(Str(IntToString(n))) == Num(n)
  {
    if n < 0 {
      NumberOfNegativeInt(n);
    } else {
      NumberOfNatString(n);
    }
  }

  lemma NumberOfNatString(m: nat)
    ensures StringToNumber(NatToString(m)) == Num(m)
  {
    var d := NatToString(m);
    TrimNoSpace(d);
    assert d[0] != '-' && d[0] != '+' by {
      assert IsDigit(d[0]);
    }
    NatToStringValue(m);
  }

  lemma NumberOfNegativeInt(n: int)
    requires n < 0
    ensures ToNumber(Str(IntToString(n))) == Num(n)
  {
    NatToStringValue(-n);
    NumberOfNegativeIntString(n, NatToString(-n));
  }

  /** `String(n)` of a negative `n` is a minus sign before the digits `d` of `-n`, which read back as `n`. */
  lemma NumberOfNegativeIntString(n: int, d: string)
    requires n < 0 && d == NatToString(-n) && DigitsValue(d) == -n
    ensures StringToNumber(IntToString(n)) == Num(n)
  {
    assert IntToString(n) == "-" + d;
    NumberOfSignedDigits(d);
  }

  /** A minus sign before a run of digits reads as the negated value of the digits. */
  lemma NumberOfSignedDigits(d: string)
    requires |d| >= 1 && AllDigits(d)
    ensures StringToNumber("-" + d) == Num(-(DigitsValue(d) as int))
  {
    var s := "-" + d;
    assert s[0] == '-' && s[1..] == d;
    TrimNoSpace(s);
  }

  /** A word is not a number: `Number("abc")` is NaN. */
  lemma WordIsNaN()
    ensures ToNumber(Str("abc")) == NaN
  {
    assert TrimStart("abc") == "abc";
    assert TrimEnd("abc") == "abc";
    assert !IsDigit("abc"[0]);
  }
}
