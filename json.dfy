/**
 * `JSON.stringify` and `JSON.parse` as the session store uses them.
 *
 * `Stringify` is the lossy step from a JavaScript value to a JSON document
 * (an `undefined` property disappears, NaN becomes `null`, an `undefined`
 * array item becomes `null`); `Serialize` writes the document as text and
 * `Parse` reads text back.  The text syntax is the part of JSON these two
 * agree on: no white space and integers only, with JSON's own rules for
 * leading zeros, string escapes and control characters.
 * `Parse(Serialize(j)) == Some(j)` is proved for every document.
 */
module Json {
  import opened JsValues

  datatype Json =
    | JNull
    | JBool(b: bool)
    | JNum(n: int)
    | JStr(s: string)
    | JArr(items: seq<Json>)
    | JObj(members: seq<Member>)

  datatype Member = Member(key: string, value: Json)

  // ---------------------------------------------------------------------
  // JSON.stringify's value step, and JSON.parse's result
  // ---------------------------------------------------------------------

  /** The document `JSON.stringify(v)` writes; `None` where it writes nothing (`undefined`). */
  function Stringify(v: JsVal): (r: Option<Json>)
    ensures r.None? <==> v.Undefined?
  {
    match v
    case Undefined => None
    case Null => Some(JNull)
    case Bool(b) => Some(JBool(b))
    case Num(n) => Some(JNum(n))
    case NaN => Some(JNull)
    case Str(s) => Some(JStr(s))
    case Obj(props) => Some(JObj(StringifyProps(props)))
    case Arr(items) => Some(JArr(StringifyItems(items)))
  }

  /** Object properties whose value is `undefined` are left out. */
  function StringifyProps(props: seq<Prop>): (ms: seq<Member>)
    ensures |ms| <= |props|
  {
    if props == [] then []
    else
      var rest := StringifyProps(props[1..]);
      match Stringify(props[0].value)
      case None => rest
      case Some(j) => [Member(props[0].key, j)] + rest
  }

  /** Array items that are `undefined` are written as `null`. */
  function StringifyItems(items: seq<JsVal>): (js: seq<Json>)
    ensures |js| == |items|
  {
    if items == [] then []
    else
      var first := match Stringify(items[0]) case None => JNull case Some(j) => j;
      [first] + StringifyItems(items[1..])
  }

  /**
   * The value `JSON.parse` builds from a document.  A key that appears twice
   * stays as two properties here, where `JSON.parse` keeps one (at the first
   * position, with the last value); `Lookup` reads the last one, so every
   * key reads the same value either way.
   */
  function ToJs(j: Json): JsVal {
    match j
    case JNull => Null
    case JBool(b) => Bool(b)
    case JNum(n) => Num(n)
    case JStr(s) => Str(s)
    case JArr(items) => Arr(ItemsToJs(items))
    case JObj(members) => Obj(MembersToJs(members))
  }

  function ItemsToJs(items: seq<Json>): (vs: seq<JsVal>)
    ensures |vs| == |items|
  {
    if items == [] then [] else [ToJs(items[0])] + ItemsToJs(items[1..])
  }

  function MembersToJs(members: seq<Member>): (ps: seq<Prop>)
    ensures |ps| == |members|
    ensures forall i :: 0 <= i < |ps| ==> ps[i].key == members[i].key
  {
    if members == [] then [] else [Prop(members[0].key, ToJs(members[0].value))] + MembersToJs(members[1..])
  }

  /** What a value becomes after `JSON.parse(JSON.stringify(v))`, with `undefined` staying `undefined`. */
  function Reloaded(v: JsVal): JsVal {
    match Stringify(v)
    case None => Undefined
    case Some(j) => ToJs(j)
  }

  /** Primitives other than NaN survive the trip unchanged; NaN comes back as `null`. */
  lemma ReloadedPrimitive(v: JsVal)
    requires !v.Obj? && !v.Arr?
    ensures v != NaN ==> Reloaded(v) == v
    ensures Reloaded(NaN) == Null
    ensures Truthy(Reloaded(v)) == Truthy(v)
  {
  }

  /** Reading a property back after the trip gives the property's own trip (keys of a JS object are distinct). */
  lemma {:induction false} ReloadedLookup(props: seq<Prop>, k: string)
    requires UniqueKeys(props)
    ensures Lookup(MembersToJs(StringifyProps(props)), k) == Reloaded(Lookup(props, k))
  {
    if props != [] {
      var init := props[..|props| - 1];
      var last := props[|props| - 1];
      assert props == init + [last];
      assert UniqueKeys(init) by {
        forall a, b | 0 <= a < b < |init|
          ensures init[a].key != init[b].key
        {
          assert init[a] == props[a] && init[b] == props[b];
        }
      }
      assert Lookup(props, k) == if last.key == k then last.value else Lookup(init, k);
      StringifyPropsAppend(init, last);
      MembersToJsAppend(StringifyProps(init), StringifyProps([last]));
      ReloadedLookup(init, k);
      var ms := MembersToJs(StringifyProps(init));
      if Stringify(last.value).None? {
        assert StringifyProps([last]) == [];
        assert StringifyProps(props) == StringifyProps(init);
        if last.key == k {
          assert !HasKey(init, k) by {
            forall a | 0 <= a < |init|
              ensures init[a].key != k
            {
              assert init[a] == props[a];
            }
          }
          LookupLast(init, k);
        }
      } else {
        var j := Stringify(last.value).value;
        assert StringifyProps([last]) == [Member(last.key, j)];
        var full := ms + [Prop(last.key, ToJs(j))];
        assert full[..|full| - 1] == ms;
        assert Lookup(full, k) == if last.key == k then ToJs(j) else Lookup(ms, k);
      }
    }
  }

  lemma StringifyPropsAppend(a: seq<Prop>, p: Prop)
    ensures StringifyProps(a + [p]) == StringifyProps(a) + StringifyProps([p])
  {
    if a != [] {
      assert (a + [p])[1..] == a[1..] + [p];
      StringifyPropsAppend(a[1..], p);
    } else {
      assert a + [p] == [p];
    }
  }

  lemma MembersToJsAppend(a: seq<Member>, b: seq<Member>)
    ensures MembersToJs(a + b) == MembersToJs(a) + MembersToJs(b)
  {
    if a != [] {
      assert (a + b)[1..] == a[1..] + b;
      MembersToJsAppend(a[1..], b);
    } else {
      assert a + b == b;
    }
  }

  // ---------------------------------------------------------------------
  // JSON text
  // ---------------------------------------------------------------------

  /** The lower-case hexadecimal digit `JSON.stringify` writes in a `\u` escape. */
  function HexDigit(d: nat): (c: char)
    requires d < 16
    ensures IsHexDigit(c) && HexValue(c) == d
  {
    "0123456789abcdef"[d]
  }

  predicate IsHexDigit(c: char) {
    '0' <= c <= '9' || 'a' <= c <= 'f' || 'A' <= c <= 'F'
  }

  function HexValue(c: char): (d: nat)
    requires IsHexDigit(c)
    ensures d < 16
  {
    if '0' <= c <= '9' then (c as int - '0' as int) as nat
    else if 'a' <= c <= 'f' then (c as int - 'a' as int + 10) as nat
    else (c as int - 'A' as int + 10) as nat
  }

  /**
   * How `JSON.stringify` writes one character of a string: `"` and `\` after
   * a backslash, the five control characters that have one as `\b`, `\t`,
   * `\n`, `\f`, `\r`, the other control characters below U+0020 as
   * `\u00` and two hex digits, and everything else as it is.
   */
  function EscapeChar(c: char): (e: string)
    ensures |e| >= 1 && (e[0] == '\\' <==> c == '"' || c == '\\' || c < ' ')
    ensures e[0] != '\\' ==> e == [c]
  {
    if c == '"' || c == '\\' then ['\\', c]
    else if c == '\U{08}' then "\\b"
    else if c == '\t' then "\\t"
    else if c == '\n' then "\\n"
    else if c == '\U{0C}' then "\\f"
    else if c == '\r' then "\\r"
    else if c < ' ' then "\\u00" + [HexDigit(c as int / 16), HexDigit(c as int % 16)]
    else [c]
  }

  function Escape(s: string): string {
    if s == [] then [] else EscapeChar(s[0]) + Escape(s[1..])
  }

  function Quote(s: string): string {
    "\"" + Escape(s) + "\""
  }

  function Size(j: Json): (n: nat)
    ensures n >= 1
  {
    match j
    case JArr(items) => 1 + ItemsSize(items)
    case JObj(members) => 1 + MembersSize(members)
    case _ => 1
  }

  function ItemsSize(items: seq<Json>): nat {
    if items == [] then 0 else Size(items[0]) + ItemsSize(items[1..])
  }

  function MembersSize(members: seq<Member>): nat {
    if members == [] then 0 else Size(members[0].value) + MembersSize(members[1..])
  }

  /** The text `JSON.stringify` writes for a document of integers, without white space. */
  function Serialize(j: Json): (t: string)
    ensures |t| >= 1 && t[0] != ']' && t[0] != '}'
  {
    match j
    case JNull => "null"
    case JBool(b) => if b then "true" else "false"
    case JNum(n) => IntToString(n)
    case JStr(s) => Quote(s)
    case JArr(items) => if items == [] then "[]" else "[" + SerializeItems(items) + "]"
    case JObj(members) => if members == [] then "{}" else "{" + SerializeMembers(members) + "}"
  }

  function SerializeItems(items: seq<Json>): (t: string)
    requires items != []
    ensures |t| >= 1 && t[0] != ']'
  {
    if |items| == 1 then Serialize(items[0])
    else Serialize(items[0]) + "," + SerializeItems(items[1..])
  }

  function SerializeMember(m: Member): string {
    Quote(m.key) + ":" + Serialize(m.value)
  }

  function SerializeMembers(members: seq<Member>): (t: string)
    requires members != []
    ensures |t| >= 1 && t[0] == '"'
  {
    if |members| == 1 then SerializeMember(members[0])
    else SerializeMember(members[0]) + "," + SerializeMembers(members[1..])
  }

  // ---------------------------------------------------------------------
  // Parsing
  // ---------------------------------------------------------------------

  /**
   * The character a backslash escape stands for and the escape's length:
   * `\"`, `\\`, `\/`, `\b`, `\f`, `\n`, `\r`, `\t`, or `\u` and four hex
   * digits in either case.  A `\u` escape of a surrogate half is left out:
   * it only stands for a character together with its partner.
   */
  function Unescape(s: string): (r: Option<(char, nat)>)
    requires |s| >= 1 && s[0] == '\\'
    ensures r.Some? ==> 2 <= r.value.1 <= |s|
  {
    if |s| < 2 then None
    else if s[1] == '"' || s[1] == '\\' || s[1] == '/' then Some((s[1], 2))
    else if s[1] == 'b' then Some(('\U{08}', 2))
    else if s[1] == 'f' then Some(('\U{0C}', 2))
    else if s[1] == 'n' then Some(('\n', 2))
    else if s[1] == 'r' then Some(('\r', 2))
    else if s[1] == 't' then Some(('\t', 2))
    else if s[1] == 'u' && |s| >= 6 && IsHexDigit(s[2]) && IsHexDigit(s[3]) && IsHexDigit(s[4]) && IsHexDigit(s[5]) then
      var v := HexValue(s[2]) * 4096 + HexValue(s[3]) * 256 + HexValue(s[4]) * 16 + HexValue(s[5]);
      if 0xD800 <= v <= 0xDFFF then None else Some((v as char, 6))
    else None
  }

  /**
   * The first character of a string body that is not its closing quote, and
   * how many characters of text it took: an escape, or any character at or
   * above U+0020 as it is.  A raw control character is a SyntaxError.
   */
  function BodyChar(s: string): (r: Option<(char, nat)>)
    requires s != []
    ensures r.Some? ==> 1 <= r.value.1 <= |s|
  {
    if s[0] == '\\' then Unescape(s)
    else if s[0] < ' ' then None
    else Some((s[0], 1))
  }

  /** Reads a string body up to and including its closing quote; returns it and the rest. */
  function ParseStringBody(s: string): (r: Option<(string, string)>)
    ensures r.Some? ==> |r.value.1| < |s|
  {
    if s == [] then None
    else if s[0] == '"' then Some(([], s[1..]))
    else
      match BodyChar(s)
      case None => None
      case Some((c, n)) =>
        match ParseStringBody(s[n..])
        case None => None
        case Some((body, rest)) => Some(([c] + body, rest))
  }

  /** The number of leading decimal digits. */
  function DigitRun(s: string): (n: nat)
    ensures n <= |s| && AllDigits(s[..n])
    ensures n < |s| ==> !IsDigit(s[n])
  {
    if s == [] || !IsDigit(s[0]) then 0
    else
      var n := 1 + DigitRun(s[1..]);
      assert s[..n] == [s[0]] + s[1..][..n - 1];
      n
  }

  /** JSON's integer syntax: one digit, or several that do not start with `0`. */
  predicate NoLeadingZero(d: string) {
    |d| == 1 || (|d| > 1 && d[0] != '0')
  }

  /** An optional minus sign and an integer; a leading `0` before more digits is a SyntaxError. */
  function ParseNumber(s: string): (r: Option<(Json, string)>)
    ensures r.Some? ==> |r.value.1| < |s|
  {
    if s != [] && s[0] == '-' then
      var n := DigitRun(s[1..]);
      if !NoLeadingZero(s[1..][..n]) then None else Some((JNum(-(DigitsValue(s[1..][..n]) as int)), s[1..][n..]))
    else
      var n := DigitRun(s);
      if !NoLeadingZero(s[..n]) then None else Some((JNum(DigitsValue(s[..n])), s[n..]))
  }

  function ParseValue(s: string): (r: Option<(Json, string)>)
    ensures r.Some? ==> |r.value.1| < |s|
    decreases |s|, 0
  {
    if s == [] then None
    else if s[0] == 'n' then
      if |s| >= 4 && s[..4] == "null" then Some((JNull, s[4..])) else None
    else if s[0] == 't' then
      if |s| >= 4 && s[..4] == "true" then Some((JBool(true), s[4..])) else None
    else if s[0] == 'f' then
      if |s| >= 5 && s[..5] == "false" then Some((JBool(false), s[5..])) else None
    else if s[0] == '"' then
      match ParseStringBody(s[1..])
      case None => None
      case Some((body, rest)) => Some((JStr(body), rest))
    else if s[0] == '[' then
      if |s| >= 2 && s[1] == ']' then Some((JArr([]), s[2..]))
      else
        match ParseItems(s[1..])
        case None => None
        case Some((items, rest)) => Some((JArr(items), rest))
    else if s[0] == '{' then
      if |s| >= 2 && s[1] == '}' then Some((JObj([]), s[2..]))
      else
        match ParseMembers(s[1..])
        case None => None
        case Some((members, rest)) => Some((JObj(members), rest))
    else ParseNumber(s)
  }

  /** Items separated by `,` up to and including the closing `]`. */
  function ParseItems(s: string): (r: Option<(seq<Json>, string)>)
    ensures r.Some? ==> |r.value.1| < |s|
    decreases |s|, 1
  {
    match ParseValue(s)
    case None => None
    case Some((item, rest)) =>
      if rest != [] && rest[0] == ']' then Some(([item], rest[1..]))
      else if rest != [] && rest[0] == ',' then
        match ParseItems(rest[1..])
        case None => None
        case Some((more, rest')) => Some(([item] + more, rest'))
      else None
  }

  /** One member `"key":value`. */
  function ParseMember(s: string): (r: Option<(Member, string)>)
    ensures r.Some? ==> |r.value.1| < |s|
    decreases |s|, 1
  {
    if s == [] || s[0] != '"' then None
    else
      match ParseStringBody(s[1..])
      case None => None
      case Some((key, afterKey)) =>
        if afterKey == [] || afterKey[0] != ':' then None
        else
          match ParseValue(afterKey[1..])
          case None => None
          case Some((value, rest)) => Some((Member(key, value), rest))
  }

  /** Members separated by `,` up to and including the closing `}`. */
  function ParseMembers(s: string): (r: Option<(seq<Member>, string)>)
    ensures r.Some? ==> |r.value.1| < |s|
    decreases |s|, 2
  {
    match ParseMember(s)
    case None => None
    case Some((member, rest)) =>
      if rest != [] && rest[0] == '}' then Some(([member], rest[1..]))
      else if rest != [] && rest[0] == ',' then
        match ParseMembers(rest[1..])
        case None => None
        case Some((more, rest')) => Some(([member] + more, rest'))
      else None
  }

  /**
   * `JSON.parse(text)`: one whole document, nothing after it.  `None` is a
   * SyntaxError, and also valid JSON this codec does not read (white space,
   * fractions, exponents, escaped surrogate halves).
   */
  function Parse(text: string): Option<Json> {
    match ParseValue(text)
    case None => None
    case Some((j, rest)) => if rest == [] then Some(j) else None
  }

  // ---------------------------------------------------------------------
  // Round trip
  // ---------------------------------------------------------------------

  /** What may follow a value in a document: nothing, or a separator or closer. */
  predicate Follows(rest: string) {
    rest == [] || rest[0] == ',' || rest[0] == ']' || rest[0] == '}'
  }

  /** Every escape `EscapeChar` writes reads back as its character, consuming exactly the escape. */
  lemma UnescapeEscapeChar(c: char, tail: string)
    requires c == '"' || c == '\\' || c < ' '
    ensures Unescape(EscapeChar(c) + tail) == Some((c, |EscapeChar(c)|))
  {
    var t := EscapeChar(c) + tail;
    if c != '"' && c != '\\' && c != '\U{08}' && c != '\t' && c != '\n' && c != '\U{0C}' && c != '\r' {
      var hi, lo := HexDigit(c as int / 16), HexDigit(c as int % 16);
      assert t == ['\\', 'u', '0', '0', hi, lo] + tail;
      assert t[1] == 'u' && t[2] == '0' && t[3] == '0' && t[4] == hi && t[5] == lo;
      assert HexValue('0') == 0;
      assert (c as int / 16) * 16 + c as int % 16 == c as int;
    } else {
      assert t[1] == EscapeChar(c)[1];
    }
  }

  lemma {:induction false} StringBodyRoundTrip(s: string, rest: string)
    ensures ParseStringBody(Escape(s) + "\"" + rest) == Some((s, rest))
  {
    var t := Escape(s) + "\"" + rest;
    if s == [] {
      assert t == "\"" + rest;
      assert t[1..] == rest;
    } else {
      StringBodyRoundTrip(s[1..], rest);
      var tail := Escape(s[1..]) + "\"" + rest;
      var e := EscapeChar(s[0]);
      assert t == e + tail;
      if s[0] == '"' || s[0] == '\\' || s[0] < ' ' {
        UnescapeEscapeChar(s[0], tail);
        assert t[|e|..] == tail;
        EscapedHead(t, s[0], |e|, s[1..], rest);
      } else {
        assert t[1..] == tail;
        PlainHead(t, s[1..], rest);
      }
      assert [s[0]] + s[1..] == s;
    }
  }

  /** A string body that starts with an escape for `c` of length `n`. */
  lemma EscapedHead(t: string, c: char, n: nat, body: string, rest: string)
    requires t != [] && t[0] == '\\' && Unescape(t) == Some((c, n))
    requires ParseStringBody(t[n..]) == Some((body, rest))
    ensures ParseStringBody(t) == Some(([c] + body, rest))
  {
  }

  /** A string body that starts with a character written as it is. */
  lemma PlainHead(t: string, body: string, rest: string)
    requires t != [] && t[0] != '\\' && t[0] != '"' && t[0] >= ' '
    requires ParseStringBody(t[1..]) == Some((body, rest))
    ensures ParseStringBody(t) == Some(([t[0]] + body, rest))
  {
  }

  lemma {:induction false} DigitRunOf(d: string, rest: string)
    requires AllDigits(d)
    requires rest == [] || !IsDigit(rest[0])
    ensures DigitRun(d + rest) == |d|
  {
    if d != [] {
      assert (d + rest)[1..] == d[1..] + rest;
      DigitRunOf(d[1..], rest);
    } else {
      assert d + rest == rest;
    }
  }

  /** Only zero is written with a leading `0`. */
  lemma {:induction false} NatToStringLead(n: nat)
    ensures NoLeadingZero(NatToString(n))
  {
    if n >= 10 {
      NatToStringLead(n / 10);
      assert NatToString(n)[0] == NatToString(n / 10)[0];
    }
  }

  lemma NumberRoundTrip(n: int, rest: string)
    requires Follows(rest)
    ensures ParseValue(Serialize(JNum(n)) + rest) == Some((JNum(n), rest))
  {
    if n < 0 {
      NegativeText(-n, rest);
    } else {
      NonNegativeText(n, rest);
    }
  }

  lemma NegativeText(m: nat, rest: string)
    requires m > 0 && Follows(rest)
    ensures ParseValue(Serialize(JNum(-(m as int))) + rest) == Some((JNum(-(m as int)), rest))
  {
    var d := NatToString(m);
    var t := "-" + d + rest;
    assert Serialize(JNum(-(m as int))) == "-" + d;
    NatToStringValue(m);
    NatToStringLead(m);
    SignedDigitsRoundTrip(d, rest);
    ParseNumberValue(t);
  }

  lemma NonNegativeText(m: nat, rest: string)
    requires Follows(rest)
    ensures ParseValue(Serialize(JNum(m)) + rest) == Some((JNum(m), rest))
  {
    var d := NatToString(m);
    var t := d + rest;
    assert Serialize(JNum(m)) == d;
    NatToStringValue(m);
    NatToStringLead(m);
    DigitsRoundTrip(d, rest);
    ParseNumberValue(t);
  }

  /** Text starting with a minus sign or a digit is read by `ParseNumber`. */
  lemma ParseNumberValue(t: string)
    requires t != [] && (t[0] == '-' || IsDigit(t[0]))
    ensures ParseValue(t) == ParseNumber(t)
  {
  }

  /** A minus sign and a run of digits, followed by a separator or closer, read as the negated value and stop there. */
  lemma SignedDigitsRoundTrip(d: string, rest: string)
    requires NoLeadingZero(d) && AllDigits(d) && Follows(rest)
    ensures ("-" + d + rest)[0] == '-'
    ensures ParseNumber("-" + d + rest) == Some((JNum(-(DigitsValue(d) as int)), rest))
  {
    var u := d + rest;
    var t := "-" + u;
    assert "-" + d + rest == t;
    DigitRunOf(d, rest);
    assert u[..|d|] == d && u[|d|..] == rest;
    ParseNegative(t, d, rest);
  }

  /** `ParseNumber` on a minus sign, then digits `d` that the digit run covers exactly, then `rest`. */
  lemma ParseNegative(t: string, d: string, rest: string)
    requires |t| >= 1 && t[0] == '-' && AllDigits(d) && NoLeadingZero(d)
    requires DigitRun(t[1..]) == |d| && t[1..][..|d|] == d && t[1..][|d|..] == rest
    ensures ParseNumber(t) == Some((JNum(-(DigitsValue(d) as int)), rest))
  {
  }

  /** A run of digits followed by a separator or closer reads as its value and stops there. */
  lemma DigitsRoundTrip(d: string, rest: string)
    requires NoLeadingZero(d) && AllDigits(d) && Follows(rest)
    ensures IsDigit((d + rest)[0])
    ensures ParseNumber(d + rest) == Some((JNum(DigitsValue(d)), rest))
  {
    var t := d + rest;
    assert t[0] == d[0];
    DigitRunOf(d, rest);
    assert t[..|d|] == d && t[|d|..] == rest;
  }

  /** A quoted string reads back as itself. */
  lemma StringRoundTrip(s: string, rest: string)
    ensures ParseValue(Serialize(JStr(s)) + rest) == Some((JStr(s), rest))
  {
    var t := Serialize(JStr(s)) + rest;
    Regroup4("\"", Escape(s), "\"", rest);
    StringBodyRoundTrip(s, rest);
    ParseStringValue(t, s, rest);
  }

  /** Four concatenated strings, split after a one-character first one. */
  lemma Regroup4(a: string, b: string, c: string, r: string)
    requires |a| == 1
    ensures (a + b + c + r)[0] == a[0] && (a + b + c + r)[1..] == b + c + r
  {
    assert a + b + c + r == a + (b + c + r);
  }

  /** `ParseValue` on a quote, then a string body. */
  lemma ParseStringValue(t: string, s: string, rest: string)
    requires t != [] && t[0] == '"' && ParseStringBody(t[1..]) == Some((s, rest))
    ensures ParseValue(t) == Some((JStr(s), rest))
  {
  }

  lemma {:induction false} ValueRoundTrip(j: Json, rest: string)
    requires Follows(rest)
    ensures ParseValue(Serialize(j) + rest) == Some((j, rest))
    decreases Size(j), 0
  {
    var t := Serialize(j) + rest;
    match j
    case JNull =>
      assert t[..4] == "null" && t[4..] == rest;
    case JBool(b) =>
      if b {
        assert t[..4] == "true" && t[4..] == rest;
      } else {
        assert t[..5] == "false" && t[5..] == rest;
      }
    case JNum(n) =>
      NumberRoundTrip(n, rest);
    case JStr(s) =>
      StringRoundTrip(s, rest);
    case JArr(items) =>
      if items != [] {
        ArrayRoundTrip(items, rest);
      } else {
        assert t[1] == ']' && t[2..] == rest;
      }
    case JObj(members) =>
      if members != [] {
        ObjectRoundTrip(members, rest);
      } else {
        assert t[1] == '}' && t[2..] == rest;
      }
  }

  lemma {:induction false} ArrayRoundTrip(items: seq<Json>, rest: string)
    requires items != [] && Follows(rest)
    ensures ParseValue(Serialize(JArr(items)) + rest) == Some((JArr(items), rest))
    decreases ItemsSize(items), 2
  {
    var body := SerializeItems(items);
    var closed := "]" + rest;
    var t := Serialize(JArr(items)) + rest;
    Wrap("[", body, "]", rest);
    ItemsRoundTrip(items, closed);
    ParseArrayOf(t, items, rest);
  }

  lemma {:induction false} ObjectRoundTrip(members: seq<Member>, rest: string)
    requires members != [] && Follows(rest)
    ensures ParseValue(Serialize(JObj(members)) + rest) == Some((JObj(members), rest))
    decreases MembersSize(members), 3
  {
    var body := SerializeMembers(members);
    var closed := "}" + rest;
    var t := Serialize(JObj(members)) + rest;
    Wrap("{", body, "}", rest);
    MembersRoundTrip(members, closed);
    ParseObjectOf(t, members, rest);
  }

  /** Bracketed text: the opener, then the body followed by the closer and what comes after. */
  lemma Wrap(open: string, body: string, close: string, rest: string)
    requires |open| == 1 && |close| == 1 && body != []
    ensures open + body + close + rest == open + (body + (close + rest))
    ensures (open + body + close + rest)[0] == open[0] && (open + body + close + rest)[1] == body[0]
    ensures (open + body + close + rest)[1..] == body + (close + rest)
    ensures (close + rest)[0] == close[0] && (close + rest)[1..] == rest
  {
    assert (open + (body + (close + rest)))[1..] == body + (close + rest);
  }

  /** `ParseValue` on `[`, then items that run to the closing `]`. */
  lemma ParseArrayOf(t: string, items: seq<Json>, rest: string)
    requires |t| >= 2 && t[0] == '[' && t[1] != ']' && ParseItems(t[1..]) == Some((items, rest))
    ensures ParseValue(t) == Some((JArr(items), rest))
  {
  }

  /** `ParseValue` on `{`, then members that run to the closing `}`. */
  lemma ParseObjectOf(t: string, members: seq<Member>, rest: string)
    requires |t| >= 2 && t[0] == '{' && t[1] != '}' && ParseMembers(t[1..]) == Some((members, rest))
    ensures ParseValue(t) == Some((JObj(members), rest))
  {
  }

  lemma {:induction false} ItemsRoundTrip(items: seq<Json>, rest: string)
    requires items != []
    requires rest != [] && rest[0] == ']'
    ensures ParseItems(SerializeItems(items) + rest) == Some((items, rest[1..]))
    decreases ItemsSize(items), 1
  {
    var first := items[0];
    var t := SerializeItems(items) + rest;
    if |items| == 1 {
      ValueRoundTrip(first, rest);
      assert items == [first];
    } else {
      var tail := SerializeItems(items[1..]) + rest;
      var sep := "," + tail;
      assert t == Serialize(first) + sep;
      ValueRoundTrip(first, sep);
      assert sep[1..] == tail;
      ItemsRoundTrip(items[1..], rest);
      assert [first] + items[1..] == items;
    }
  }

  lemma {:induction false} MemberRoundTrip(m: Member, after: string)
    requires Follows(after)
    ensures ParseMember(SerializeMember(m) + after) == Some((m, after))
    decreases Size(m.value), 1
  {
    var valueText := Serialize(m.value) + after;
    var colon := ":" + valueText;
    var t := SerializeMember(m) + after;
    KeyRoundTrip(m, after, colon, t);
    ValueRoundTrip(m.value, after);
    ParseMemberOf(t, m, colon, after);
  }

  /** A member's quoted key reads back as itself and stops at the colon. */
  lemma KeyRoundTrip(m: Member, after: string, colon: string, t: string)
    requires colon == ":" + Serialize(m.value) + after && t == SerializeMember(m) + after
    ensures t != [] && t[0] == '"' && ParseStringBody(t[1..]) == Some((m.key, colon))
    ensures colon != [] && colon[0] == ':' && colon[1..] == Serialize(m.value) + after
  {
    MemberText(m, after, colon, t);
    StringBodyRoundTrip(m.key, colon);
  }

  /** The text of a member, split at its opening quote. */
  lemma MemberText(m: Member, after: string, colon: string, t: string)
    requires colon == ":" + Serialize(m.value) + after && t == SerializeMember(m) + after
    ensures t != [] && t[0] == '"' && t[1..] == Escape(m.key) + "\"" + colon
    ensures colon != [] && colon[0] == ':' && colon[1..] == Serialize(m.value) + after
  {
    Regroup("\"", Escape(m.key), "\"", ":", Serialize(m.value), after);
  }

  /** Regrouping six concatenated strings so the first one stands alone. */
  lemma Regroup(a: string, b: string, c: string, d: string, x: string, y: string)
    ensures a + b + c + d + x + y == a + (b + c + (d + x + y))
    ensures |a| == 1 ==> (a + (b + c + (d + x + y)))[1..] == b + c + (d + x + y)
  {
    assert (a + (b + c + (d + x + y)))[|a|..] == b + c + (d + x + y);
  }

  /** `ParseMember` on a quote, a key body ending at a colon, and a value. */
  lemma ParseMemberOf(t: string, m: Member, colon: string, after: string)
    requires t != [] && t[0] == '"' && ParseStringBody(t[1..]) == Some((m.key, colon))
    requires colon != [] && colon[0] == ':' && ParseValue(colon[1..]) == Some((m.value, after))
    ensures ParseMember(t) == Some((m, after))
  {
  }

  lemma {:induction false} MembersRoundTrip(members: seq<Member>, rest: string)
    requires members != []
    requires rest != [] && rest[0] == '}'
    ensures ParseMembers(SerializeMembers(members) + rest) == Some((members, rest[1..]))
    decreases MembersSize(members), 2
  {
    var m := members[0];
    var t := SerializeMembers(members) + rest;
    if |members| == 1 {
      MemberRoundTrip(m, rest);
      assert members == [m];
    } else {
      var tail := SerializeMembers(members[1..]) + rest;
      var sep := "," + tail;
      assert t == SerializeMember(m) + sep;
      MemberRoundTrip(m, sep);
      assert sep[1..] == tail;
      MembersRoundTrip(members[1..], rest);
      assert [m] + members[1..] == members;
    }
  }

  /** Every document reads back as itself. */
  lemma SerializeRoundTrip(j: Json)
    ensures Parse(Serialize(j)) == Some(j)
  {
    ValueRoundTrip(j, []);
    assert Serialize(j) + [] == Serialize(j);
  }

  /**
   * The syntax is JSON's own: a leading `0` before more digits and a raw
   * control character inside a string are SyntaxErrors, and a control
   * character is written as an escape that reads back as itself.
   */
  lemma StrictSyntax()
    ensures Parse("012") == None && Parse("-012") == None
    ensures Parse("0") == Some(JNum(0)) && Parse("-10") == Some(JNum(-10))
    ensures Parse("\"\n\"") == None
    ensures Serialize(JStr("\n")) == "\"\\n\""
    ensures Serialize(JStr("\U{01}")) == "\"\\u0001\""
    ensures Parse("\"\\n\"") == Some(JStr("\n"))
  {
    LeadingZeros();
    RawLineBreak();
    ControlEscapes();
  }

  lemma LeadingZeros()
    ensures Parse("012") == None && Parse("-012") == None
    ensures Parse("0") == Some(JNum(0)) && Parse("-10") == Some(JNum(-10))
  {
    assert DigitRun("012") == 3;
    assert DigitRun("0") == 1;
    assert DigitRun("10") == 2;
  }

  lemma RawLineBreak()
    ensures Parse("\"\n\"") == None
  {
    assert ParseStringBody("\n\"") == None;
  }

  lemma ControlEscapes()
    ensures Serialize(JStr("\n")) == "\"\\n\""
    ensures Serialize(JStr("\U{01}")) == "\"\\u0001\""
    ensures Parse("\"\\n\"") == Some(JStr("\n"))
  {
    LineBreakEscape();
    HexEscape();
    SerializeRoundTrip(JStr("\n"));
  }

  lemma LineBreakEscape()
    ensures Serialize(JStr("\n")) == "\"\\n\""
  {
    assert Escape("\n") == EscapeChar('\n') + Escape([]);
  }

  lemma HexEscape()
    ensures Serialize(JStr("\U{01}")) == "\"\\u0001\""
  {
    assert HexDigit(0) == '0' && HexDigit(1) == '1';
    assert Escape("\U{01}") == EscapeChar('\U{01}') + Escape([]);
  }

  /** Text that does not start a JSON value is a SyntaxError. */
  lemma GarbageDoesNotParse()
    ensures Parse("x") == None
    ensures Parse("") == None
  {
    assert !IsDigit("x"[0]);
  }
}
