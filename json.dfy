/**
 * JSON values as JavaScript's `JSON.stringify` writes them and `JSON.parse` reads them
 * (the grammar of RFC 8259), together with the two JavaScript conversions the staff lookup
 * applies to a parsed value: truthiness and conversion to a string.
 */
module Json {
  import opened Wrappers

  /** A number keeps the text it was written with. */
  datatype Value =
    | Null
    | Bool(b: bool)
    | Number(lexeme: string)
    | Str(s: string)
    | Arr(items: seq<Value>)
    | Obj(members: seq<(string, Value)>)

  // ---------------------------------------------------------------- writing

  function HexDigit(d: nat): char
    requires d < 16
  {
    if d < 10 then ('0' as int + d) as char else ('a' as int + d - 10) as char
  }

  /** How `JSON.stringify` writes one character inside a string literal. */
  function EscapeChar(c: char): string {
    if c == '"' then "\\\""
    else if c == '\\' then "\\\\"
    else if c == '\U{8}' then "\\b"
    else if c == '\U{C}' then "\\f"
    else if c == '\n' then "\\n"
    else if c == '\r' then "\\r"
    else if c == '\t' then "\\t"
    else if c < ' ' then "\\u00" + [HexDigit(c as int / 16), HexDigit(c as int % 16)]
    else [c]
  }

  function Escape(s: string): string {
    if s == [] then [] else EscapeChar(s[0]) + Escape(s[1..])
  }

  /** A string literal: the escaped text between double quotes. */
  function Quote(s: string): string {
    "\"" + Escape(s) + "\""
  }

  /** `JSON.stringify(v)`, which writes no white space. */
  function Stringify(v: Value): string
    decreases v
  {
    match v
    case Null => "null"
    case Bool(b) => if b then "true" else "false"
    case Number(lexeme) => lexeme
    case Str(s) => Quote(s)
    case Arr(items) => "[" + StringifyItems(items) + "]"
    case Obj(members) => "{" + StringifyMembers(members) + "}"
  }

  function StringifyItems(items: seq<Value>): string
    decreases items
  {
    if items == [] then []
    else if |items| == 1 then Stringify(items[0])
    else Stringify(items[0]) + "," + StringifyItems(items[1..])
  }

  function StringifyMembers(members: seq<(string, Value)>): string
    decreases members
  {
    if members == [] then []
    else
      var m := members[0];
      assert m in members && m.1 < m;
      var head := Quote(m.0) + ":" + Stringify(m.1);
      if |members| == 1 then head else head + "," + StringifyMembers(members[1..])
  }

  // ---------------------------------------------------------------- reading

  /** The white space JSON allows between tokens. */
  predicate IsWs(c: char) {
    c == ' ' || c == '\t' || c == '\n' || c == '\r'
  }

  function SkipWs(s: string): (r: string)
    ensures |r| <= |s|
    ensures r != [] ==> !IsWs(r[0])
  {
    if s != [] && IsWs(s[0]) then SkipWs(s[1..]) else s
  }

  predicate IsDigit(c: char) {
    '0' <= c <= '9'
  }

  function HexValue(c: char): Option<nat> {
    if '0' <= c <= '9' then Some(c as int - '0' as int)
    else if 'a' <= c <= 'f' then Some(c as int - 'a' as int + 10)
    else if 'A' <= c <= 'F' then Some(c as int - 'A' as int + 10)
    else None
  }

  /** The code unit written as four hexadecimal digits after `\u`. */
  function Hex4(s: string): (r: Option<nat>)
    requires |s| == 4
    ensures r.Some? ==> r.value < 0x1_0000
  {
    match (HexValue(s[0]), HexValue(s[1]), HexValue(s[2]), HexValue(s[3]))
    case (Some(a), Some(b), Some(c), Some(d)) =>
      if a < 16 && b < 16 && c < 16 && d < 16 then Some(((a * 16 + b) * 16 + c) * 16 + d) else None
    case _ => None
  }

  /** The character a one-letter escape `\e` stands for. */
  function SimpleEscape(e: char): Option<char> {
    if e == '"' then Some('"')
    else if e == '\\' then Some('\\')
    else if e == '/' then Some('/')
    else if e == 'b' then Some('\U{8}')
    else if e == 'f' then Some('\U{C}')
    else if e == 'n' then Some('\n')
    else if e == 'r' then Some('\r')
    else if e == 't' then Some('\t')
    else None
  }

  /** The rest of a string literal after its opening quote: its text and what follows the closing quote. */
  function ParseStringBody(s: string): (r: Option<(string, string)>)
    ensures r.Some? ==> |r.value.1| < |s|
  {
    if s == [] then None
    else if s[0] == '"' then Some(([], s[1..]))
    else if s[0] == '\\' then
      if |s| < 2 then None
      else if SimpleEscape(s[1]).Some? then
        match ParseStringBody(s[2..])
        case Some((text, rest)) => Some(([SimpleEscape(s[1]).value] + text, rest))
        case None => None
      else if s[1] == 'u' && |s| >= 6 then
        match Hex4(s[2..6])
        case Some(code) =>
          if 0xD800 <= code < 0xE000 then None
          else
            (match ParseStringBody(s[6..])
             case Some((text, rest)) => Some(([code as char] + text, rest))
             case None => None)
        case None => None
      else None
    else if s[0] < ' ' then None
    else
      match ParseStringBody(s[1..])
      case Some((text, rest)) => Some(([s[0]] + text, rest))
      case None => None
  }

  /** The number of leading decimal digits of `s`. */
  function Digits(s: string): (n: nat)
    ensures n <= |s|
    ensures forall i :: 0 <= i < n ==> IsDigit(s[i])
    ensures n < |s| ==> !IsDigit(s[n])
  {
    if s != [] && IsDigit(s[0]) then 1 + Digits(s[1..]) else 0
  }

  /** The length of the exponent part `[eE][+-]?digits` at the head of `s`; 0 when there is none. */
  function ExponentLength(s: string): Option<nat> {
    if s != [] && (s[0] == 'e' || s[0] == 'E') then
      var sign := if |s| > 1 && (s[1] == '+' || s[1] == '-') then 1 else 0;
      var d := Digits(s[1 + sign..]);
      if d == 0 then None else Some(1 + sign + d)
    else Some(0)
  }

  /** The length of the fraction part `.digits` at the head of `s`; 0 when there is none. */
  function FractionLength(s: string): Option<nat> {
    if s != [] && s[0] == '.' then
      var d := Digits(s[1..]);
      if d == 0 then None else Some(1 + d)
    else Some(0)
  }

  /** The length of the number literal at the head of `s`, or None when none starts there. */
  function NumberLength(s: string): (r: Option<nat>)
    ensures r.Some? ==> 0 < r.value <= |s|
  {
    var sign := if s != [] && s[0] == '-' then 1 else 0;
    var t := s[sign..];
    var whole := if t != [] && t[0] == '0' then 1 else if t != [] && '1' <= t[0] <= '9' then 1 + Digits(t[1..]) else 0;
    if whole == 0 then None
    else
      match FractionLength(t[whole..])
      case None => None
      case Some(f) =>
        match ExponentLength(t[whole + f..])
        case None => None
        case Some(e) => Some(sign + whole + f + e)
  }

  /** One value at the head of `s` (no leading white space) and the input after it. */
  function ParseValue(s: string): (r: Option<(Value, string)>)
    ensures r.Some? ==> |r.value.1| < |s|
    decreases |s|, 0
  {
    if s == [] then None
    else if s[0] == '{' then ParseObject(s[1..])
    else if s[0] == '[' then ParseArray(s[1..])
    else if s[0] == '"' then
      match ParseStringBody(s[1..])
      case Some((text, rest)) => Some((Str(text), rest))
      case None => None
    else if |s| >= 4 && s[..4] == "null" then Some((Null, s[4..]))
    else if |s| >= 4 && s[..4] == "true" then Some((Bool(true), s[4..]))
    else if |s| >= 5 && s[..5] == "false" then Some((Bool(false), s[5..]))
    else
      match NumberLength(s)
      case Some(n) => Some((Number(s[..n]), s[n..]))
      case None => None
  }

  /** An array after its `[`. */
  function ParseArray(s: string): (r: Option<(Value, string)>)
    ensures r.Some? ==> |r.value.1| < |s| && r.value.0.Arr?
    decreases |s|, 2
  {
    var t := SkipWs(s);
    if t != [] && t[0] == ']' then Some((Arr([]), t[1..]))
    else
      match ParseItems(t)
      case Some((items, rest)) => Some((Arr(items), rest))
      case None => None
  }

  /** One or more comma-separated values and the closing `]`. */
  function ParseItems(s: string): (r: Option<(seq<Value>, string)>)
    ensures r.Some? ==> |r.value.1| < |s|
    decreases |s|, 1
  {
    match ParseValue(s)
    case None => None
    case Some((v, rest)) =>
      var t := SkipWs(rest);
      if t != [] && t[0] == ']' then Some(([v], t[1..]))
      else if t != [] && t[0] == ',' then
        match ParseItems(SkipWs(t[1..]))
        case Some((more, rest')) => Some(([v] + more, rest'))
        case None => None
      else None
  }

  /** An object after its `{`. */
  function ParseObject(s: string): (r: Option<(Value, string)>)
    ensures r.Some? ==> |r.value.1| < |s| && r.value.0.Obj?
    decreases |s|, 3
  {
    var t := SkipWs(s);
    if t != [] && t[0] == '}' then Some((Obj([]), t[1..]))
    else
      match ParseMembers(t)
      case Some((members, rest)) => Some((Obj(members), rest))
      case None => None
  }

  /** One or more comma-separated members and the closing `}`. */
  function ParseMembers(s: string): (r: Option<(seq<(string, Value)>, string)>)
    ensures r.Some? ==> |r.value.1| < |s|
    decreases |s|, 2
  {
    match ParseMember(s)
    case None => None
    case Some((m, rest)) =>
      var u := SkipWs(rest);
      if u != [] && u[0] == '}' then Some(([m], u[1..]))
      else if u != [] && u[0] == ',' then
        match ParseMembers(SkipWs(u[1..]))
        case Some((more, rest')) => Some(([m] + more, rest'))
        case None => None
      else None
  }

  /** One `"key": value` pair. */
  function ParseMember(s: string): (r: Option<((string, Value), string)>)
    ensures r.Some? ==> |r.value.1| < |s|
    decreases |s|, 1
  {
    if s == [] || s[0] != '"' then None
    else
      match ParseStringBody(s[1..])
      case None => None
      case Some((key, afterKey)) =>
        var t := SkipWs(afterKey);
        if t == [] || t[0] != ':' then None
        else
          match ParseValue(SkipWs(t[1..]))
          case None => None
          case Some((v, rest)) => Some(((key, v), rest))
  }

  /** `JSON.parse(s)`: one value, with white space allowed around it; None where it throws. */
  function Parse(s: string): Option<Value> {
    match ParseValue(SkipWs(s))
    case Some((v, rest)) => if SkipWs(rest) == [] then Some(v) else None
    case None => None
  }

  // ---------------------------------------------------------------- round trip

  lemma HexDigitValue(d: nat)
    requires d < 16
    ensures HexValue(HexDigit(d)) == Some(d)
  {
  }

  /** Reading back the escape of one character yields that character. */
  lemma {:induction false} EscapeCharRoundTrip(c: char, x: string, text: string, rest: string)
    requires ParseStringBody(x) == Some((text, rest))
    ensures ParseStringBody(EscapeChar(c) + x) == Some(([c] + text, rest))
  {
    var e := EscapeChar(c);
    var s := e + x;
    if c == '"' || c == '\\' || c == '\U{8}' || c == '\U{C}' || c == '\n' || c == '\r' || c == '\t' {
      assert |e| == 2 && s[0] == '\\' && SimpleEscape(s[1]) == Some(c);
      assert s[2..] == x;
    } else if c < ' ' {
      var hi, lo := c as int / 16, c as int % 16;
      HexDigitValue(hi);
      HexDigitValue(lo);
      assert e == ['\\', 'u', '0', '0', HexDigit(hi), HexDigit(lo)];
      assert s[2..6] == ['0', '0', HexDigit(hi), HexDigit(lo)];
      assert Hex4(s[2..6]) == Some(c as int);
      assert s[6..] == x;
    } else {
      assert e == [c] && s[1..] == x;
    }
  }

  /** The body of a string literal written by `Quote` reads back as the original text. */
  lemma {:induction false} EscapeRoundTrip(t: string, rest: string)
    ensures ParseStringBody(Escape(t) + "\"" + rest) == Some((t, rest))
  {
    if t == [] {
      assert Escape(t) + "\"" + rest == "\"" + rest;
    } else {
      EscapeRoundTrip(t[1..], rest);
      assert Escape(t) + "\"" + rest == EscapeChar(t[0]) + (Escape(t[1..]) + "\"" + rest);
      EscapeCharRoundTrip(t[0], Escape(t[1..]) + "\"" + rest, t[1..], rest);
      assert [t[0]] + t[1..] == t;
    }
  }

  /** Values without numbers: what the loyalty card writes. */
  ghost predicate WithoutNumbers(v: Value)
    decreases v
  {
    match v
    case Number(_) => false
    case Arr(items) => forall i :: 0 <= i < |items| ==> WithoutNumbers(items[i])
    case Obj(members) => forall i :: 0 <= i < |members| ==> members[i].1 < v && WithoutNumbers(members[i].1)
    case _ => true
  }

  lemma StringifyStart(v: Value)
    requires WithoutNumbers(v)
    ensures Stringify(v) != [] && Stringify(v)[0] in {'n', 't', 'f', '"', '[', '{'}
  {
  }

  lemma SkipWsNoop(s: string)
    requires s != [] && !IsWs(s[0])
    ensures SkipWs(s) == s
  {
  }

  lemma ParseLiteral(v: Value, rest: string)
    requires v.Null? || v.Bool?
    ensures ParseValue(Stringify(v) + rest) == Some((v, rest))
  {
    var s := Stringify(v) + rest;
    if v.Null? {
      assert s[..4] == "null" && s[4..] == rest;
    } else if v.b {
      assert s[..4] == "true" && s[4..] == rest;
    } else {
      assert s[..4][0] == 'f';
      assert s[..5] == "false" && s[5..] == rest;
    }
  }

  lemma ParseQuoted(t: string, rest: string)
    ensures ParseValue(Quote(t) + rest) == Some((Str(t), rest))
  {
    var s := Quote(t) + rest;
    assert s[0] == '"';
    assert s[1..] == Escape(t) + "\"" + rest;
    EscapeRoundTrip(t, rest);
  }

  /** Reading `Stringify(v)` back, followed by anything, yields `v` and leaves what followed. */
  lemma {:induction false} ParseStringified(v: Value, rest: string)
    requires WithoutNumbers(v)
    ensures ParseValue(Stringify(v) + rest) == Some((v, rest))
    decreases v
  {
    match v
    case Null => ParseLiteral(v, rest);
    case Bool(_) => ParseLiteral(v, rest);
    case Str(t) => ParseQuoted(t, rest);
    case Arr(items) =>
      if items != [] {
        ParseStringifiedItems(items, rest);
        ItemsStart(items, []);
        assert StringifyItems(items) + [] == StringifyItems(items);
      }
      ParseBracketed(items, rest);
    case Obj(members) =>
      if members != [] {
        ParseStringifiedMembers(members, rest);
      }
      ParseBraced(members, rest);
  }

  lemma ParseBracketed(items: seq<Value>, rest: string)
    requires items != [] ==> ParseItems(StringifyItems(items) + "]" + rest) == Some((items, rest))
    requires items != [] ==> StringifyItems(items) != [] && !IsWs(StringifyItems(items)[0]) && StringifyItems(items)[0] != ']'
    ensures ParseValue(Stringify(Arr(items)) + rest) == Some((Arr(items), rest))
  {
    var inner := StringifyItems(items) + "]" + rest;
    assert Stringify(Arr(items)) + rest == ['['] + inner;
    if items == [] {
      assert inner == [']'] + rest;
      ParseEmptyArray(rest);
    } else {
      assert inner[0] == StringifyItems(items)[0];
      ParseArrayOf(inner, items, rest);
    }
  }

  lemma ParseEmptyArray(rest: string)
    ensures ParseValue(['['] + ([']'] + rest)) == Some((Arr([]), rest))
  {
    var s := ['['] + ([']'] + rest);
    assert s[1..] == [']'] + rest;
    SkipWsNoop(s[1..]);
    assert s[1..][1..] == rest;
  }

  lemma ParseArrayOf(inner: string, items: seq<Value>, rest: string)
    requires inner != [] && !IsWs(inner[0]) && inner[0] != ']'
    requires ParseItems(inner) == Some((items, rest))
    ensures ParseValue(['['] + inner) == Some((Arr(items), rest))
  {
    assert (['['] + inner)[1..] == inner;
    SkipWsNoop(inner);
  }

  lemma ParseBraced(members: seq<(string, Value)>, rest: string)
    requires members != [] ==> ParseMembers(StringifyMembers(members) + "}" + rest) == Some((members, rest))
    ensures ParseValue(Stringify(Obj(members)) + rest) == Some((Obj(members), rest))
  {
    var inner := StringifyMembers(members) + "}" + rest;
    assert Stringify(Obj(members)) + rest == ['{'] + inner;
    if members == [] {
      assert inner == ['}'] + rest;
      ParseEmptyObject(rest);
    } else {
      assert inner[0] == '"';
      ParseObjectOf(inner, members, rest);
    }
  }

  lemma ParseEmptyObject(rest: string)
    ensures ParseValue(['{'] + (['}'] + rest)) == Some((Obj([]), rest))
  {
    var s := ['{'] + (['}'] + rest);
    assert s[1..] == ['}'] + rest;
    SkipWsNoop(s[1..]);
    assert s[1..][1..] == rest;
  }

  lemma ParseObjectOf(inner: string, members: seq<(string, Value)>, rest: string)
    requires inner != [] && inner[0] == '"'
    requires ParseMembers(inner) == Some((members, rest))
    ensures ParseValue(['{'] + inner) == Some((Obj(members), rest))
  {
    assert (['{'] + inner)[1..] == inner;
    SkipWsNoop(inner);
  }

  lemma {:induction false} ParseStringifiedItems(items: seq<Value>, rest: string)
    requires items != []
    requires forall i :: 0 <= i < |items| ==> WithoutNumbers(items[i])
    ensures ParseItems(StringifyItems(items) + "]" + rest) == Some((items, rest))
    decreases items
  {
    var head := items[0];
    if |items| == 1 {
      ParseStringified(head, "]" + rest);
      ParseLastItem(head, rest);
      assert items == [head];
    } else {
      var tail := StringifyItems(items[1..]) + "]" + rest;
      ConsItemsText(items, rest);
      ParseStringified(head, [','] + tail);
      ParseStringifiedItems(items[1..], rest);
      ItemsStart(items[1..], "]" + rest);
      ParseItemsStep(Stringify(head) + ([','] + tail), head, tail, items[1..], rest);
      assert [head] + items[1..] == items;
    }
  }

  lemma ConsItemsText(items: seq<Value>, rest: string)
    requires |items| >= 2
    ensures StringifyItems(items) + "]" + rest == Stringify(items[0]) + ([','] + (StringifyItems(items[1..]) + "]" + rest))
  {
    var first, others := Stringify(items[0]), StringifyItems(items[1..]);
    assert StringifyItems(items) == first + "," + others;
    Regroup(first, others, rest);
  }

  lemma Regroup(first: string, others: string, rest: string)
    ensures first + "," + others + "]" + rest == first + ([','] + (others + "]" + rest))
  {
  }

  /** The text of a non-empty item list begins as its first item does: not with white space or `]`. */
  lemma ItemsStart(items: seq<Value>, after: string)
    requires items != [] && WithoutNumbers(items[0])
    ensures var t := StringifyItems(items) + after; t != [] && !IsWs(t[0]) && t[0] != ']'
  {
    StringifyStart(items[0]);
    if |items| >= 2 {
      assert StringifyItems(items) == Stringify(items[0]) + "," + StringifyItems(items[1..]);
    }
  }

  lemma ParseLastItem(head: Value, rest: string)
    requires ParseValue(Stringify(head) + ("]" + rest)) == Some((head, "]" + rest))
    ensures ParseItems(StringifyItems([head]) + "]" + rest) == Some(([head], rest))
  {
    assert StringifyItems([head]) + "]" + rest == Stringify(head) + ("]" + rest);
    SkipWsNoop("]" + rest);
    assert ("]" + rest)[1..] == rest;
  }

  lemma ParseItemsStep(s: string, v: Value, tail: string, more: seq<Value>, rest: string)
    requires ParseValue(s) == Some((v, [','] + tail))
    requires tail != [] && !IsWs(tail[0])
    requires ParseItems(tail) == Some((more, rest))
    ensures ParseItems(s) == Some(([v] + more, rest))
  {
    SkipWsNoop([','] + tail);
    assert ([','] + tail)[1..] == tail;
    SkipWsNoop(tail);
  }

  lemma ParseStringifiedMember(m: (string, Value), after: string)
    requires Stringify(m.1) != [] && !IsWs(Stringify(m.1)[0])
    requires ParseValue(Stringify(m.1) + after) == Some((m.1, after))
    ensures ParseMember(Quote(m.0) + ":" + Stringify(m.1) + after) == Some((m, after))
  {
    var s := Quote(m.0) + ":" + Stringify(m.1) + after;
    var value := Stringify(m.1) + after;
    var afterKey := ":" + value;
    assert s == ['"'] + (Escape(m.0) + "\"" + afterKey);
    assert s[1..] == Escape(m.0) + "\"" + afterKey;
    EscapeRoundTrip(m.0, afterKey);
    SkipWsNoop(afterKey);
    assert afterKey[1..] == value;
    assert value[0] == Stringify(m.1)[0];
    SkipWsNoop(value);
  }

  lemma {:induction false} ParseStringifiedMembers(members: seq<(string, Value)>, rest: string)
    requires members != []
    requires forall i :: 0 <= i < |members| ==> WithoutNumbers(members[i].1)
    ensures ParseMembers(StringifyMembers(members) + "}" + rest) == Some((members, rest))
    decreases members
  {
    var m := members[0];
    assert m in members && m.1 < m;
    StringifyStart(m.1);
    if |members| == 1 {
      ParseStringified(m.1, ['}'] + rest);
      ParseOneMember(m, rest);
      assert members == [m];
    } else {
      var others := members[1..];
      var tail := StringifyMembers(others) + "}" + rest;
      ParseStringified(m.1, [','] + tail);
      ParseStringifiedMembers(others, rest);
      ParseConsMember(m, others, tail, rest);
      assert [m] + others == members;
    }
  }

  lemma ParseOneMember(m: (string, Value), rest: string)
    requires Stringify(m.1) != [] && !IsWs(Stringify(m.1)[0])
    requires ParseValue(Stringify(m.1) + (['}'] + rest)) == Some((m.1, ['}'] + rest))
    ensures ParseMembers(StringifyMembers([m]) + "}" + rest) == Some(([m], rest))
  {
    var first := Quote(m.0) + ":" + Stringify(m.1);
    assert StringifyMembers([m]) + "}" + rest == first + (['}'] + rest);
    ParseStringifiedMember(m, ['}'] + rest);
    ParseMembersLast(first + (['}'] + rest), m, rest);
  }

  lemma ParseConsMember(m: (string, Value), others: seq<(string, Value)>, tail: string, rest: string)
    requires others != [] && tail == StringifyMembers(others) + "}" + rest
    requires Stringify(m.1) != [] && !IsWs(Stringify(m.1)[0])
    requires ParseValue(Stringify(m.1) + ([','] + tail)) == Some((m.1, [','] + tail))
    requires ParseMembers(tail) == Some((others, rest))
    ensures ParseMembers(StringifyMembers([m] + others) + "}" + rest) == Some(([m] + others, rest))
  {
    var first := Quote(m.0) + ":" + Stringify(m.1);
    ConsMembersText(m, others, rest);
    ParseStringifiedMember(m, [','] + tail);
    assert tail[0] == '"';
    ParseMembersStep(first + ([','] + tail), m, tail, others, rest);
  }

  lemma ConsMembersText(m: (string, Value), others: seq<(string, Value)>, rest: string)
    requires others != []
    ensures StringifyMembers([m] + others) + "}" + rest
         == Quote(m.0) + ":" + Stringify(m.1) + ([','] + (StringifyMembers(others) + "}" + rest))
  {
    assert ([m] + others)[0] == m && ([m] + others)[1..] == others;
  }

  lemma ParseMembersLast(s: string, m: (string, Value), rest: string)
    requires ParseMember(s) == Some((m, ['}'] + rest))
    ensures ParseMembers(s) == Some(([m], rest))
  {
    SkipWsNoop(['}'] + rest);
    assert (['}'] + rest)[1..] == rest;
  }

  lemma ParseMembersStep(s: string, m: (string, Value), tail: string, more: seq<(string, Value)>, rest: string)
    requires ParseMember(s) == Some((m, [','] + tail))
    requires tail != [] && !IsWs(tail[0])
    requires ParseMembers(tail) == Some((more, rest))
    ensures ParseMembers(s) == Some(([m] + more, rest))
  {
    SkipWsNoop([','] + tail);
    assert ([','] + tail)[1..] == tail;
    SkipWsNoop(tail);
  }

  /** `JSON.parse(JSON.stringify(v))` gives back `v`. */
  lemma ParseStringifyRoundTrip(v: Value)
    requires WithoutNumbers(v)
    ensures Parse(Stringify(v)) == Some(v)
  {
    StringifyStart(v);
    ParseStringified(v, []);
    assert Stringify(v) + [] == Stringify(v);
  }

  /** Only text whose first token is `{` parses to an object. */
  lemma ParsedObjectStartsWithBrace(s: string)
    requires Parse(s).Some? && Parse(s).value.Obj?
    ensures SkipWs(s) != [] && SkipWs(s)[0] == '{'
  {
    var t := SkipWs(s);
    assert ParseValue(t).Some? && ParseValue(t).value.0.Obj?;
  }

  // ---------------------------------------------------------------- JavaScript conversions

  /** The value of the last member named `key` (a later duplicate overrides an earlier one). */
  function Lookup(members: seq<(string, Value)>, key: string): (r: Option<Value>)
    ensures r.Some? <==> exists i :: 0 <= i < |members| && members[i].0 == key
    ensures r.Some? ==> exists i :: 0 <= i < |members| && members[i] == (key, r.value)
                                    && forall j :: i < j < |members| ==> members[j].0 != key
  {
    if members == [] then None
    else if members[|members| - 1].0 == key then Some(members[|members| - 1].1)
    else
      var r := Lookup(members[..|members| - 1], key);
      assert forall i :: 0 <= i < |members| - 1 ==> members[..|members| - 1][i] == members[i];
      r
  }

  /** A number literal denotes zero exactly when every digit before its exponent is 0. */
  predicate IsZeroLexeme(lexeme: string) {
    forall i :: 0 <= i < |lexeme| && (forall j :: 0 <= j <= i ==> lexeme[j] != 'e' && lexeme[j] != 'E') ==>
      (IsDigit(lexeme[i]) ==> lexeme[i] == '0')
  }

  /** JavaScript truthiness of a parsed value. */
  predicate Truthy(v: Value) {
    match v
    case Null => false
    case Bool(b) => b
    case Number(lexeme) => !IsZeroLexeme(lexeme)
    case Str(s) => s != []
    case Arr(_) => true
    case Obj(_) => true
  }

  function Join(parts: seq<string>, sep: string): string {
    if parts == [] then [] else if |parts| == 1 then parts[0] else parts[0] + sep + Join(parts[1..], sep)
  }

  /** `String(v)`, the text a template literal `${v}` produces. */
  function ToJsString(v: Value): string
    decreases v
  {
    match v
    case Null => "null"
    case Bool(b) => if b then "true" else "false"
    case Number(lexeme) => lexeme
    case Str(s) => s
    case Arr(items) =>
      Join(seq(|items|, i requires 0 <= i < |items| => if items[i].Null? then [] else ToJsString(items[i])), ",")
    case Obj(_) => "[object Object]"
  }
}
