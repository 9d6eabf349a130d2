/**
 * The JSON values the bridge carries and the part of `JSON.stringify` it
 * relies on: string quoting with escapes, and the rendering of arrays and
 * objects. `Undefined` stands for a JavaScript `undefined` (a missing field),
 * which has no JSON text of its own.
 */
module Json {
  import opened Wrappers

  datatype Value =
    | Undefined
    | Null
    | Bool(b: bool)
    | Num(n: int)
    | Str(s: string)
    | Arr(items: seq<Value>)
    | Obj(members: seq<Member>)

  /** One property of an object; an object's members are written in sequence order. */
  datatype Member = Member(name: string, val: Value)

  // ---------------------------------------------------------------------------
  // String literals
  // ---------------------------------------------------------------------------

  function HexDigit(d: nat): char
    requires d < 16
  {
    "0123456789abcdef"[d]
  }

  /** The value of a hexadecimal digit of either case, or None. */
  function HexVal(c: char): (r: Option<nat>)
    ensures r.Some? ==> r.value < 16
  {
    if '0' <= c <= '9' then Some(c as int - '0' as int)
    else if 'a' <= c <= 'f' then Some(c as int - 'a' as int + 10)
    else if 'A' <= c <= 'F' then Some(c as int - 'A' as int + 10)
    else None
  }

  /** How `JSON.stringify` writes one character inside a string literal. */
  function EscapeChar(c: char): string
  {
    var n := c as int;
    if c == '"' then ['\\', '"']
    else if c == '\\' then ['\\', '\\']
    else if n == 0x08 then ['\\', 'b']
    else if n == 0x09 then ['\\', 't']
    else if n == 0x0A then ['\\', 'n']
    else if n == 0x0C then ['\\', 'f']
    else if n == 0x0D then ['\\', 'r']
    else if n < 0x20 then ['\\', 'u', '0', '0', HexDigit(n / 16), HexDigit(n % 16)]
    else [c]
  }

  function Escape(s: string): string
  {
    if s == [] then [] else EscapeChar(s[0]) + Escape(s[1..])
  }

  /** The JSON string literal of `s`, quotes included. */
  function Quote(s: string): string
  {
    ['"'] + Escape(s) + ['"']
  }

  function Prepend(c: char, rest: Option<string>): Option<string>
  {
    match rest
    case None => None
    case Some(t) => Some([c] + t)
  }

  /** The character a one-letter escape sequence `\e` stands for, or None. */
  function SimpleEscape(e: char): Option<char>
  {
    if e == '"' then Some('"')
    else if e == '\\' then Some('\\')
    else if e == '/' then Some('/')
    else if e == 'b' then Some(0x08 as char)
    else if e == 't' then Some(0x09 as char)
    else if e == 'n' then Some(0x0A as char)
    else if e == 'f' then Some(0x0C as char)
    else if e == 'r' then Some(0x0D as char)
    else None
  }

  /** The value of the four hexadecimal digits `s[i..i + 4]`, or None. */
  function CodeUnitAt(s: string, i: nat): (r: Option<nat>)
    requires i + 4 <= |s|
    ensures r.Some? ==> r.value < 0x10000
  {
    match (HexVal(s[i]), HexVal(s[i + 1]), HexVal(s[i + 2]), HexVal(s[i + 3]))
    case (Some(a), Some(b), Some(c), Some(d)) => Some(4096 * a + 256 * b + 16 * c + d)
    case _ => None
  }

  /** The character a high and a low surrogate code unit stand for together. */
  function Combine(hi: nat, lo: nat): (c: char)
    requires 0xD800 <= hi < 0xDC00 && 0xDC00 <= lo < 0xE000
    ensures c as int >= 0x10000
  {
    (0x10000 + (hi - 0xD800) * 0x400 + (lo - 0xDC00)) as char
  }

  /**
   * Decodes the body of a JSON string literal (what lies between the quotes),
   * as `JSON.parse` does; None when the body is not well formed. A `\uXXXX`
   * escape of a high surrogate followed by one of a low surrogate stands for
   * the one character they encode together; an unpaired surrogate has no
   * `char` here and is refused.
   */
  function Unescape(s: string): Option<string>
    decreases |s|
  {
    if s == [] then Some([])
    else if s[0] == '\\' then
      if |s| < 2 then None
      else if s[1] == 'u' then
        if |s| < 6 then None
        else
          match CodeUnitAt(s, 2)
          case None => None
          case Some(n) =>
            if 0xD800 <= n < 0xDC00 then
              if |s| < 12 || s[6] != '\\' || s[7] != 'u' then None
              else
                match CodeUnitAt(s, 8)
                case None => None
                case Some(m) =>
                  if 0xDC00 <= m < 0xE000 then Prepend(Combine(n, m), Unescape(s[12..]))
                  else None
            else if 0xDC00 <= n < 0xE000 then None
            else Prepend(n as char, Unescape(s[6..]))
      else
        match SimpleEscape(s[1])
        case None => None
        case Some(c) => Prepend(c, Unescape(s[2..]))
    else if s[0] == '"' || (s[0] as int) < 0x20 then None
    else Prepend(s[0], Unescape(s[1..]))
  }

  /** The six-character escape `\\uXXXX` of a UTF-16 code unit, in lower case. */
  function UnitEscape(u: nat): string
    requires u < 0x10000
  {
    ['\\', 'u', HexDigit(u / 16 / 16 / 16), HexDigit(u / 16 / 16 % 16), HexDigit(u / 16 % 16), HexDigit(u % 16)]
  }

  /** The high and low UTF-16 surrogates of a character outside the basic plane. */
  function HighSurrogate(c: char): nat
    requires c as int >= 0x10000
  {
    0xD800 + (c as int - 0x10000) / 0x400
  }

  function LowSurrogate(c: char): nat
    requires c as int >= 0x10000
  {
    0xDC00 + (c as int - 0x10000) % 0x400
  }

  /** Reads a whole JSON string literal, quotes included. */
  function ParseQuoted(t: string): Option<string>
  {
    if |t| >= 2 && t[0] == '"' && t[|t| - 1] == '"' then Unescape(t[1..|t| - 1])
    else None
  }

  lemma HexDigitVal(d: nat)
    requires d < 16
    ensures HexVal(HexDigit(d)) == Some(d)
  {
  }

  lemma {:induction false} UnescapeEscapeChar(c: char, rest: string)
    ensures Unescape(EscapeChar(c) + rest) == Prepend(c, Unescape(rest))
  {
    var n := c as int;
    var t := EscapeChar(c) + rest;
    if c == '"' || c == '\\' || n == 0x08 || n == 0x09 || n == 0x0A || n == 0x0C || n == 0x0D {
      assert t[2..] == rest;
    } else if n < 0x20 {
      HexDigitVal(n / 16);
      HexDigitVal(n % 16);
      assert t[6..] == rest;
    } else {
      assert t[1..] == rest;
    }
  }

  lemma HexDigitsSum(u: nat)
    requires u < 0x10000
    ensures u / 16 / 16 / 16 < 16
    ensures 4096 * (u / 16 / 16 / 16) + 256 * (u / 16 / 16 % 16) + 16 * (u / 16 % 16) + u % 16 == u
  {
    var q1 := u / 16;
    var q2 := q1 / 16;
    assert u == 16 * q1 + u % 16;
    assert q1 == 16 * q2 + q1 % 16;
    assert q2 == 16 * (q2 / 16) + q2 % 16;
  }

  lemma CodeUnitOfEscape(u: nat, rest: string)
    requires u < 0x10000
    ensures CodeUnitAt(UnitEscape(u) + rest, 2) == Some(u)
  {
    var t := UnitEscape(u) + rest;
    HexDigitsSum(u);
    HexDigitVal(u / 16 / 16 / 16);
    HexDigitVal(u / 16 / 16 % 16);
    HexDigitVal(u / 16 % 16);
    HexDigitVal(u % 16);
    assert t[2] == HexDigit(u / 16 / 16 / 16) && t[3] == HexDigit(u / 16 / 16 % 16);
    assert t[4] == HexDigit(u / 16 % 16) && t[5] == HexDigit(u % 16);
  }

  /**
   * A character outside the basic plane, written as the escapes of its two
   * UTF-16 surrogates, decodes to that one character.
   */
  lemma SurrogatePairDecodes(c: char, rest: string)
    requires c as int >= 0x10000
    ensures Unescape(UnitEscape(HighSurrogate(c)) + UnitEscape(LowSurrogate(c)) + rest)
      == Prepend(c, Unescape(rest))
  {
    var hi, lo := HighSurrogate(c), LowSurrogate(c);
    var t := UnitEscape(hi) + UnitEscape(lo) + rest;
    assert t == UnitEscape(hi) + (UnitEscape(lo) + rest);
    CodeUnitOfEscape(hi, UnitEscape(lo) + rest);
    CodeUnitOfEscape(lo, rest);
    assert t[6..] == UnitEscape(lo) + rest;
    assert CodeUnitAt(t, 8) == CodeUnitAt(t[6..], 2);
    assert t[12..] == rest;
    assert Combine(hi, lo) == c;
  }

  /** Decoding an escaped string gives the string back. */
  lemma {:induction false} EscapeRoundTrip(s: string)
    ensures Unescape(Escape(s)) == Some(s)
  {
    if s != [] {
      EscapeRoundTrip(s[1..]);
      UnescapeEscapeChar(s[0], Escape(s[1..]));
      assert [s[0]] + s[1..] == s;
    }
  }

  /** Reading back a quoted string literal gives the string back. */
  lemma QuoteRoundTrip(s: string)
    ensures ParseQuoted(Quote(s)) == Some(s)
  {
    var t := Quote(s);
    assert t[1..|t| - 1] == Escape(s);
    EscapeRoundTrip(s);
  }

  /** A character `JSON.stringify` writes as it is inside a string literal. */
  predicate Plain(c: char)
  {
    c != '"' && c != '\\' && c as int >= 0x20
  }

  lemma {:induction false} EscapeAppend(a: string, b: string)
    ensures Escape(a + b) == Escape(a) + Escape(b)
  {
    if a == [] {
      assert a + b == b;
    } else {
      assert (a + b)[0] == a[0];
      assert (a + b)[1..] == a[1..] + b;
      EscapeAppend(a[1..], b);
    }
  }

  /** Text without quotes, backslashes or control characters. */
  ghost predicate AllPlain(s: string)
  {
    forall i :: 0 <= i < |s| ==> Plain(s[i])
  }

  /** Plain text is written unchanged. */
  lemma {:induction false} EscapePlain(s: string)
    requires AllPlain(s)
    ensures Escape(s) == s
  {
    if s != [] {
      EscapePlain(s[1..]);
      assert [s[0]] + s[1..] == s;
    }
  }

  lemma EscapeOne(c: char)
    ensures Escape([c]) == EscapeChar(c)
  {
    assert [c][1..] == [];
  }

  lemma PlainQuote(s: string)
    requires AllPlain(s)
    ensures Quote(s) == "\"" + s + "\""
  {
    EscapePlain(s);
  }

  /** Quoting plain text again escapes just the two quotes. */
  lemma EscapeQuotedPlain(s: string)
    requires AllPlain(s)
    ensures Escape(Quote(s)) == ['\\', '"'] + s + ['\\', '"']
  {
    EscapePlain(s);
    EscapeOne('"');
    EscapeAppend(['"'] + Escape(s), ['"']);
    EscapeAppend(['"'], Escape(s));
  }

  // ---------------------------------------------------------------------------
  // Values
  // ---------------------------------------------------------------------------

  function Digits(n: nat): string
  {
    if n < 10 then [HexDigit(n)] else Digits(n / 10) + [HexDigit(n % 10)]
  }

  function Join(parts: seq<string>): string
  {
    if parts == [] then ""
    else if |parts| == 1 then parts[0]
    else parts[0] + "," + Join(parts[1..])
  }

  /**
   * The JSON text of a defined value. Inside an array an undefined element
   * is written `null`; inside an object a member whose value is undefined is
   * left out.
   */
  function Render(v: Value): string
    requires !v.Undefined?
    decreases v, 1
  {
    match v
    case Null => "null"
    case Bool(b) => if b then "true" else "false"
    case Num(n) => if n < 0 then "-" + Digits(-n) else Digits(n)
    case Str(s) => Quote(s)
    case Arr(items) => "[" + Join(ItemTexts(items)) + "]"
    case Obj(members) => "{" + Join(MemberTexts(members)) + "}"
  }

  function ItemTexts(items: seq<Value>): (r: seq<string>)
    decreases items, 0
  {
    if items == [] then []
    else [if items[0].Undefined? then "null" else Render(items[0])] + ItemTexts(items[1..])
  }

  function MemberTexts(members: seq<Member>): seq<string>
    decreases members, 0
  {
    if members == [] then []
    else
      var m := members[0];
      (if m.val.Undefined? then [] else [Quote(m.name) + ":" + Render(m.val)])
      + MemberTexts(members[1..])
  }

  /** `JSON.stringify`: the text of a value, or None for `undefined`. */
  function Stringify(v: Value): (r: Option<string>)
    ensures r.None? <==> v.Undefined?
    ensures v.Str? ==> r == Some(Quote(v.s))
  {
    if v.Undefined? then None else Some(Render(v))
  }

  /** The text of an object with one defined member. */
  lemma RenderOneMember(a: Member)
    requires !a.val.Undefined?
    ensures Render(Obj([a])) == "{" + Quote(a.name) + ":" + Render(a.val) + "}"
  {
    assert [a][1..] == [];
    assert MemberTexts([a]) == [Quote(a.name) + ":" + Render(a.val)];
  }

  /** The text of an object with two defined members. */
  lemma RenderTwoMembers(a: Member, b: Member)
    requires !a.val.Undefined? && !b.val.Undefined?
    ensures Render(Obj([a, b]))
      == "{" + Quote(a.name) + ":" + Render(a.val) + "," + Quote(b.name) + ":" + Render(b.val) + "}"
  {
    assert [a, b][1..] == [b];
    assert MemberTexts([b]) == [Quote(b.name) + ":" + Render(b.val)];
    var x, y := Quote(a.name) + ":" + Render(a.val), Quote(b.name) + ":" + Render(b.val);
    assert MemberTexts([a, b]) == [x] + MemberTexts([b]) == [x, y];
    assert [x, y][1..] == [y];
    assert Join([x, y]) == x + "," + y;
  }

  /** Escaping the text of a two-member object escapes each part; the punctuation is plain. */
  lemma EscapeObjectText(a: string, x: string, b: string, y: string)
    ensures Escape("{" + a + ":" + x + "," + b + ":" + y + "}")
      == "{" + Escape(a) + ":" + Escape(x) + "," + Escape(b) + ":" + Escape(y) + "}"
  {
    EscapeOne('{'); EscapeOne(':'); EscapeOne(','); EscapeOne('}');
    EscapeAppend("{" + a + ":" + x + "," + b + ":" + y, "}");
    EscapeAppend("{" + a + ":" + x + "," + b + ":", y);
    EscapeAppend("{" + a + ":" + x + "," + b, ":");
    EscapeAppend("{" + a + ":" + x + ",", b);
    EscapeAppend("{" + a + ":" + x, ",");
    EscapeAppend("{" + a + ":", x);
    EscapeAppend("{" + a, ":");
    EscapeAppend("{", a);
  }
}

