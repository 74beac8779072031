/** JSON text as Python's `json` module writes and reads it: the string
    escaping of `json.dumps` (default `ensure_ascii=True`), the string scanner
    of `json.loads`, and the three-key object layout of the assistant's
    replies, `{"command": …, "query": …, "message": …}`. */
module JsonText {
  import opened Wrappers

  /** The lower-case hexadecimal digit for `d`. */
  function HexDigit(d: nat): (c: char)
    requires d < 16
    ensures HexValue(c) == Some(d)
    ensures '0' <= c <= 'f'
  {
    if d < 10 then (d + '0' as int) as char else (d - 10 + 'a' as int) as char
  }

  /** Hexadecimal value of one digit; `json.loads` accepts both cases. */
  function HexValue(c: char): Option<nat>
  {
    if '0' <= c <= '9' then Some(c as int - '0' as int)
    else if 'a' <= c <= 'f' then Some(c as int - 'a' as int + 10)
    else if 'A' <= c <= 'F' then Some(c as int - 'A' as int + 10)
    else None
  }

  function Hex2(b: nat): (r: string)
    requires b < 0x100
    ensures |r| == 2
    ensures forall i :: 0 <= i < |r| ==> '0' <= r[i] <= 'f'
  {
    [HexDigit(b / 16), HexDigit(b % 16)]
  }

  /** Four lower-case hexadecimal digits, as `'{0:04x}'.format(v)`. */
  function Hex4(v: nat): (r: string)
    requires v < 0x10000
    ensures |r| == 4
    ensures forall i :: 0 <= i < |r| ==> '0' <= r[i] <= 'f'
  {
    Hex2(v / 0x100) + Hex2(v % 0x100)
  }

  /** The value of the four hexadecimal digits that start `t`. */
  function ParseHex4(t: string): (r: Option<nat>)
    ensures r.Some? ==> |t| >= 4 && r.value < 0x10000
  {
    if |t| < 4 then None
    else match (HexValue(t[0]), HexValue(t[1]), HexValue(t[2]), HexValue(t[3]))
      case (Some(a), Some(b), Some(c), Some(d)) =>
        if a < 16 && b < 16 && c < 16 && d < 16 then Some(((a * 16 + b) * 16 + c) * 16 + d) else None
      case _ => None
  }

  function UnitEscape(v: nat): (r: string)
    requires v < 0x10000
    ensures |r| == 6 && r[0] == '\\' && r[1] == 'u'
    ensures forall i :: 0 <= i < |r| ==> ' ' <= r[i] <= '~'
  {
    "\\u" + Hex4(v)
  }

  predicate IsSurrogate(v: int) {
    0xD800 <= v < 0xE000
  }

  /** How `json.dumps` writes one character: printable ASCII other than
      quote and backslash as itself, the five short escapes, any other
      character below U+10000 as `\uXXXX`, and any character above as a
      UTF-16 surrogate pair of two such escapes. */
  function EscapeChar(c: char): (r: string)
    ensures |r| > 0
    ensures forall i :: 0 <= i < |r| ==> ' ' <= r[i] <= '~'
    ensures (|r| == 1) == (' ' <= c <= '~' && c != '"' && c != '\\')
    ensures |r| == 1 ==> r == [c]
    ensures |r| > 1 ==> r[0] == '\\'
  {
    if c == '"' then "\\\""
    else if c == '\\' then "\\\\"
    else if c == '\U{8}' then "\\b"
    else if c == '\U{c}' then "\\f"
    else if c == '\n' then "\\n"
    else if c == '\r' then "\\r"
    else if c == '\t' then "\\t"
    else if ' ' <= c <= '~' then [c]
    else if c as int < 0x10000 then UnitEscape(c as int)
    else
      var n := c as int - 0x10000;
      UnitEscape(0xD800 + n / 0x400) + UnitEscape(0xDC00 + n % 0x400)
  }

  /** The body of the JSON string literal `json.dumps` writes for `s`. */
  function Escape(s: string): (r: string)
    ensures |r| >= |s|
  {
    if |s| == 0 then "" else EscapeChar(s[0]) + Escape(s[1..])
  }

  /** The character an escape sequence stands for, and the text after it;
      `t` is what follows the backslash. Lone surrogates are refused. */
  function DecodeEscape(t: string): (r: Option<(char, string)>)
    ensures r.Some? ==> |r.value.1| < |t|
  {
    if |t| == 0 then None
    else if t[0] == '"' then Some(('"', t[1..]))
    else if t[0] == '\\' then Some(('\\', t[1..]))
    else if t[0] == '/' then Some(('/', t[1..]))
    else if t[0] == 'b' then Some(('\U{8}', t[1..]))
    else if t[0] == 'f' then Some(('\U{c}', t[1..]))
    else if t[0] == 'n' then Some(('\n', t[1..]))
    else if t[0] == 'r' then Some(('\r', t[1..]))
    else if t[0] == 't' then Some(('\t', t[1..]))
    else if t[0] == 'u' then
      match ParseHex4(t[1..])
      case None => None
      case Some(v) =>
        if !IsSurrogate(v) then Some((v as char, t[5..]))
        else if v >= 0xDC00 || |t| < 11 || t[5] != '\\' || t[6] != 'u' then None
        else
          match ParseHex4(t[7..])
          case None => None
          case Some(w) =>
            if 0xDC00 <= w < 0xE000 then
              Some(((0x10000 + (v - 0xD800) * 0x400 + (w - 0xDC00)) as char, t[11..]))
            else None
    else None
  }

  /** The string `json.loads` reads from `t`, the text after an opening
      quote, up to the closing quote; also the text after that quote. */
  function Scan(t: string): (r: Option<(string, string)>)
    ensures r.Some? ==> |r.value.1| < |t|
    decreases |t|
  {
    if |t| == 0 then None
    else if t[0] == '"' then Some(("", t[1..]))
    else if t[0] == '\\' then
      match DecodeEscape(t[1..])
      case None => None
      case Some((c, rest)) => Prepend(c, Scan(rest))
    else if t[0] < ' ' then None
    else Prepend(t[0], Scan(t[1..]))
  }

  function Prepend(c: char, r: Option<(string, string)>): Option<(string, string)>
  {
    match r
    case None => None
    case Some((s, rest)) => Some(([c] + s, rest))
  }

  lemma Hex2Parse(a: nat, b: nat, rest: string)
    requires a < 0x100 && b < 0x100
    ensures ParseHex4(Hex2(a) + Hex2(b) + rest) == Some(a * 0x100 + b)
  {
    var t := Hex2(a) + Hex2(b) + rest;
    assert t[0] == HexDigit(a / 16) && t[1] == HexDigit(a % 16);
    assert t[2] == HexDigit(b / 16) && t[3] == HexDigit(b % 16);
  }

  /** The four digits `Hex4` writes read back as the value written. */
  lemma Hex4Parse(v: nat, rest: string)
    requires v < 0x10000
    ensures ParseHex4(Hex4(v) + rest) == Some(v)
  {
    Hex2Parse(v / 0x100, v % 0x100, rest);
    assert Hex4(v) + rest == Hex2(v / 0x100) + Hex2(v % 0x100) + rest;
  }

  lemma DecodeUnit(v: nat, rest: string)
    requires v < 0x10000 && !IsSurrogate(v)
    ensures DecodeEscape(UnitEscape(v)[1..] + rest) == Some((v as char, rest))
  {
    var u := UnitEscape(v)[1..] + rest;
    Hex4Parse(v, rest);
    assert u[0] == 'u';
    assert u[1..] == Hex4(v) + rest;
    assert u[5..] == rest;
  }

  lemma DecodePair(hi: nat, lo: nat, rest: string)
    requires 0xD800 <= hi < 0xDC00 && 0xDC00 <= lo < 0xE000
    ensures DecodeEscape((UnitEscape(hi) + UnitEscape(lo))[1..] + rest)
         == Some(((0x10000 + (hi - 0xD800) * 0x400 + (lo - 0xDC00)) as char, rest))
  {
    PairLayout(hi, lo, rest);
    Hex4Parse(hi, UnitEscape(lo) + rest);
    Hex4Parse(lo, rest);
  }

  /** Where the pieces of a surrogate-pair escape sit, after its backslash. */
  lemma PairLayout(hi: nat, lo: nat, rest: string)
    requires hi < 0x10000 && lo < 0x10000
    ensures var u := (UnitEscape(hi) + UnitEscape(lo))[1..] + rest;
      && |u| >= 11 && u[0] == 'u' && u[5] == '\\' && u[6] == 'u'
      && u[1..] == Hex4(hi) + (UnitEscape(lo) + rest)
      && u[7..] == Hex4(lo) + rest
      && u[11..] == rest
  {
    var u := (UnitEscape(hi) + UnitEscape(lo))[1..] + rest;
    assert u[1..] == Hex4(hi) + (UnitEscape(lo) + rest);
    assert u[7..] == Hex4(lo) + rest;
  }

  /** The escape sequence written for `c` decodes to `c`. */
  lemma DecodeEscapeChar(c: char, rest: string)
    requires |EscapeChar(c)| > 1
    ensures DecodeEscape(EscapeChar(c)[1..] + rest) == Some((c, rest))
  {
    if c == '"' || c == '\\' || c == '\U{8}' || c == '\U{c}' || c == '\n' || c == '\r' || c == '\t' {
      ShortEscapeDecodes(c, rest);
    } else if c as int < 0x10000 {
      DecodeUnit(c as int, rest);
    } else {
      var n := c as int - 0x10000;
      DecodePair(0xD800 + n / 0x400, 0xDC00 + n % 0x400, rest);
    }
  }

  /** The two-character escapes read back as the character written. */
  lemma ShortEscapeDecodes(c: char, rest: string)
    requires c == '"' || c == '\\' || c == '\U{8}' || c == '\U{c}' || c == '\n' || c == '\r' || c == '\t'
    ensures DecodeEscape(EscapeChar(c)[1..] + rest) == Some((c, rest))
  {
    var e := EscapeChar(c);
    assert |e| == 2;
    var t := e[1..] + rest;
    assert t[0] == e[1] && t[1..] == rest;
  }

  /** Reading one escaped character gives back that character. */
  lemma ScanEscapeChar(c: char, rest: string)
    ensures Scan(EscapeChar(c) + rest) == Prepend(c, Scan(rest))
  {
    if |EscapeChar(c)| == 1 {
      ScanPlainChar(c, rest);
    } else {
      ScanEscapedChar(c, rest);
    }
  }

  lemma ScanPlainChar(c: char, rest: string)
    requires |EscapeChar(c)| == 1
    ensures Scan(EscapeChar(c) + rest) == Prepend(c, Scan(rest))
  {
    var t := [c] + rest;
    assert t[0] == c && t[1..] == rest;
  }

  lemma ScanEscapedChar(c: char, rest: string)
    requires |EscapeChar(c)| > 1
    ensures Scan(EscapeChar(c) + rest) == Prepend(c, Scan(rest))
  {
    var e := EscapeChar(c);
    var t := e + rest;
    assert t[0] == '\\';
    DecodeEscapeChar(c, rest);
    assert t[1..] == e[1..] + rest;
  }

  lemma EscapeCons(s: string, rest: string)
    requires |s| > 0
    ensures Escape(s) + "\"" + rest == EscapeChar(s[0]) + (Escape(s[1..]) + "\"" + rest)
  {
    EscapeUnfold(s);
    Regroup(EscapeChar(s[0]), Escape(s[1..]), "\"", rest);
  }

  lemma EscapeUnfold(s: string)
    requires |s| > 0
    ensures Escape(s) == EscapeChar(s[0]) + Escape(s[1..])
  {
  }

  lemma Regroup(a: string, b: string, c: string, d: string)
    ensures a + b + c + d == a + (b + c + d)
  {
  }

  /** With `ensure_ascii`, every character `json.dumps` writes for a string
      is printable ASCII, so the envelope survives any output encoding. */
  lemma {:induction false} EscapeIsAscii(s: string)
    ensures forall i :: 0 <= i < |Escape(s)| ==> ' ' <= Escape(s)[i] <= '~'
  {
    if |s| > 0 {
      EscapeIsAscii(s[1..]);
      var e, x := EscapeChar(s[0]), Escape(s[1..]);
      assert Escape(s) == e + x;
      forall i | 0 <= i < |e + x|
        ensures ' ' <= (e + x)[i] <= '~'
      {
        if i >= |e| {
          assert (e + x)[i] == x[i - |e|];
        }
      }
    }
  }

  lemma ScanClosingQuote(rest: string)
    ensures Scan(Escape("") + "\"" + rest) == Some(("", rest))
  {
    assert Escape("") + "\"" + rest == "\"" + rest;
    assert ("\"" + rest)[1..] == rest;
  }

  /** `json.loads` reads back what `json.dumps` wrote: scanning an escaped
      string and its closing quote yields the original string and leaves
      the text after the quote. */
  lemma {:induction false} ScanEscape(s: string, rest: string)
    ensures Scan(Escape(s) + "\"" + rest) == Some((s, rest))
  {
    if |s| == 0 {
      ScanClosingQuote(rest);
    } else {
      ScanEscape(s[1..], rest);
      ScanEscapeStep(s, rest);
    }
  }

  /** One step of the read-back: when the rest of the string reads back,
      so does the whole. */
  lemma ScanEscapeStep(s: string, rest: string)
    requires |s| > 0 && Scan(Escape(s[1..]) + "\"" + rest) == Some((s[1..], rest))
    ensures Scan(Escape(s) + "\"" + rest) == Some((s, rest))
  {
    var tail := Escape(s[1..]) + "\"" + rest;
    EscapeCons(s, rest);
    ScanEscapeChar(s[0], tail);
    assert Prepend(s[0], Some((s[1..], rest))) == Some(([s[0]] + s[1..], rest));
    assert [s[0]] + s[1..] == s;
  }

  /** The text after `lit`, when `t` starts with it. */
  function Expect(lit: string, t: string): (r: Option<string>)
    ensures r.Some? <==> |lit| <= |t| && t[..|lit|] == lit
    ensures r.Some? ==> t == lit + r.value
  {
    if |lit| <= |t| && t[..|lit|] == lit then
      assert t == lit + t[|lit|..];
      Some(t[|lit|..])
    else None
  }

  lemma ExpectLiteral(lit: string, t: string)
    ensures Expect(lit, lit + t) == Some(t)
  {
    assert (lit + t)[..|lit|] == lit;
  }

  /** The reply object `{"command": …, "query": …, "message": …}` as
      `json.dumps` writes a dictionary with those three string values in
      that order (default separators `", "` and `": "`). */
  function DumpsIntent(command: string, query: string, message: string): (r: string)
    ensures |r| >= 40 && r[0] == '{' && r[|r| - 1] == '}'
  {
    "{\"command\": \"" + (Escape(command) + "\"" +
      (", \"query\": \"" + (Escape(query) + "\"" +
        (", \"message\": \"" + (Escape(message) + "\"" + "}")))))
  }

  /** Reads the three string values back from text laid out as `DumpsIntent`
      writes it; `None` for any other text. */
  function LoadsIntent(text: string): Option<(string, string, string)>
  {
    match Expect("{\"command\": \"", text)
    case None => None
    case Some(t1) =>
      match Scan(t1)
      case None => None
      case Some((command, t2)) =>
        match Expect(", \"query\": \"", t2)
        case None => None
        case Some(t3) =>
          match Scan(t3)
          case None => None
          case Some((query, t4)) =>
            match Expect(", \"message\": \"", t4)
            case None => None
            case Some(t5) =>
              match Scan(t5)
              case None => None
              case Some((message, t6)) =>
                if t6 == "}" then Some((command, query, message)) else None
  }

  /** A rendered reply object reads back as exactly the three values it was
      rendered from, whatever characters they contain. */
  lemma LoadsDumpsIntent(command: string, query: string, message: string)
    ensures LoadsIntent(DumpsIntent(command, query, message)) == Some((command, query, message))
  {
    var k1, k2, k3 := "{\"command\": \"", ", \"query\": \"", ", \"message\": \"";
    var r3 := "}";
    var r2 := k3 + (Escape(message) + "\"" + r3);
    var r1 := k2 + (Escape(query) + "\"" + r2);
    ExpectLiteral(k1, Escape(command) + "\"" + r1);
    ScanEscape(command, r1);
    ExpectLiteral(k2, Escape(query) + "\"" + r2);
    ScanEscape(query, r2);
    ExpectLiteral(k3, Escape(message) + "\"" + r3);
    ScanEscape(message, r3);
  }
}
