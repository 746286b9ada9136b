/**
  JSON strings as the lesson printer writes them and the inline parser reads
  them: section 7 of RFC 8259, with only the mandatory escapes written.
 */
module JsonText {
  import opened Prelude
  import opened PyText
  import opened Sequences

  /** What was read, and the text that follows it. */
  datatype Parsed<+T> = Parsed(value: T, rest: string)

  function HexDigit(n: nat): char
    requires n < 16
  {
    "0123456789abcdef"[n]
  }

  /** A hexadecimal digit in either case. */
  function HexValue(c: char): Option<nat> {
    if '0' <= c <= '9' then Some(c as int - '0' as int)
    else if 'a' <= c <= 'f' then Some(c as int - 'a' as int + 10)
    else if 'A' <= c <= 'F' then Some(c as int - 'A' as int + 10)
    else None
  }

  lemma HexRoundTrip(n: nat)
    requires n < 16
    ensures HexValue(HexDigit(n)) == Some(n)
  {}

  function EscapeChar(c: char): string {
    if c == '"' then "\\\""
    else if c == '\\' then "\\\\"
    else if c == '\n' then "\\n"
    else if c == '\r' then "\\r"
    else if c == '\t' then "\\t"
    else if c == '\U{0C}' then "\\f"
    else if c == '\U{08}' then "\\b"
    else if c < ' ' then "\\u00" + [HexDigit(c as int / 16), HexDigit(c as int % 16)]
    else [c]
  }

  function EscapeWith(escape: char -> string, s: string): string {
    if s == "" then "" else escape(s[0]) + EscapeWith(escape, s[1..])
  }

  function Escape(s: string): string {
    EscapeWith(EscapeChar, s)
  }

  /** `json.dumps(s, ensure_ascii=False)`. */
  function Quote(s: string): string {
    "\"" + Escape(s) + "\""
  }

  // ---------------------------------------------------------------------
  // Decoding
  // ---------------------------------------------------------------------

  function SimpleEscape(c: char): Option<char> {
    if c == '"' || c == '\\' || c == '/' then Some(c)
    else if c == 'b' then Some('\U{08}')
    else if c == 'f' then Some('\U{0C}')
    else if c == 'n' then Some('\n')
    else if c == 'r' then Some('\r')
    else if c == 't' then Some('\t')
    else None
  }

  /** Four hexadecimal digits. */
  function Hex4(s: string): Option<nat> {
    if |s| < 4 || HexValue(s[0]).None? || HexValue(s[1]).None? || HexValue(s[2]).None? || HexValue(s[3]).None? then None
    else Some(((HexValue(s[0]).value * 16 + HexValue(s[1]).value) * 16 + HexValue(s[2]).value) * 16
              + HexValue(s[3]).value)
  }

  /** The character of a \u escape, the low half of a surrogate pair included. A lone surrogate is not text here. */
  function UnicodeEscape(s: string): (r: Option<Parsed<char>>)
    ensures r.Some? ==> |r.value.rest| < |s|
  {
    match Hex4(s)
    case None => None
    case Some(high) =>
      if 0xD800 <= high < 0xDC00 then
        if |s| < 10 || s[4] != '\\' || s[5] != 'u' then None
        else match Hex4(s[6..])
             case None => None
             case Some(low) =>
               if 0xDC00 <= low < 0xE000 then
                 Some(Parsed((0x10000 + (high - 0xD800) * 0x400 + (low - 0xDC00)) as char, s[10..]))
               else None
      else if 0xDC00 <= high < 0xE000 || high > 0xFFFF then None
      else Some(Parsed(high as char, s[4..]))
  }

  /** The rest of a string after its opening quote; a raw control character is refused. */
  function DecodeBody(s: string): (r: Option<Parsed<string>>)
    ensures r.Some? ==> |r.value.rest| < |s|
    decreases |s|
  {
    if s == "" then None
    else if s[0] == '"' then Some(Parsed("", s[1..]))
    else if s[0] < ' ' then None
    else if s[0] != '\\' then Cons(s[0], DecodeBody(s[1..]))
    else if |s| < 2 then None
    else if s[1] == 'u' then
      match UnicodeEscape(s[2..])
      case None => None
      case Some(Parsed(c, rest)) => Cons(c, DecodeBody(rest))
    else match SimpleEscape(s[1])
         case None => None
         case Some(c) => Cons(c, DecodeBody(s[2..]))
  }

  function Cons(c: char, tail: Option<Parsed<string>>): Option<Parsed<string>> {
    match tail
    case None => None
    case Some(Parsed(text, rest)) => Some(Parsed([c] + text, rest))
  }

  /** A quoted string at the start of the text. */
  function Quoted(s: string): (r: Option<Parsed<string>>)
    ensures r.Some? ==> |r.value.rest| < |s|
  {
    if s == "" || s[0] != '"' then None else DecodeBody(s[1..])
  }

  // ---------------------------------------------------------------------
  // Round trip
  // ---------------------------------------------------------------------

  lemma DecodesControl(c: char, rest: string)
    requires c < ' '
    ensures UnicodeEscape("00" + [HexDigit(c as int / 16), HexDigit(c as int % 16)] + rest) == Some(Parsed(c, rest))
  {
    var s := "00" + [HexDigit(c as int / 16), HexDigit(c as int % 16)] + rest;
    HexRoundTrip(c as int / 16);
    HexRoundTrip(c as int % 16);
    assert s[4..] == rest;
  }

  lemma DecodesOne(c: char, rest: string)
    ensures DecodeBody(EscapeChar(c) + rest) == Cons(c, DecodeBody(rest))
  {
    hide UnicodeEscape, HexDigit;
    var s := EscapeChar(c) + rest;
    CutsBack(EscapeChar(c), rest);
    if s[0] == '\\' {
      if s[1] == 'u' {
        DecodesControl(c, rest);
        assert s[2..] == "00" + [HexDigit(c as int / 16), HexDigit(c as int % 16)] + rest;
      } else {
        DecodesSimple(c, rest);
      }
    }
  }

  lemma DecodesSimple(c: char, rest: string)
    requires |EscapeChar(c)| == 2
    ensures DecodeBody(EscapeChar(c) + rest) == Cons(c, DecodeBody(rest))
  {
    hide UnicodeEscape, HexDigit;
    CutsBack(EscapeChar(c), rest);
  }

  type Decoder = string -> Option<Parsed<string>>

  /** A decoder takes each escaped character, and stops at the closing quote. */
  ghost predicate TakesEscapes(decode: Decoder, escape: char -> string) {
    && (forall c, rest: string :: decode(escape(c) + rest) == Cons(c, decode(rest)))
    && (forall rest: string :: decode("\"" + rest) == Some(Parsed("", rest)))
  }

  lemma DecodeBodyTakesEscapes()
    ensures TakesEscapes(DecodeBody, EscapeChar)
  {
    forall c, rest: string ensures DecodeBody(EscapeChar(c) + rest) == Cons(c, DecodeBody(rest)) {
      DecodesOne(c, rest);
    }
    forall rest: string ensures DecodeBody("\"" + rest) == Some(Parsed("", rest)) {
      CutsBack("\"", rest);
    }
  }

  lemma {:induction false} EscapeReadsBack(decode: Decoder, escape: char -> string, s: string, rest: string)
    requires TakesEscapes(decode, escape)
    ensures decode(EscapeWith(escape, s) + ("\"" + rest)) == Some(Parsed(s, rest))
  {
    var tail := "\"" + rest;
    if s == "" {
      assert EscapeWith(escape, s) + tail == tail;
    } else {
      EscapeReadsBack(decode, escape, s[1..], rest);
      Associates(escape(s[0]), EscapeWith(escape, s[1..]), tail);
      HeadAndTail(s);
    }
  }

  /** Any text, quoted and followed by anything, reads back. */
  lemma QuoteReadsBack(s: string, rest: string)
    ensures Quoted(Quote(s) + rest) == Some(Parsed(s, rest))
  {
    DecodeBodyTakesEscapes();
    EscapeReadsBack(DecodeBody, EscapeChar, s, rest);
    QuoteOpens(s, rest);
  }

  lemma QuoteOpens(s: string, rest: string)
    ensures Quoted(Quote(s) + rest) == DecodeBody(Escape(s) + ("\"" + rest))
  {
    var body := Escape(s) + ("\"" + rest);
    assert Quote(s) + rest == "\"" + body by {
      Associates("\"" + Escape(s), "\"", rest);
      Associates("\"", Escape(s), "\"" + rest);
    }
    CutsBack("\"", body);
  }

  /** Cut short before its closing quote, an escaped text does not read. */
  lemma CutEscapeFails(s: string)
    ensures DecodeBody(Escape(s)).None?
  {
    DecodeBodyTakesEscapes();
    CutFails(DecodeBody, EscapeChar, s);
  }

  lemma {:induction false} CutFails(decode: Decoder, escape: char -> string, s: string)
    requires TakesEscapes(decode, escape) && decode("").None?
    ensures decode(EscapeWith(escape, s)).None?
  {
    if s != "" {
      CutFails(decode, escape, s[1..]);
    }
  }

  // ---------------------------------------------------------------------
  // Line breaks
  // ---------------------------------------------------------------------

  /** The line breaks JSON leaves raw: next line, line separator, paragraph separator. */
  predicate RawBreak(c: char) {
    c == '\U{85}' || c == '\U{2028}' || c == '\U{2029}'
  }

  predicate OneLine(s: string) {
    forall i :: 0 <= i < |s| ==> !RawBreak(s[i])
  }

  lemma {:induction false} EscapeBreaksExactly(s: string)
    ensures NoBreaks(Escape(s)) <==> OneLine(s)
  {
    if s != "" {
      EscapeBreaksExactly(s[1..]);
      CharBreaksExactly(s[0]);
      NoBreaksJoin(EscapeChar(s[0]), Escape(s[1..]));
      OneLineOfCons(s);
    }
  }

  lemma OneLineOfCons(s: string)
    requires s != ""
    ensures OneLine(s) <==> !RawBreak(s[0]) && OneLine(s[1..])
  {
    assert forall i :: 0 < i < |s| ==> s[i] == s[1..][i - 1];
  }

  lemma CharBreaksExactly(c: char)
    ensures NoBreaks(EscapeChar(c)) <==> !RawBreak(c)
  {
    if !RawBreak(c) && c < ' ' {
      var n := c as int;
      assert forall i :: 0 <= i < |EscapeChar(c)| ==> EscapeChar(c)[i] >= ' ' && EscapeChar(c)[i] < '\U{7F}';
    } else if RawBreak(c) {
      assert EscapeChar(c)[0] == c;
    }
  }

  /** Quoted text stays on one line exactly when it has none of the raw breaks. */
  lemma QuoteBreaksExactly(s: string)
    ensures NoBreaks(Quote(s)) <==> OneLine(s)
  {
    EscapeBreaksExactly(s);
    NoBreaksJoin("\"" + Escape(s), "\"");
    NoBreaksJoin("\"", Escape(s));
  }
}
