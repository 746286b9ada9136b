/**
  The inline values of a lesson's frontmatter (twill_lessons.py): the
  recursive-descent reader as functions of the text still to be read, and the
  printer of scalars and mappings.
 */
module Inline {
  import opened Prelude
  import opened PyText
  import opened JsonText

  /** `Fields` is a dictionary in insertion order. `Real` keeps a decimal as it was spelled. */
  datatype Value =
    | Null
    | Flag(flag: bool)
    | Whole(n: int)
    | Real(literal: string)
    | Text(text: string)
    | Items(items: seq<Value>)
    | Fields(fields: seq<(string, Value)>)

  // ---------------------------------------------------------------------
  // Tokens
  // ---------------------------------------------------------------------

  predicate IsDigit(c: char) {
    '0' <= c <= '9'
  }

  predicate IsLetter(c: char) {
    'a' <= c <= 'z' || 'A' <= c <= 'Z'
  }

  /** `[0-9]+`; the source's class also takes other scripts' digits. */
  predicate Digits(s: string) {
    s != "" && forall i :: 0 <= i < |s| ==> IsDigit(s[i])
  }

  function Unsigned(s: string): string {
    if s != "" && (s[0] == '-' || s[0] == '+') then s[1..] else s
  }

  /** `[-+]?\d+`. */
  predicate WholeToken(s: string) {
    Digits(Unsigned(s))
  }

  function DigitRun(s: string): (n: nat)
    ensures n <= |s| && forall i :: 0 <= i < n ==> IsDigit(s[i])
    ensures n < |s| ==> !IsDigit(s[n])
  {
    if s == "" || !IsDigit(s[0]) then 0 else 1 + DigitRun(s[1..])
  }

  /** `(?:[eE][-+]?\d+)?` to the end. */
  predicate Exponent(s: string) {
    s == "" || ((s[0] == 'e' || s[0] == 'E') && Digits(Unsigned(s[1..])))
  }

  /** `[-+]?(?:\d+\.\d*|\.\d+)(?:[eE][-+]?\d+)?`. */
  predicate RealToken(s: string) {
    var u := Unsigned(s);
    var n := DigitRun(u);
    && n < |u| && u[n] == '.'
    && var m := DigitRun(u[n + 1..]);
       n + m > 0 && Exponent(u[n + 1 + m..])
  }

  /** `[-+]?(?:\d+\.?\d*|\.\d+)(?:[eE][-+]?\d+)?`: what would not read back as text. */
  predicate NumberLike(s: string) {
    var u := Unsigned(s);
    var n := DigitRun(u);
    || RealToken(s)
    || (n > 0 && Exponent(u[n..]))
  }

  function DigitsValue(s: string): nat
    requires forall i :: 0 <= i < |s| ==> IsDigit(s[i])
  {
    if s == "" then 0
    else
      assert IsDigit(s[|s| - 1]);
      DigitsValue(s[..|s| - 1]) * 10 + (s[|s| - 1] as int - '0' as int)
  }

  /** `int(token)`. */
  function WholeValue(s: string): int
    requires WholeToken(s)
  {
    var value: int := DigitsValue(Unsigned(s));
    if s[0] == '-' then -value else value
  }

  /** `[^\x00-\x1f\x7f]+`. */
  predicate SafeField(s: string) {
    s != "" && forall i :: 0 <= i < |s| ==> s[i] >= ' ' && s[i] != '\U{7F}'
  }

  /** `[A-Za-z_][A-Za-z0-9_-]*`. */
  predicate Identifier(s: string) {
    && s != "" && (IsLetter(s[0]) || s[0] == '_')
    && forall i :: 0 <= i < |s| ==> IsLetter(s[i]) || IsDigit(s[i]) || s[i] == '_' || s[i] == '-'
  }

  function Scalar(token: string): Option<Value> {
    if token == "" then None
    else if token == "null" then Some(Null)
    else if token == "true" then Some(Flag(true))
    else if token == "false" then Some(Flag(false))
    else if WholeToken(token) then Some(Whole(WholeValue(token)))
    else if RealToken(token) then Some(Real(token))
    else if !SafeField(token) then None
    else Some(Text(token))
  }

  /** How far the text runs before the first of the stops. */
  function Until(s: string, stops: set<char>): (n: nat)
    ensures n <= |s| && forall i :: 0 <= i < n ==> s[i] !in stops
    ensures n < |s| ==> s[n] in stops
  {
    if s == "" || s[0] in stops then 0 else 1 + Until(s[1..], stops)
  }

  const VALUE_STOPS := {',', '}', ']'}
  const KEY_STOPS := {':', ',', '}', ']'}

  // ---------------------------------------------------------------------
  // The reader
  // ---------------------------------------------------------------------

  type Reading = Option<Parsed<Value>>

  /** `_value`. */
  function ReadValue(s: string): (r: Reading)
    ensures r.Some? ==> |r.value.rest| <= |s|
    decreases |s|, 3
  {
    var t := LeftStrip(s);
    if t == "" then None
    else if t[0] == '{' then ReadMapping(t[1..])
    else if t[0] == '[' then ReadSequence(t[1..])
    else if t[0] == '"' then
      match Quoted(t)
      case None => None
      case Some(Parsed(text, rest)) => Some(Parsed(Text(text), rest))
    else ReadScalar(t)
  }

  function ReadScalar(t: string): (r: Reading)
    ensures r.Some? ==> |r.value.rest| <= |t|
  {
    var n := Until(t, VALUE_STOPS);
    match Scalar(Strip(t[..n]))
    case None => None
    case Some(v) => Some(Parsed(v, t[n..]))
  }

  /** `_key`. */
  function ReadKey(s: string): (r: Option<Parsed<string>>)
    ensures r.Some? ==> |r.value.rest| <= |s|
  {
    var t := LeftStrip(s);
    if t == "" then None
    else if t[0] == '"' then Quoted(t)
    else
      var n := Until(t, KEY_STOPS);
      var key := Strip(t[..n]);
      if Identifier(key) then Some(Parsed(key, t[n..])) else None
  }

  predicate HasKey(fields: seq<(string, Value)>, key: string) {
    exists i :: 0 <= i < |fields| && fields[i].0 == key
  }

  /** `_mapping`, after its opening brace. */
  function ReadMapping(s: string): (r: Reading)
    ensures r.Some? ==> |r.value.rest| <= |s|
    decreases |s|, 2
  {
    var t := LeftStrip(s);
    if t != "" && t[0] == '}' then Some(Parsed(Fields([]), t[1..])) else ReadEntries(t, [])
  }

  /** A key, its colon and what follows the colon. */
  function ReadEntryKey(s: string, fields: seq<(string, Value)>): (r: Option<Parsed<string>>)
    ensures r.Some? ==> |r.value.rest| < |s|
  {
    match ReadKey(s)
    case None => None
    case Some(Parsed(key, rest)) =>
      var t := LeftStrip(rest);
      if HasKey(fields, key) || t == "" || t[0] != ':' then None else Some(Parsed(key, t[1..]))
  }

  /** Where the loop goes after an entry or an item: on, to the end, or wrong. */
  datatype Turn = More(rest: string) | Closed(rest: string) | Wrong

  function NextTurn(s: string, close: char): (r: Turn)
    ensures !r.Wrong? ==> |r.rest| < |s|
  {
    var t := LeftStrip(s);
    if t == "" then Wrong
    else if t[0] == close then Closed(t[1..])
    else if t[0] != ',' then Wrong
    else
      var u := LeftStrip(t[1..]);
      if u != "" && u[0] == close then Wrong else More(u)
  }

  function ReadEntries(s: string, fields: seq<(string, Value)>): (r: Reading)
    ensures r.Some? ==> |r.value.rest| <= |s|
    decreases |s|, 1
  {
    match ReadEntryKey(s, fields)
    case None => None
    case Some(Parsed(key, afterKey)) =>
      match ReadValue(afterKey)
      case None => None
      case Some(Parsed(v, afterValue)) =>
        var all := fields + [(key, v)];
        match NextTurn(afterValue, '}')
        case Wrong => None
        case Closed(rest) => Some(Parsed(Fields(all), rest))
        case More(rest) => ReadEntries(rest, all)
  }

  /** `_sequence`, after its opening bracket. */
  function ReadSequence(s: string): (r: Reading)
    ensures r.Some? ==> |r.value.rest| <= |s|
    decreases |s|, 5
  {
    var t := LeftStrip(s);
    if t != "" && t[0] == ']' then Some(Parsed(Items([]), t[1..])) else ReadItems(t, [])
  }

  function ReadItems(s: string, items: seq<Value>): (r: Reading)
    ensures r.Some? ==> |r.value.rest| <= |s|
    decreases |s|, 4
  {
    match ReadValue(s)
    case None => None
    case Some(Parsed(v, afterValue)) =>
      match NextTurn(afterValue, ']')
      case Wrong => None
      case Closed(rest) => Some(Parsed(Items(items + [v]), rest))
      case More(rest) => ReadItems(rest, items + [v])
  }

  /** `_InlineParser(text).parse()`; None is an invalid inline value. */
  function Parse(text: string): Option<Value> {
    match ReadValue(text)
    case None => None
    case Some(Parsed(v, rest)) => if LeftStrip(rest) == "" then Some(v) else None
  }

  // ---------------------------------------------------------------------
  // The printer
  // ---------------------------------------------------------------------

  predicate BareChar(c: char) {
    IsLetter(c) || IsDigit(c) || c == '.' || c == '_' || c == '/' || c == '@' || c == '+' || c == '-'
  }

  /** `[A-Za-z0-9][A-Za-z0-9._/@+-]*`. */
  predicate SafeBare(s: string) {
    s != "" && (IsLetter(s[0]) || IsDigit(s[0])) && forall i :: 0 <= i < |s| ==> BareChar(s[i])
  }

  function Lower(s: string): string {
    if s == "" then ""
    else [if 'A' <= s[0] <= 'Z' then (s[0] as int + 32) as char else s[0]] + Lower(s[1..])
  }

  /** Text that needs no quotes: it cannot be taken for anything else. */
  predicate BareText(s: string) {
    SafeBare(s) && Lower(s) !in {"null", "true", "false"} && !NumberLike(s)
  }

  function RenderText(s: string): string {
    if BareText(s) then s else Quote(s)
  }

  function Decimal(n: nat): (s: string)
    ensures Digits(s)
  {
    if n < 10 then [(n + '0' as int) as char] else Decimal(n / 10) + [(n % 10 + '0' as int) as char]
  }

  /** A scalar the round trip covers: anything but a decimal or a collection. */
  predicate Plain(v: Value) {
    v.Null? || v.Flag? || v.Whole? || v.Text?
  }

  /** `_render_scalar`. */
  function RenderScalar(v: Value): string
    requires Plain(v)
  {
    match v
    case Null => "null"
    case Flag(b) => if b then "true" else "false"
    case Whole(n) => if n < 0 then "-" + Decimal(-n) else Decimal(n)
    case Text(s) => RenderText(s)
  }

  function RenderEntry(entry: (string, Value)): string
    requires Plain(entry.1)
  {
    entry.0 + ": " + RenderScalar(entry.1)
  }

  predicate AllPlain(fields: seq<(string, Value)>) {
    forall i :: 0 <= i < |fields| ==> Plain(fields[i].1)
  }

  function RenderEntries(fields: seq<(string, Value)>): string
    requires AllPlain(fields)
  {
    if fields == [] then ""
    else if |fields| == 1 then RenderEntry(fields[0])
    else RenderEntry(fields[0]) + ", " + RenderEntries(fields[1..])
  }

  /** `_render_mapping`. */
  function RenderMapping(fields: seq<(string, Value)>): string
    requires AllPlain(fields)
  {
    "{" + RenderEntries(fields) + "}"
  }
}
