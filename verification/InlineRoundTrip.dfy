/**
  A rendered mapping of scalars reads back as itself, and one cut short
  inside a quoted text does not read at all.
 */
module InlineRoundTrip {
  import opened Prelude
  import opened PyText
  import opened Sequences
  import opened JsonText
  import opened Inline

  // ---------------------------------------------------------------------
  // Scalars
  // ---------------------------------------------------------------------

  lemma {:induction false} DecimalReads(n: nat)
    ensures DigitsValue(Decimal(n)) == n
  {
    var s := Decimal(n);
    if n >= 10 {
      DecimalReads(n / 10);
      assert s[..|s| - 1] == Decimal(n / 10);
    } else {
      assert s[..0] == "";
    }
  }

  lemma {:induction false} DigitRunOfDigits(s: string)
    requires forall i :: 0 <= i < |s| ==> IsDigit(s[i])
    ensures DigitRun(s) == |s|
  {
    if s != "" {
      DigitRunOfDigits(s[1..]);
    }
  }

  /** A token of ordinary characters, with nothing the reader stops or branches at. */
  predicate Token(s: string) {
    s != "" && forall i :: 0 <= i < |s| ==> BareChar(s[i])
  }

  lemma {:induction false} UntilPastToken(s: string, rest: string, stops: set<char>)
    requires forall i :: 0 <= i < |s| ==> s[i] !in stops
    requires rest == "" || rest[0] in stops
    ensures Until(s + rest, stops) == |s|
  {
    if s == "" {
      assert s + rest == rest;
    } else {
      assert (s + rest)[1..] == s[1..] + rest;
      UntilPastToken(s[1..], rest, stops);
    }
  }

  lemma DigitsAreNumberLike(s: string)
    requires Digits(s) && Unsigned(s) == s
    ensures NumberLike(s)
  {
    DigitRunOfDigits(s);
    assert s[|s|..] == "";
  }

  lemma BareTextIsNoWord(s: string)
    requires BareText(s)
    ensures s !in {"null", "true", "false"}
  {
    LowerOfLower("null");
    LowerOfLower("true");
    LowerOfLower("false");
  }

  lemma BareTextIsNoWhole(s: string)
    requires BareText(s)
    ensures !WholeToken(s) && !RealToken(s)
  {
    assert Unsigned(s) == s;
    if Digits(s) {
      DigitsAreNumberLike(s);
    }
  }

  lemma BareTextIsText(s: string)
    requires BareText(s)
    ensures Scalar(s) == Some(Text(s)) && Token(s)
  {
    BareTextIsNoWord(s);
    BareTextIsNoWhole(s);
    assert SafeField(s);
  }

  lemma {:induction false} LowerOfLower(s: string)
    requires forall i :: 0 <= i < |s| ==> 'a' <= s[i] <= 'z'
    ensures Lower(s) == s
  {
    if s != "" {
      LowerOfLower(s[1..]);
      assert [s[0]] + s[1..] == s;
    }
  }

  lemma WholeIsWhole(n: int)
    ensures Scalar(RenderScalar(Whole(n))) == Some(Whole(n)) && Token(RenderScalar(Whole(n)))
  {
    var s := RenderScalar(Whole(n));
    if n < 0 {
      DecimalReads(-n);
      assert s[1..] == Decimal(-n);
    } else {
      DecimalReads(n);
      assert IsDigit(s[0]);
    }
    assert forall i :: 0 <= i < |s| ==> BareChar(s[i]);
    assert Unsigned(s) == Decimal(if n < 0 then -n else n);
    assert IsDigit(Unsigned(s)[0]);
  }

  predicate Unquoted(v: Value) {
    v.Text? ==> BareText(v.text)
  }

  lemma TokenReads(v: Value)
    requires Plain(v) && Unquoted(v)
    ensures Token(RenderScalar(v)) && Scalar(RenderScalar(v)) == Some(v)
  {
    match v
    case Null =>
    case Flag(b) =>
    case Whole(n) => WholeIsWhole(n);
    case Text(s) => BareTextIsText(s);
  }

  /** The first character is not a space. */
  predicate Starts(t: string) {
    t != "" && !IsSpace(t[0])
  }

  lemma StartsStrips(t: string)
    requires Starts(t)
    ensures LeftStrip(t) == t
  {}

  lemma BareStarts(t: string)
    requires t != "" && BareChar(t[0])
    ensures Starts(t) && t[0] !in {'{', '[', '"', '}', ']'}
  {}

  /** Text the reader takes as a bare scalar. */
  lemma ReadsAsScalar(t: string)
    requires t != "" && LeftStrip(t) == t && t[0] !in {'{', '[', '"'}
    ensures ReadValue(t) == ReadScalar(t)
  {}

  lemma ReadsAsQuoted(t: string)
    requires t != "" && LeftStrip(t) == t && t[0] == '"'
    ensures ReadValue(t) == match Quoted(t)
                            case None => None
                            case Some(Parsed(text, rest)) => Some(Parsed(Text(text), rest))
  {}

  lemma ReadsAsMapping(inner: string)
    ensures ReadValue("{" + inner) == ReadMapping(inner)
  {
    var t := "{" + inner;
    StartsStrips(t);
    assert t[1..] == inner;
  }

  lemma TokenScalarReads(s: string, rest: string)
    requires Token(s) && (rest == "" || rest[0] in VALUE_STOPS)
    ensures ReadScalar(s + rest) == match Scalar(s)
                                    case None => None
                                    case Some(v) => Some(Parsed(v, rest))
  {
    assert forall i :: 0 <= i < |s| ==> BareChar(s[i]);
    UntilPastToken(s, rest, VALUE_STOPS);
    assert (s + rest)[..|s|] == s && (s + rest)[|s|..] == rest;
    StripOfTight(s);
  }

  lemma TokenReadsBack(v: Value, rest: string)
    requires Plain(v) && Unquoted(v) && (rest == "" || rest[0] in VALUE_STOPS)
    ensures ReadValue(RenderScalar(v) + rest) == Some(Parsed(v, rest))
  {
    var s := RenderScalar(v);
    TokenReads(v);
    assert BareChar((s + rest)[0]);
    BareStarts(s + rest);
    StartsStrips(s + rest);
    ReadsAsScalar(s + rest);
    TokenScalarReads(s, rest);
  }

  lemma QuotedReadsBack(s: string, rest: string)
    ensures ReadValue(Quote(s) + rest) == Some(Parsed(Text(s), rest))
  {
    var t := Quote(s) + rest;
    QuoteReadsBack(s, rest);
    StartsStrips(t);
    ReadsAsQuoted(t);
  }

  /** A scalar reads back whatever follows, as long as the reader stops there. */
  lemma ScalarReadsBack(v: Value, rest: string)
    requires Plain(v) && (rest == "" || rest[0] in VALUE_STOPS)
    ensures ReadValue(RenderScalar(v) + rest) == Some(Parsed(v, rest))
  {
    if Unquoted(v) {
      TokenReadsBack(v, rest);
    } else {
      QuotedReadsBack(v.text, rest);
    }
  }

  // ---------------------------------------------------------------------
  // Entries
  // ---------------------------------------------------------------------

  lemma SkipOneSpace(s: string)
    ensures LeftStrip(" " + s) == LeftStrip(s)
    ensures ReadValue(" " + s) == ReadValue(s)
  {
    hide LeftStrip, ReadMapping, ReadSequence, ReadScalar, Quoted;
    OneLead(s);
  }

  predicate KeyChar(c: char) {
    IsLetter(c) || IsDigit(c) || c == '_' || c == '-'
  }

  lemma KeyCharIsPlain(c: char)
    requires KeyChar(c)
    ensures !IsSpace(c) && c !in KEY_STOPS && c != '"'
  {}

  lemma IdentifierIsTight(key: string)
    requires Identifier(key)
    ensures Strip(key) == key && Starts(key) && key[0] != '"'
    ensures forall i :: 0 <= i < |key| ==> key[i] !in KEY_STOPS
  {
    forall i | 0 <= i < |key| ensures !IsSpace(key[i]) && key[i] !in KEY_STOPS && key[i] != '"' {
      KeyCharIsPlain(key[i]);
    }
    StripOfTight(key);
  }

  lemma KeyReads(key: string, rest: string)
    requires Identifier(key) && rest != "" && rest[0] in KEY_STOPS
    ensures ReadKey(key + rest) == Some(Parsed(key, rest))
  {
    var s := key + rest;
    IdentifierIsTight(key);
    DropsFirst(key, rest);
    StartsStrips(s);
    UntilPastToken(key, rest, KEY_STOPS);
    CutsBack(key, rest);
  }

  lemma KeyThenColon(s: string, key: string, rest: string, fields: seq<(string, Value)>)
    requires ReadKey(s) == Some(Parsed(key, rest)) && !HasKey(fields, key)
    requires rest != "" && LeftStrip(rest) == rest && rest[0] == ':'
    ensures ReadEntryKey(s, fields) == Some(Parsed(key, rest[1..]))
  {}

  lemma ColonRest(more: string)
    ensures var rest := ": " + more; LeftStrip(rest) == rest && rest[0] == ':' && rest[1..] == " " + more
  {
    StartsStrips(": " + more);
    assert (": " + more)[1..] == " " + more;
  }

  lemma EntryKeyReads(key: string, more: string, fields: seq<(string, Value)>)
    requires Identifier(key) && !HasKey(fields, key)
    ensures ReadEntryKey(key + (": " + more), fields) == Some(Parsed(key, " " + more))
  {
    ColonRest(more);
    KeyReads(key, ": " + more);
    KeyThenColon(key + (": " + more), key, ": " + more, fields);
  }

  predicate Keys(fields: seq<(string, Value)>) {
    && (forall i :: 0 <= i < |fields| ==> Identifier(fields[i].0))
    && (forall i, j :: 0 <= i < j < |fields| ==> fields[i].0 != fields[j].0)
  }

  lemma FreshKey(fields: seq<(string, Value)>, i: nat)
    requires Keys(fields) && i < |fields|
    ensures !HasKey(fields[..i], fields[i].0)
  {}

  lemma AnotherTurn(next: string)
    requires Starts(next) && next[0] != '}'
    ensures NextTurn(", " + next, '}') == More(next)
  {
    hide LeftStrip, IsSpace;
    var s := ", " + next;
    assert "," + " " == ", ";
    Associates(",", " ", next);
    CutsBack(",", " " + next);
    BareCloses(s);
    OneLead(next);
    StartsStrips(next);
  }

  lemma LastTurn(rest: string)
    ensures NextTurn("}" + rest, '}') == Closed(rest)
  {
    hide LeftStrip, IsSpace;
    CutsBack("}", rest);
    BareCloses("}" + rest);
  }

  lemma BareCloses(s: string)
    requires s != "" && s[0] in {',', '}', ']', '[', '{'}
    ensures LeftStrip(s) == s
  {}

  lemma EntriesStartWithKey(fields: seq<(string, Value)>)
    requires AllPlain(fields) && Keys(fields) && fields != []
    ensures var s := RenderEntries(fields); Starts(s) && s[0] != '}'
  {
    assert Identifier(fields[0].0);
  }

  /** One entry is read and the loop takes its turn at what follows. */
  lemma EntryThenMore(entry: (string, Value), more: string, fields: seq<(string, Value)>)
    requires Plain(entry.1) && Identifier(entry.0) && !HasKey(fields, entry.0)
    requires more != "" && more[0] in VALUE_STOPS
    ensures ReadEntries(RenderEntry(entry) + more, fields)
            == match NextTurn(more, '}')
               case Wrong => None
               case Closed(rest) => Some(Parsed(Fields(fields + [entry]), rest))
               case More(rest) => ReadEntries(rest, fields + [entry])
  {
    var after := RenderScalar(entry.1) + more;
    assert RenderEntry(entry) + more == entry.0 + (": " + after);
    EntryKeyReads(entry.0, after, fields);
    SkipOneSpace(after);
    ScalarReadsBack(entry.1, more);
  }

  lemma EntryThenEntries(entry: (string, Value), next: string, fields: seq<(string, Value)>)
    requires Plain(entry.1) && Identifier(entry.0) && !HasKey(fields, entry.0)
    requires Starts(next) && next[0] != '}'
    ensures ReadEntries(RenderEntry(entry) + (", " + next), fields) == ReadEntries(next, fields + [entry])
  {
    AnotherTurn(next);
    EntryThenMore(entry, ", " + next, fields);
  }

  lemma LastEntry(entry: (string, Value), rest: string, fields: seq<(string, Value)>)
    requires Plain(entry.1) && Identifier(entry.0) && !HasKey(fields, entry.0)
    ensures ReadEntries(RenderEntry(entry) + ("}" + rest), fields) == Some(Parsed(Fields(fields + [entry]), rest))
  {
    LastTurn(rest);
    EntryThenMore(entry, "}" + rest, fields);
  }

  /** The last entry of a mapping, whatever its value is, ends the mapping and the text. */
  lemma LastValueEntry(key: string, text: string, v: Value, fields: seq<(string, Value)>)
    requires Identifier(key) && !HasKey(fields, key)
    requires ReadValue(text + "}") == Some(Parsed(v, "}"))
    ensures ReadEntries(key + (": " + (text + "}")), fields) == Some(Parsed(Fields(fields + [(key, v)]), ""))
  {
    hide ReadValue, ReadEntryKey, NextTurn;
    EntryKeyReads(key, text + "}", fields);
    SkipOneSpace(text + "}");
    LastTurn("");
    assert "}" + "" == "}";
  }

  predicate Enters(entry: (string, Value), fields: seq<(string, Value)>) {
    Plain(entry.1) && Identifier(entry.0) && !HasKey(fields, entry.0)
  }

  type Reader = (string, seq<(string, Value)>) -> Reading

  /** A reader of entries takes a rendered entry and goes on after its comma, or ends at the brace. */
  ghost predicate TakesEntries(read: Reader) {
    && (forall entry: (string, Value), next: string, fields ::
          Enters(entry, fields) && Starts(next) && next[0] != '}' ==>
            read(RenderEntry(entry) + (", " + next), fields) == read(next, fields + [entry]))
    && (forall entry: (string, Value), rest: string, fields ::
          Enters(entry, fields) ==>
            read(RenderEntry(entry) + ("}" + rest), fields) == Some(Parsed(Fields(fields + [entry]), rest)))
  }

  lemma ReadEntriesTakesEntries()
    ensures TakesEntries((s, fields) => ReadEntries(s, fields))
  {
    forall entry: (string, Value), next: string, fields | Enters(entry, fields) && Starts(next) && next[0] != '}'
      ensures ReadEntries(RenderEntry(entry) + (", " + next), fields) == ReadEntries(next, fields + [entry])
    {
      EntryThenEntries(entry, next, fields);
    }
    forall entry: (string, Value), rest: string, fields | Enters(entry, fields)
      ensures ReadEntries(RenderEntry(entry) + ("}" + rest), fields) == Some(Parsed(Fields(fields + [entry]), rest))
    {
      LastEntry(entry, rest, fields);
    }
  }

  /** The entries from `i` on, the closing brace and what follows. */
  function EntriesFrom(fields: seq<(string, Value)>, i: nat, rest: string): string
    requires AllPlain(fields) && i < |fields|
  {
    RenderEntries(fields[i..]) + ("}" + rest)
  }

  lemma EntriesFromStep(fields: seq<(string, Value)>, i: nat, rest: string)
    requires AllPlain(fields) && i < |fields|
    ensures EntriesFrom(fields, i, rest)
            == if i + 1 == |fields| then RenderEntry(fields[i]) + ("}" + rest)
               else RenderEntry(fields[i]) + (", " + EntriesFrom(fields, i + 1, rest))
  {
    assert fields[i..][1..] == fields[i + 1..];
  }

  lemma EntriesFromStarts(fields: seq<(string, Value)>, i: nat, rest: string)
    requires AllPlain(fields) && Keys(fields) && i < |fields|
    ensures Starts(EntriesFrom(fields, i, rest)) && EntriesFrom(fields, i, rest)[0] != '}'
  {
    EntriesStartWithKey(fields[i..]);
  }

  lemma TakesOne(read: Reader, entry: (string, Value), next: string, fields: seq<(string, Value)>)
    requires TakesEntries(read) && Enters(entry, fields) && Starts(next) && next[0] != '}'
    ensures read(RenderEntry(entry) + (", " + next), fields) == read(next, fields + [entry])
  {}

  lemma TakesLast(read: Reader, entry: (string, Value), rest: string, fields: seq<(string, Value)>)
    requires TakesEntries(read) && Enters(entry, fields)
    ensures read(RenderEntry(entry) + ("}" + rest), fields) == Some(Parsed(Fields(fields + [entry]), rest))
  {}

  lemma EntersNext(fields: seq<(string, Value)>, i: nat)
    requires AllPlain(fields) && Keys(fields) && i < |fields|
    ensures Enters(fields[i], fields[..i])
  {}

  /** The entries from `i` on, read after the first `i`. */
  lemma {:induction false} EntriesReadBack(read: Reader, fields: seq<(string, Value)>, i: nat, rest: string)
    requires TakesEntries(read) && AllPlain(fields) && Keys(fields) && i < |fields|
    ensures read(EntriesFrom(fields, i, rest), fields[..i]) == Some(Parsed(Fields(fields), rest))
    decreases |fields| - i
  {
    EntriesFromStep(fields, i, rest);
    EntersNext(fields, i);
    OneFurther(fields, i);
    if i + 1 == |fields| {
      TakesLast(read, fields[i], rest, fields[..i]);
      assert fields[..i + 1] == fields;
    } else {
      EntriesFromStarts(fields, i + 1, rest);
      TakesOne(read, fields[i], EntriesFrom(fields, i + 1, rest), fields[..i]);
      EntriesReadBack(read, fields, i + 1, rest);
    }
  }

  /** Parsing a rendered mapping gives the mapping back. */
  lemma MappingReadsBack(fields: seq<(string, Value)>, rest: string)
    requires AllPlain(fields) && Keys(fields)
    ensures ReadValue(RenderMapping(fields) + rest) == Some(Parsed(Fields(fields), rest))
    ensures Parse(RenderMapping(fields)) == Some(Fields(fields))
  {
    hide ReadValue, RenderMapping, LeftStrip;
    MappingReads(fields, rest);
    MappingReads(fields, "");
    assert RenderMapping(fields) + "" == RenderMapping(fields);
  }

  lemma MappingReads(fields: seq<(string, Value)>, rest: string)
    requires AllPlain(fields) && Keys(fields)
    ensures ReadValue(RenderMapping(fields) + rest) == Some(Parsed(Fields(fields), rest))
  {
    var inner := RenderEntries(fields) + ("}" + rest);
    assert RenderMapping(fields) + rest == "{" + inner;
    ReadsAsMapping(inner);
    MappingBodyReads(fields, rest);
  }

  lemma MappingBodyReads(fields: seq<(string, Value)>, rest: string)
    requires AllPlain(fields) && Keys(fields)
    ensures ReadMapping(RenderEntries(fields) + ("}" + rest)) == Some(Parsed(Fields(fields), rest))
  {
    var inner := RenderEntries(fields) + ("}" + rest);
    if fields == [] {
      assert inner == "}" + rest && inner[1..] == rest;
      StartsStrips(inner);
    } else {
      EntriesStartWithKey(fields);
      OpensEntries(inner);
      ReadEntriesTakesEntries();
      assert fields[0..] == fields && fields[..0] == [];
      assert inner == EntriesFrom(fields, 0, rest);
      EntriesReadBack((s, fs) => ReadEntries(s, fs), fields, 0, rest);
    }
  }

  lemma OpensEntries(inner: string)
    requires Starts(inner) && inner[0] != '}'
    ensures ReadMapping(inner) == ReadEntries(inner, [])
  {
    assert LeftStrip(inner) == inner;
  }

  // ---------------------------------------------------------------------
  // Cut short
  // ---------------------------------------------------------------------

  /** The entries before `k`, each with its comma, then entry `k` begun: its key and an opened quote. */
  function CutEntries(fields: seq<(string, Value)>, i: nat, k: nat, cut: string): string
    requires AllPlain(fields) && i <= k < |fields|
    decreases k - i
  {
    if i == k then fields[k].0 + (": " + ("\"" + cut))
    else RenderEntry(fields[i]) + (", " + CutEntries(fields, i + 1, k, cut))
  }

  lemma CutStartsWithKey(fields: seq<(string, Value)>, i: nat, k: nat, cut: string)
    requires AllPlain(fields) && Keys(fields) && i <= k < |fields|
    ensures var s := CutEntries(fields, i, k, cut); Starts(s) && s[0] != '}'
  {
    assert Identifier(fields[i].0);
  }

  lemma CutEntryFails(key: string, cut: string, fields: seq<(string, Value)>)
    requires Identifier(key) && !HasKey(fields, key) && DecodeBody(cut).None?
    ensures ReadEntries(key + (": " + ("\"" + cut)), fields).None?
  {
    var quoted := "\"" + cut;
    CutValueFails(cut);
    EntryKeyReads(key, quoted, fields);
    StopsAtValue(key + (": " + quoted), fields, key, " " + quoted);
  }

  lemma CutValueFails(cut: string)
    requires DecodeBody(cut).None?
    ensures ReadValue(" " + ("\"" + cut)).None?
  {
    SkipOneSpace("\"" + cut);
    CutQuoteFails(cut);
  }

  lemma CutQuoteFails(cut: string)
    requires DecodeBody(cut).None?
    ensures ReadValue("\"" + cut).None?
  {
    var quoted := "\"" + cut;
    StartsStrips(quoted);
    assert quoted[1..] == cut;
    ReadsAsQuoted(quoted);
  }

  lemma StopsAtValue(s: string, fields: seq<(string, Value)>, key: string, afterKey: string)
    requires ReadEntryKey(s, fields) == Some(Parsed(key, afterKey)) && ReadValue(afterKey).None?
    ensures ReadEntries(s, fields).None?
  {}

  lemma {:induction false} CutEntriesFail(read: Reader, fields: seq<(string, Value)>, i: nat, k: nat, cut: string)
    requires TakesEntries(read) && AllPlain(fields) && Keys(fields) && i <= k < |fields|
    requires read(CutEntries(fields, k, k, cut), fields[..k]).None?
    ensures read(CutEntries(fields, i, k, cut), fields[..i]).None?
    decreases k - i
  {
    if i < k {
      EntersNext(fields, i);
      OneFurther(fields, i);
      CutStartsWithKey(fields, i + 1, k, cut);
      TakesOne(read, fields[i], CutEntries(fields, i + 1, k, cut), fields[..i]);
      CutEntriesFail(read, fields, i + 1, k, cut);
    }
  }

  /** A mapping that stops inside a quoted text is not a value. */
  lemma CutMappingFails(fields: seq<(string, Value)>, k: nat, cut: string)
    requires AllPlain(fields) && Keys(fields) && k < |fields| && DecodeBody(cut).None?
    ensures Parse("{" + CutEntries(fields, 0, k, cut)).None?
  {
    var inner := CutEntries(fields, 0, k, cut);
    ReadsAsMapping(inner);
    CutBodyFails(fields, k, cut);
  }

  lemma CutBodyFails(fields: seq<(string, Value)>, k: nat, cut: string)
    requires AllPlain(fields) && Keys(fields) && k < |fields| && DecodeBody(cut).None?
    ensures ReadMapping(CutEntries(fields, 0, k, cut)).None?
  {
    CutStartsWithKey(fields, 0, k, cut);
    OpensEntries(CutEntries(fields, 0, k, cut));
    FreshKey(fields, k);
    CutEntryFails(fields[k].0, cut, fields[..k]);
    ReadEntriesTakesEntries();
    assert fields[..0] == [];
    CutEntriesFail((s, fs) => ReadEntries(s, fs), fields, 0, k, cut);
  }
}
