/**
  `_InlineParser` in its own form: one text and a position that moves along
  it. Each method reads what the function of the same name reads from the
  text still ahead.
 */
module InlineParser {
  import opened Prelude
  import opened Sequences
  import opened PyText
  import opened JsonText
  import opened Inline

  lemma StripsOneSpace(text: string, i: nat)
    requires i < |text| && IsSpace(text[i])
    ensures LeftStrip(text[i..]) == LeftStrip(text[i + 1..])
  {
    hide IsSpace;
    DropOne(text, i);
  }

  lemma StopsStripping(text: string, i: nat)
    requires i <= |text| && (i < |text| ==> !IsSpace(text[i]))
    ensures LeftStrip(text[i..]) == text[i..]
  {
    hide IsSpace;
  }

  class Parser {
    const text: string
    var position: nat

    constructor (text: string)
      ensures this.text == text && Valid() && Rest() == text
    {
      this.text := text;
      position := 0;
    }

    ghost predicate Valid()
      reads this
    {
      position <= |text|
    }

    /** What is still ahead. */
    function Rest(): string
      requires Valid()
      reads this
    {
      text[position..]
    }

    /** Nothing ahead is exactly the position at the end. */
    method Space()
      requires Valid()
      modifies this
      ensures Valid() && Rest() == LeftStrip(old(Rest()))
    {
      hide LeftStrip, IsSpace;
      ghost var goal := LeftStrip(text[position..]);
      while position < |text| && IsSpace(text[position])
        invariant position <= |text| && LeftStrip(text[position..]) == goal
      {
        StripsOneSpace(text, position);
        position := position + 1;
      }
      StopsStripping(text, position);
    }

    method Advance()
      requires Valid() && position < |text|
      modifies this
      ensures Valid() && Rest() == old(Rest())[1..]
    {
      position := position + 1;
    }

    /** On to the first of the stops. */
    method Skim(stops: set<char>)
      requires Valid()
      modifies this
      ensures Valid() && position == old(position) + Until(text[old(position)..], stops)
    {
      ghost var goal := position + Until(text[position..], stops);
      while position < |text| && text[position] !in stops
        invariant Valid() && goal == position + Until(text[position..], stops)
      {
        DropOne(text, position);
        position := position + 1;
      }
    }

    /** The token up to the first of the stops. */
    method Token(stops: set<char>) returns (token: string)
      requires Valid()
      modifies this
      ensures Valid()
      ensures var n := Until(old(Rest()), stops); token == Strip(old(Rest())[..n]) && Rest() == old(Rest())[n..]
    {
      hide Until, Strip;
      var start := position;
      Skim(stops);
      SliceOfDrop(text, start, position);
      token := Strip(text[start..position]);
    }

    /** `_quoted`: the JSON decoder reads a string and says where it ended. */
    method Quotation() returns (r: Option<string>)
      requires Valid()
      modifies this
      ensures Valid()
      ensures match Quoted(old(Rest()))
              case None => r.None?
              case Some(Parsed(s, rest)) => r == Some(s) && Rest() == rest
    {
      var decoded := Quoted(Rest());
      if decoded.None? {
        return None;
      }
      QuotedLeavesSuffix(Rest());
      position := |text| - |decoded.value.rest|;
      r := Some(decoded.value.value);
    }

    method Key() returns (r: Option<string>)
      requires Valid()
      modifies this
      ensures Valid()
      ensures match ReadKey(old(Rest()))
              case None => r.None?
              case Some(Parsed(key, rest)) => r == Some(key) && Rest() == rest
    {
      Space();
      if position >= |text| {
        return None;
      }
      if text[position] == '"' {
        r := Quotation();
        return;
      }
      var key := Token(KEY_STOPS);
      return if Identifier(key) then Some(key) else None;
    }

    /** The key and the colon after it. */
    method EntryKey(fields: seq<(string, Value)>) returns (r: Option<string>)
      requires Valid()
      modifies this
      ensures Valid()
      ensures match ReadEntryKey(old(Rest()), fields)
              case None => r.None?
              case Some(Parsed(key, rest)) => r == Some(key) && Rest() == rest
    {
      r := Key();
      if r.None? {
        return;
      }
      if HasKey(fields, r.value) {
        return None;
      }
      Space();
      if position >= |text| || text[position] != ':' {
        return None;
      }
      Advance();
    }

    /** After an entry or an item: None is wrong, Some(false) the end, Some(true) another to come. */
    method Turn(close: char) returns (r: Option<bool>)
      requires Valid()
      modifies this
      ensures Valid()
      ensures match NextTurn(old(Rest()), close)
              case Wrong => r.None?
              case Closed(rest) => r == Some(false) && Rest() == rest
              case More(rest) => r == Some(true) && Rest() == rest
    {
      hide LeftStrip, IsSpace;
      Space();
      if position >= |text| {
        return None;
      }
      var character := text[position];
      Advance();
      if character == close {
        return Some(false);
      }
      if character != ',' {
        return None;
      }
      Space();
      if position < |text| && text[position] == close {
        return None;
      }
      return Some(true);
    }

    method Bare() returns (r: Option<Value>)
      requires Valid()
      modifies this
      ensures Valid()
      ensures match ReadScalar(old(Rest()))
              case None => r.None?
              case Some(Parsed(v, rest)) => r == Some(v) && Rest() == rest
    {
      var token := Token(VALUE_STOPS);
      r := Scalar(token);
    }

    /** `_value`. */
    method Value() returns (r: Option<Value>)
      requires Valid()
      modifies this
      ensures Valid()
      ensures match ReadValue(old(Rest()))
              case None => r.None?
              case Some(Parsed(v, rest)) => r == Some(v) && Rest() == rest
      decreases |Rest()|, 3
    {
      Space();
      if position >= |text| {
        return None;
      }
      var character := text[position];
      if character == '{' {
        Advance();
        r := Mapping();
      } else if character == '[' {
        Advance();
        r := Sequence();
      } else if character == '"' {
        var quoted := Quotation();
        r := if quoted.None? then None else Some(Text(quoted.value));
      } else {
        r := Bare();
      }
    }

    /** `_mapping`, the brace behind it. */
    method Mapping() returns (r: Option<Value>)
      requires Valid()
      modifies this
      ensures Valid()
      ensures match ReadMapping(old(Rest()))
              case None => r.None?
              case Some(Parsed(v, rest)) => r == Some(v) && Rest() == rest
      decreases |Rest()|, 2
    {
      Space();
      if position < |text| && text[position] == '}' {
        Advance();
        return Some(Fields([]));
      }
      r := EntriesToEnd();
    }

    /** The loop of `_mapping`. */
    method EntriesToEnd() returns (r: Option<Value>)
      requires Valid()
      modifies this
      ensures Valid()
      ensures match ReadEntries(old(Rest()), [])
              case None => r.None?
              case Some(Parsed(v, rest)) => r == Some(v) && Rest() == rest
      decreases |Rest()|, 1
    {
      var fields: seq<(string, Value)> := [];
      ghost var goal := ReadEntries(Rest(), []);
      while true
        invariant Valid() && |Rest()| <= old(|Rest()|)
        invariant ReadEntries(Rest(), fields) == goal
        decreases |Rest()|
      {
        var key := EntryKey(fields);
        if key.None? {
          return None;
        }
        var v := Value();
        if v.None? {
          return None;
        }
        fields := fields + [(key.value, v.value)];
        var turn := Turn('}');
        if turn.None? {
          return None;
        }
        if !turn.value {
          return Some(Fields(fields));
        }
      }
    }

    /** `_sequence`, the bracket behind it. */
    method Sequence() returns (r: Option<Value>)
      requires Valid()
      modifies this
      ensures Valid()
      ensures match ReadSequence(old(Rest()))
              case None => r.None?
              case Some(Parsed(v, rest)) => r == Some(v) && Rest() == rest
      decreases |Rest()|, 5
    {
      Space();
      if position < |text| && text[position] == ']' {
        Advance();
        return Some(Items([]));
      }
      r := ItemsToEnd();
    }

    /** The loop of `_sequence`. */
    method ItemsToEnd() returns (r: Option<Value>)
      requires Valid()
      modifies this
      ensures Valid()
      ensures match ReadItems(old(Rest()), [])
              case None => r.None?
              case Some(Parsed(v, rest)) => r == Some(v) && Rest() == rest
      decreases |Rest()|, 4
    {
      var items: seq<Value> := [];
      ghost var goal := ReadItems(Rest(), []);
      while true
        invariant Valid() && |Rest()| <= old(|Rest()|)
        invariant ReadItems(Rest(), items) == goal
        decreases |Rest()|
      {
        var v := Value();
        if v.None? {
          return None;
        }
        items := items + [v.value];
        var turn := Turn(']');
        if turn.None? {
          return None;
        }
        if !turn.value {
          return Some(Items(items));
        }
      }
    }

    /** `parse`: a value, and nothing but space after it. */
    method Whole() returns (r: Option<Value>)
      requires Valid()
      modifies this
      ensures Valid() && r == Parse(old(Rest()))
    {
      r := Value();
      if r.None? {
        return;
      }
      Space();
      if position != |text| {
        return None;
      }
    }
  }

  predicate IsSuffix(rest: string, s: string) {
    |rest| <= |s| && rest == s[|s| - |rest|..]
  }

  lemma SuffixOfDrop(rest: string, s: string, n: nat)
    requires n <= |s| && IsSuffix(rest, s[n..])
    ensures IsSuffix(rest, s)
  {}

  /** What the decoder leaves is the end of what it was given. */
  lemma {:induction false} DecodeLeavesSuffix(s: string)
    requires DecodeBody(s).Some?
    ensures IsSuffix(DecodeBody(s).value.rest, s)
    decreases |s|
  {
    if s[0] == '"' {
      assert IsSuffix(s[1..], s);
    } else if s[0] != '\\' {
      DecodeLeavesSuffix(s[1..]);
      SuffixOfDrop(DecodeBody(s).value.rest, s, 1);
    } else if s[1] == 'u' {
      UnicodeLeavesSuffix(s[2..]);
      var rest := UnicodeEscape(s[2..]).value.rest;
      var n := |s| - |rest|;
      assert rest == s[n..];
      DecodeLeavesSuffix(rest);
      SuffixOfDrop(DecodeBody(s).value.rest, s, n);
    } else {
      DecodeLeavesSuffix(s[2..]);
      SuffixOfDrop(DecodeBody(s).value.rest, s, 2);
    }
  }

  lemma UnicodeLeavesSuffix(s: string)
    requires UnicodeEscape(s).Some?
    ensures IsSuffix(UnicodeEscape(s).value.rest, s)
  {}

  lemma QuotedLeavesSuffix(s: string)
    requires Quoted(s).Some?
    ensures IsSuffix(Quoted(s).value.rest, s)
  {
    DecodeLeavesSuffix(s[1..]);
    SuffixOfDrop(Quoted(s).value.rest, s, 1);
  }

  /** `_InlineParser(text).parse()`. */
  method ParseInline(text: string) returns (r: Option<Value>)
    ensures r == Parse(text)
  {
    var parser := new Parser(text);
    r := parser.Whole();
  }
}
