/** A reader for the canonical text. It is not part of the program: it is the witness that
    the text can be read in one way only. */
module StableJsonReader {
  import opened StableJson

  datatype Parsed<+T> = Fail | Read(value: T, rest: string)

  lemma Assoc(a: string, b: string, c: string)
    ensures (a + b) + c == a + (b + c)
  {
  }

  // ----- strings

  function HexValue(c: char): int {
    if '0' <= c <= '9' then c as int - '0' as int
    else if 'a' <= c <= 'f' then c as int - 'a' as int + 10
    else -1
  }

  function ReadEscape(t: string): (r: Parsed<char>)
    ensures r.Read? ==> |r.rest| < |t|
  {
    if t == "" then Fail
    else if t[0] == '\"' || t[0] == '\\' then Read(t[0], t[1..])
    else if t[0] == 'b' then Read('\U{08}', t[1..])
    else if t[0] == 'f' then Read('\U{0C}', t[1..])
    else if t[0] == 'n' then Read('\n', t[1..])
    else if t[0] == 'r' then Read('\r', t[1..])
    else if t[0] == 't' then Read('\t', t[1..])
    else if |t| >= 5 && t[0] == 'u' && t[1] == '0' && t[2] == '0' && HexValue(t[3]) >= 0 && HexValue(t[4]) >= 0 then
      Read((16 * HexValue(t[3]) + HexValue(t[4])) as char, t[5..])
    else Fail
  }

  function ReadChar(t: string): (r: Parsed<char>)
    ensures r.Read? ==> |r.rest| < |t|
  {
    if t == "" then Fail
    else if t[0] == '\\' then ReadEscape(t[1..])
    else Read(t[0], t[1..])
  }

  /** The rest of a string literal whose opening quote has been read. */
  function ReadString(t: string): (r: Parsed<string>)
    ensures r.Read? ==> |r.rest| < |t|
    decreases |t|
  {
    if t == "" then Fail
    else if t[0] == '\"' then Read("", t[1..])
    else match ReadChar(t)
      case Fail => Fail
      case Read(c, rest) => match ReadString(rest)
        case Fail => Fail
        case Read(s, rest') => Read([c] + s, rest')
  }

  lemma {:induction false} ReadHexDigit(d: nat)
    requires d < 16
    ensures HexValue(HexDigit(d)) == d
  {
    var digits := "0123456789abcdef";
    assert digits[d] == HexDigit(d);
    if d < 10 {
      assert digits[..10] == "0123456789";
    }
  }

  lemma {:induction false} ReadUnicodeEscape(d: nat, rest: string)
    requires d < 32
    ensures ReadEscape("u00" + [HexDigit(d / 16), HexDigit(d % 16)] + rest) == Read(d as char, rest)
  {
    var high, low := HexDigit(d / 16), HexDigit(d % 16);
    var t := "u00" + [high, low] + rest;
    ReadHexDigit(d / 16);
    ReadHexDigit(d % 16);
    assert t[5..] == rest;
  }

  lemma {:induction false} ReadEscapedChar(c: char, rest: string)
    ensures ReadChar(EscapeChar(c) + rest) == Read(c, rest)
    ensures EscapeChar(c)[0] != '\"'
  {
    var e := EscapeChar(c);
    var t := e + rest;
    if |e| == 1 {
      assert t[1..] == rest;
    } else if |e| == 2 {
      assert t[1..] == [e[1]] + rest;
      assert ([e[1]] + rest)[1..] == rest;
    } else {
      var d := c as int;
      assert t[1..] == "u00" + [HexDigit(d / 16), HexDigit(d % 16)] + rest;
      ReadUnicodeEscape(d, rest);
    }
  }

  lemma {:induction false} ReadEscaped(s: string, rest: string)
    ensures ReadString(Escape(s) + "\"" + rest) == Read(s, rest)
  {
    if s == "" {
      assert (Escape(s) + "\"" + rest)[1..] == rest;
    } else {
      var tail := Escape(s[1..]) + "\"" + rest;
      Assoc(EscapeChar(s[0]), Escape(s[1..]), "\"");
      Assoc(EscapeChar(s[0]), Escape(s[1..]) + "\"", rest);
      ReadEscapedChar(s[0], tail);
      ReadEscaped(s[1..], rest);
      assert [s[0]] + s[1..] == s;
    }
  }

  // ----- numbers

  function NumberLength(t: string): (n: nat)
    ensures n <= |t|
  {
    if t == "" || !IsNumberChar(t[0]) then 0 else 1 + NumberLength(t[1..])
  }

  lemma {:induction false} NumberLengthIsMaximal(t: string)
    ensures forall i | 0 <= i < NumberLength(t) :: IsNumberChar(t[i])
    ensures NumberLength(t) < |t| ==> !IsNumberChar(t[NumberLength(t)])
  {
    if t != "" && IsNumberChar(t[0]) {
      NumberLengthIsMaximal(t[1..]);
      forall i | 0 <= i < NumberLength(t) ensures IsNumberChar(t[i]) {
        if i > 0 { assert t[i] == t[1..][i - 1]; }
      }
    }
  }

  // ----- values

  predicate StartsWith(t: string, c: char) {
    |t| > 0 && t[0] == c
  }

  function ReadNumber(t: string): (r: Parsed<Json>)
    ensures r.Read? ==> |r.rest| < |t|
  {
    NumberLengthIsMaximal(t);
    var n := NumberLength(t);
    if n > 0 && IsNumberToken(t[..n]) then Read(Number(t[..n]), t[n..]) else Fail
  }

  function ReadWord(t: string, word: string, v: Json): (r: Parsed<Json>)
    requires word != ""
    ensures r.Read? ==> |r.rest| < |t|
  {
    if word <= t then Read(v, t[|word|..]) else Fail
  }

  function ReadValue(t: string): (r: Parsed<Json>)
    ensures r.Read? ==> |r.rest| < |t|
    decreases |t|, 0
  {
    if t == "" then Fail
    else if t[0] == 'n' then ReadWord(t, "null", Null)
    else if t[0] == 't' then ReadWord(t, "true", Bool(true))
    else if t[0] == 'f' then ReadWord(t, "false", Bool(false))
    else if t[0] == 'u' then ReadWord(t, "undefined", Undefined)
    else if t[0] == '\"' then
      match ReadString(t[1..])
      case Fail => Fail
      case Read(s, rest) => Read(Str(s), rest)
    else if t[0] == '[' then
      if StartsWith(t[1..], ']') then Read(Arr([]), t[2..])
      else match ReadItems(t[1..])
        case Fail => Fail
        case Read(items, rest) => Read(Arr(items), rest)
    else if t[0] == '{' then
      if StartsWith(t[1..], '}') then Read(Obj([]), t[2..])
      else match ReadEntries(t[1..])
        case Fail => Fail
        case Read(entries, rest) => Read(Obj(entries), rest)
    else ReadNumber(t)
  }

  /** An element of an array; no text at all is an undefined element. */
  function ReadItem(t: string): (r: Parsed<Json>)
    ensures r.Read? ==> |r.rest| <= |t|
    decreases |t|, 1
  {
    if StartsWith(t, ',') || StartsWith(t, ']') then Read(Undefined, t) else ReadValue(t)
  }

  function ReadItems(t: string): (r: Parsed<seq<Json>>)
    ensures r.Read? ==> |r.rest| < |t|
    decreases |t|, 2
  {
    match ReadItem(t)
    case Fail => Fail
    case Read(v, rest) =>
      if StartsWith(rest, ']') then Read([v], rest[1..])
      else if StartsWith(rest, ',') then
        match ReadItems(rest[1..])
        case Fail => Fail
        case Read(vs, rest') => Read([v] + vs, rest')
      else Fail
  }

  function ReadEntry(t: string): (r: Parsed<Entry>)
    ensures r.Read? ==> |r.rest| < |t|
    decreases |t|, 1
  {
    if !StartsWith(t, '\"') then Fail
    else match ReadString(t[1..])
      case Fail => Fail
      case Read(key, rest) =>
        if !StartsWith(rest, ':') then Fail
        else match ReadValue(rest[1..])
          case Fail => Fail
          case Read(v, rest') => Read(Entry(key, v), rest')
  }

  function ReadEntries(t: string): (r: Parsed<seq<Entry>>)
    ensures r.Read? ==> |r.rest| < |t|
    decreases |t|, 2
  {
    match ReadEntry(t)
    case Fail => Fail
    case Read(e, rest) =>
      if StartsWith(rest, '}') then Read([e], rest[1..])
      else if StartsWith(rest, ',') then
        match ReadEntries(rest[1..])
        case Fail => Fail
        case Read(es, rest') => Read([e] + es, rest')
      else Fail
  }

  // ----- what reading gives back

  /** The one thing the text does not record: `[undefined]` prints as `[]`. */
  function Erase(v: Json): Json
    decreases v, 0
  {
    match v
    case Arr(items) => if items == [Undefined] then Arr([]) else Arr(EraseItems(items))
    case Obj(entries) => Obj(EraseEntries(entries))
    case _ => v
  }

  function EraseItems(items: seq<Json>): (r: seq<Json>)
    ensures |r| == |items|
    ensures forall i | 0 <= i < |items| :: r[i] == Erase(items[i])
    decreases items, 1
  {
    if items == [] then [] else [Erase(items[0])] + EraseItems(items[1..])
  }

  function EraseEntries(entries: seq<Entry>): (r: seq<Entry>)
    ensures |r| == |entries|
    ensures forall i | 0 <= i < |entries| :: r[i] == Entry(entries[i].key, Erase(entries[i].value))
    decreases entries, 1
  {
    if entries == [] then []
    else [Entry(entries[0].key, Erase(entries[0].value))] + EraseEntries(entries[1..])
  }

  /** A following text that cannot be taken for the rest of the value's last token. */
  predicate CannotExtend(v: Json, rest: string) {
    v.Number? && |rest| > 0 ==> !IsNumberChar(rest[0])
  }

  lemma {:induction false} ReadNumberBack(token: NumberToken, rest: string)
    requires |rest| > 0 ==> !IsNumberChar(rest[0])
    ensures ReadValue(token + rest) == Read(Number(token), rest)
  {
    var t := token + rest;
    NumberLengthIsMaximal(t);
    var n := NumberLength(t);
    assert forall i | 0 <= i < |token| :: t[i] == token[i];
    assert |rest| > 0 ==> t[|token|] == rest[0];
    assert n == |token|;
    assert t[..n] == token && t[n..] == rest;
    assert t[0] == token[0];
  }

  lemma {:induction false} FirstOfPrint(v: Json)
    requires !v.Undefined?
    ensures |Print(v)| > 0
    ensures Print(v)[0] != ',' && Print(v)[0] != ']' && Print(v)[0] != '}'
  {
  }

  lemma {:induction false} ReadPrintedWord(v: Json, rest: string)
    requires v.Undefined? || v.Null? || v.Bool?
    ensures ReadValue(Print(v) + rest) == Read(v, rest)
  {
    var t := Print(v) + rest;
    assert t[0] == Print(v)[0];
    assert Print(v) <= t && t[|Print(v)|..] == rest;
  }

  lemma {:induction false} ReadPrintedString(s: string, rest: string)
    ensures ReadValue(Quote(s) + rest) == Read(Str(s), rest)
  {
    var t := Quote(s) + rest;
    assert t[0] == '\"';
    assert t[1..] == Escape(s) + "\"" + rest;
    ReadEscaped(s, rest);
  }

  lemma {:induction false} ReadPrinted(v: Json, rest: string)
    requires CannotExtend(v, rest)
    ensures ReadValue(Print(v) + rest) == Read(Erase(v), rest)
    decreases v, 0
  {
    match v
    case Number(token) => ReadNumberBack(token, rest);
    case Str(s) => ReadPrintedString(s, rest);
    case Arr(items) =>
      if items != [] && items != [Undefined] { ReadPrintedItems(items, rest); }
      ReadPrintedArray(items, rest);
    case Obj(entries) =>
      if entries != [] { ReadPrintedEntries(entries, rest); }
      ReadPrintedObject(entries, rest);
    case _ => ReadPrintedWord(v, rest);
  }

  lemma {:induction false} ReadPrintedArray(items: seq<Json>, rest: string)
    requires items != [] && items != [Undefined] ==>
               ReadItems(PrintItems(items) + "]" + rest) == Read(EraseItems(items), rest)
    ensures ReadValue("[" + PrintItems(items) + "]" + rest) == Read(Erase(Arr(items)), rest)
  {
    var t := "[" + PrintItems(items) + "]" + rest;
    assert t[0] == '[' && t[1..] == PrintItems(items) + "]" + rest;
    if PrintItems(items) == "" {
      EmptyItems(items);
      assert t[2..] == rest;
    } else {
      PrintedItemsStart(items);
      assert t[1..][0] == PrintItems(items)[0];
    }
  }

  lemma {:induction false} ReadPrintedObject(entries: seq<Entry>, rest: string)
    requires entries != [] ==> ReadEntries(PrintEntries(entries) + "}" + rest) == Read(EraseEntries(entries), rest)
    ensures ReadValue("{" + PrintEntries(entries) + "}" + rest) == Read(Erase(Obj(entries)), rest)
  {
    var t := "{" + PrintEntries(entries) + "}" + rest;
    assert t[0] == '{' && t[1..] == PrintEntries(entries) + "}" + rest;
    if entries == [] {
      assert t[2..] == rest;
    } else {
      assert t[1..][0] == '\"';
    }
  }

  lemma {:induction false} EmptyItems(items: seq<Json>)
    requires PrintItems(items) == ""
    ensures items == [] || items == [Undefined]
  {
    if items != [] {
      if !items[0].Undefined? { FirstOfPrint(items[0]); }
      assert |items| == 1;
      assert items == [items[0]];
    }
  }

  lemma {:induction false} PrintedItemsStart(items: seq<Json>)
    requires PrintItems(items) != ""
    ensures PrintItems(items)[0] != ']'
    ensures items != [] && items != [Undefined]
  {
    if !items[0].Undefined? {
      FirstOfPrint(items[0]);
      assert PrintItems(items)[0] == Print(items[0])[0];
    }
  }

  lemma {:induction false} ReadPrintedItem(v: Json, rest: string)
    requires StartsWith(rest, ',') || StartsWith(rest, ']')
    ensures ReadItem(ItemText(v) + rest) == Read(Erase(v), rest)
    decreases v, 1
  {
    if v.Undefined? {
      assert "" + rest == rest;
    } else {
      FirstOfPrint(v);
      var t := Print(v) + rest;
      assert t[0] == Print(v)[0];
      ReadPrinted(v, rest);
    }
  }

  function ItemText(v: Json): string {
    if v.Undefined? then "" else Print(v)
  }

  lemma {:induction false} PrintedItemsSplit(items: seq<Json>, rest: string)
    requires items != []
    ensures |items| == 1 ==> PrintItems(items) + "]" + rest == ItemText(items[0]) + ("]" + rest)
    ensures |items| > 1 ==> PrintItems(items) + "]" + rest ==
                            ItemText(items[0]) + ("," + (PrintItems(items[1..]) + "]" + rest))
  {
    if |items| > 1 {
      var first, others := ItemText(items[0]), PrintItems(items[1..]);
      Assoc(first + ",", others, "]");
      Assoc(first + ",", others + "]", rest);
      Assoc(first, ",", others + "]" + rest);
    } else {
      Assoc(PrintItems(items), "]", rest);
    }
  }

  lemma {:induction false} ReadOnlyItem(v: Json, rest: string)
    requires ReadItem(ItemText(v) + ("]" + rest)) == Read(Erase(v), "]" + rest)
    ensures ReadItems(ItemText(v) + ("]" + rest)) == Read([Erase(v)], rest)
  {
    assert ("]" + rest)[1..] == rest;
  }

  lemma {:induction false} ReadItemsStep(v: Json, tail: string)
    requires ReadItem(ItemText(v) + ("," + tail)) == Read(Erase(v), "," + tail)
    requires ReadItems(tail).Read?
    ensures ReadItems(ItemText(v) + ("," + tail)) == Read([Erase(v)] + ReadItems(tail).value, ReadItems(tail).rest)
  {
    assert ("," + tail)[1..] == tail;
  }

  lemma {:induction false} ReadPrintedItems(items: seq<Json>, rest: string)
    requires items != []
    ensures ReadItems(PrintItems(items) + "]" + rest) == Read(EraseItems(items), rest)
    decreases items, 1
  {
    PrintedItemsSplit(items, rest);
    var v := items[0];
    if |items| == 1 {
      ReadPrintedItem(v, "]" + rest);
      ReadOnlyItem(v, rest);
      assert EraseItems(items) == [Erase(v)];
    } else {
      var tail := PrintItems(items[1..]) + "]" + rest;
      ReadPrintedItems(items[1..], rest);
      ReadPrintedItem(v, "," + tail);
      ReadItemsStep(v, tail);
    }
  }

  lemma {:induction false} ReadPrintedKey(key: string, tail: string)
    ensures StartsWith(Quote(key) + tail, '\"')
    ensures ReadString((Quote(key) + tail)[1..]) == Read(key, tail)
  {
    assert (Quote(key) + tail)[1..] == Escape(key) + "\"" + tail;
    ReadEscaped(key, tail);
  }

  lemma {:induction false} PrintedEntrySplit(e: Entry, rest: string)
    ensures PrintEntry(e) + rest == Quote(e.key) + (":" + (Print(e.value) + rest))
  {
    var key, text := Quote(e.key), Print(e.value);
    Assoc(key + ":", text, rest);
    Assoc(key, ":", text + rest);
  }

  lemma {:induction false} ReadPrintedEntry(e: Entry, rest: string)
    requires StartsWith(rest, ',') || StartsWith(rest, '}')
    ensures ReadEntry(PrintEntry(e) + rest) == Read(Entry(e.key, Erase(e.value)), rest)
    decreases e, 1
  {
    var text := Print(e.value) + rest;
    ReadPrintedKey(e.key, ":" + text);
    PrintedEntrySplit(e, rest);
    assert (":" + text)[1..] == text;
    ReadPrinted(e.value, rest);
  }

  /** One entry of an object, and the reading of what follows its comma. */
  lemma {:induction false} ReadEntriesStep(e: Entry, tail: string)
    requires ReadEntry(PrintEntry(e) + ("," + tail)) == Read(Entry(e.key, Erase(e.value)), "," + tail)
    requires ReadEntries(tail).Read?
    ensures ReadEntries(PrintEntry(e) + ("," + tail)) ==
            Read([Entry(e.key, Erase(e.value))] + ReadEntries(tail).value, ReadEntries(tail).rest)
  {
    assert ("," + tail)[1..] == tail;
  }

  lemma {:induction false} ReadOnlyEntry(e: Entry, rest: string)
    requires ReadEntry(PrintEntry(e) + ("}" + rest)) == Read(Entry(e.key, Erase(e.value)), "}" + rest)
    ensures ReadEntries(PrintEntry(e) + ("}" + rest)) == Read([Entry(e.key, Erase(e.value))], rest)
  {
    assert ("}" + rest)[1..] == rest;
  }

  lemma {:induction false} PrintedEntriesSplit(entries: seq<Entry>, rest: string)
    requires entries != []
    ensures |entries| == 1 ==> PrintEntries(entries) + "}" + rest == PrintEntry(entries[0]) + ("}" + rest)
    ensures |entries| > 1 ==> PrintEntries(entries) + "}" + rest ==
                              PrintEntry(entries[0]) + ("," + (PrintEntries(entries[1..]) + "}" + rest))
  {
    if |entries| > 1 {
      var first, others := PrintEntry(entries[0]), PrintEntries(entries[1..]);
      Assoc(first + ",", others, "}");
      Assoc(first + ",", others + "}", rest);
      Assoc(first, ",", others + "}" + rest);
    } else {
      Assoc(PrintEntries(entries), "}", rest);
    }
  }

  lemma {:induction false} ReadPrintedEntries(entries: seq<Entry>, rest: string)
    requires entries != []
    ensures ReadEntries(PrintEntries(entries) + "}" + rest) == Read(EraseEntries(entries), rest)
    decreases entries, 1
  {
    PrintedEntriesSplit(entries, rest);
    var e := entries[0];
    if |entries| == 1 {
      ReadPrintedEntry(e, "}" + rest);
      ReadOnlyEntry(e, rest);
      assert EraseEntries(entries) == [Entry(e.key, Erase(e.value))];
    } else {
      var tail := PrintEntries(entries[1..]) + "}" + rest;
      ReadPrintedEntries(entries[1..], rest);
      ReadPrintedEntry(e, "," + tail);
      ReadEntriesStep(e, tail);
    }
  }
}
