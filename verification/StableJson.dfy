/** The canonical JSON text that render fingerprints hash (`stableStringify`), a reader for
    it, and what two values with the same text have in common.

    A number is held as its JSON token, since only its text matters here. `Undefined` is in
    the type because the printer accepts it: inside an object it prints the word `undefined`,
    inside an array `join` turns it into nothing. */
module StableJson {
  import opened Sorting

  datatype Json =
    | Undefined
    | Null
    | Bool(b: bool)
    | Number(token: NumberToken)
    | Str(s: string)
    | Arr(items: seq<Json>)
    | Obj(entries: seq<Entry>)

  datatype Entry = Entry(key: string, value: Json)

  type NumberToken = t: string | IsNumberToken(t) witness "0"

  predicate IsNumberChar(c: char) {
    '0' <= c <= '9' || c == '-' || c == '+' || c == '.' || c == 'e'
  }

  predicate IsNumberToken(t: string) {
    |t| > 0 && ('0' <= t[0] <= '9' || t[0] == '-') && forall i | 0 <= i < |t| :: IsNumberChar(t[i])
  }

  // ----- strings, as JSON.stringify quotes them

  function HexDigit(d: nat): char
    requires d < 16
  {
    "0123456789abcdef"[d]
  }

  function EscapeChar(c: char): string {
    if c == '\"' then "\\\""
    else if c == '\\' then "\\\\"
    else if c == '\U{08}' then "\\b"
    else if c == '\U{0C}' then "\\f"
    else if c == '\n' then "\\n"
    else if c == '\r' then "\\r"
    else if c == '\t' then "\\t"
    else if c < ' ' then "\\u00" + [HexDigit(c as int / 16), HexDigit(c as int % 16)]
    else [c]
  }

  function Escape(s: string): string {
    if s == "" then "" else EscapeChar(s[0]) + Escape(s[1..])
  }

  function Quote(s: string): string {
    "\"" + Escape(s) + "\""
  }

  // ----- the printer

  function Print(v: Json): string
    decreases v, 0
  {
    match v
    case Undefined => "undefined"
    case Null => "null"
    case Bool(b) => if b then "true" else "false"
    case Number(t) => t
    case Str(s) => Quote(s)
    case Arr(items) => "[" + PrintItems(items) + "]"
    case Obj(entries) => "{" + PrintEntries(entries) + "}"
  }

  /** `[...].join(',')`, where an undefined element contributes no text. */
  function PrintItems(items: seq<Json>): string
    decreases items, 1
  {
    if items == [] then ""
    else
      var first := if items[0].Undefined? then "" else Print(items[0]);
      if |items| == 1 then first else first + "," + PrintItems(items[1..])
  }

  function PrintEntry(e: Entry): string
    decreases e, 1
  {
    Quote(e.key) + ":" + Print(e.value)
  }

  function PrintEntries(entries: seq<Entry>): string
    decreases entries, 1
  {
    if entries == [] then ""
    else if |entries| == 1 then PrintEntry(entries[0])
    else PrintEntry(entries[0]) + "," + PrintEntries(entries[1..])
  }

  // ----- key order

  /** The comparator handed to `sort`: the collation's verdict on the keys alone. */
  function ByKey(le: (string, string) -> bool): (Entry, Entry) -> bool {
    (a: Entry, b: Entry) => le(a.key, b.key)
  }

  /** The value with the entries of every object in the order the printer visits them. */
  function Canonical(le: (string, string) -> bool, v: Json): Json
    decreases v, 0
  {
    match v
    case Arr(items) => Arr(CanonicalItems(le, items))
    case Obj(entries) => Obj(StableSort(ByKey(le), CanonicalEntries(le, entries)))
    case _ => v
  }

  function CanonicalItems(le: (string, string) -> bool, items: seq<Json>): (r: seq<Json>)
    ensures |r| == |items|
    ensures forall i | 0 <= i < |items| :: r[i] == Canonical(le, items[i])
    decreases items, 1
  {
    if items == [] then [] else [Canonical(le, items[0])] + CanonicalItems(le, items[1..])
  }

  function CanonicalEntries(le: (string, string) -> bool, entries: seq<Entry>): (r: seq<Entry>)
    ensures |r| == |entries|
    ensures forall i | 0 <= i < |entries| :: r[i] == Entry(entries[i].key, Canonical(le, entries[i].value))
    decreases entries, 1
  {
    if entries == [] then []
    else [Entry(entries[0].key, Canonical(le, entries[0].value))] + CanonicalEntries(le, entries[1..])
  }

  /** `stableStringify`, with `le(a, b)` standing for `a.localeCompare(b) <= 0`. */
  function StableStringify(le: (string, string) -> bool, v: Json): string {
    Print(Canonical(le, v))
  }
}
