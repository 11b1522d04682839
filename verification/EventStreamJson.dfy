/** What the API really sends: the data of a frame is the JSON text of a value. Such a text is
    always readable, so values survive the stream under any clean event name. */
module EventStreamJson {
  import opened EventStream
  import opened EventStreamRoundTrip
  import J = StableJson
  import R = StableJsonReader

  lemma PlainConcat(a: string, b: string)
    requires Plain(a) && Plain(b)
    ensures Plain(a + b)
  {
  }

  lemma {:induction false} EscapePlain(s: string)
    ensures Plain(J.Escape(s))
  {
    if s != "" {
      EscapePlain(s[1..]);
      PlainConcat(J.EscapeChar(s[0]), J.Escape(s[1..]));
    }
  }

  lemma QuotePlain(s: string)
    ensures Plain(J.Quote(s))
  {
    EscapePlain(s);
    PlainConcat("\"" + J.Escape(s), "\"");
  }

  /** A printed value has no line break. */
  lemma {:induction false} PrintPlain(v: J.Json)
    ensures Plain(J.Print(v))
    decreases v, 0
  {
    match v
    case Str(s) => QuotePlain(s);
    case Arr(items) => ItemsPlain(items);
    case Obj(entries) => EntriesPlain(entries);
    case _ =>
  }

  lemma {:induction false} ItemsPlain(items: seq<J.Json>)
    ensures Plain(J.PrintItems(items))
    decreases items, 1
  {
    if items != [] {
      var first := if items[0].Undefined? then "" else J.Print(items[0]);
      PrintPlain(items[0]);
      if |items| > 1 {
        ItemsPlain(items[1..]);
        PlainConcat(first + ",", J.PrintItems(items[1..]));
      }
    }
  }

  lemma {:induction false} EntryPlain(e: J.Entry)
    ensures Plain(J.PrintEntry(e))
    decreases e, 1
  {
    QuotePlain(e.key);
    PrintPlain(e.value);
    PlainConcat(J.Quote(e.key) + ":", J.Print(e.value));
  }

  lemma {:induction false} EntriesPlain(entries: seq<J.Entry>)
    ensures Plain(J.PrintEntries(entries))
    decreases entries, 1
  {
    if entries != [] {
      EntryPlain(entries[0]);
      if |entries| > 1 {
        EntriesPlain(entries[1..]);
        PlainConcat(J.PrintEntry(entries[0]) + ",", J.PrintEntries(entries[1..]));
      }
    }
  }

  lemma PrintStarts(v: J.Json)
    ensures J.Print(v) != "" && !WhiteSpace(J.Print(v)[0])
  {
    match v
    case Undefined => assert J.Print(v)[0] == 'u';
    case Null => assert J.Print(v)[0] == 'n';
    case Bool(b) => assert J.Print(v)[0] == if b then 't' else 'f';
    case Number(_) =>
    case Str(s) => assert J.Print(v)[0] == '\"';
    case Arr(_) => assert J.Print(v)[0] == '[';
    case Obj(_) => assert J.Print(v)[0] == '{';
  }

  /** JSON data are readable, under any clean event name. */
  lemma JsonReadable(event: string, v: J.Json)
    requires Plain(event) && Trim(event) == event
    ensures Readable(event, J.Print(v))
  {
    PrintPlain(v);
    PrintStarts(v);
  }

  /** One value sent, or one heartbeat. */
  datatype Sent = Value(event: string, value: J.Json) | Beat(stamp: string)

  function ItemOf(sent: Sent): Item {
    match sent
    case Value(event, value) => Item.Write(event, J.Print(value))
    case Beat(stamp) => Heartbeat(stamp)
  }

  function ItemsOf(sent: seq<Sent>): (r: seq<Item>)
    ensures |r| == |sent| && forall i | 0 <= i < |r| :: r[i] == ItemOf(sent[i])
  {
    seq(|sent|, i requires 0 <= i < |sent| => ItemOf(sent[i]))
  }

  predicate CleanNames(sent: seq<Sent>) {
    forall i | 0 <= i < |sent| ::
      match sent[i]
      case Value(event, _) => Plain(event) && Trim(event) == event
      case Beat(stamp) => Plain(stamp)
  }

  /** The event names and what a reader of JSON makes of the data. */
  function ReadAll(messages: seq<Message>): seq<(string, R.Parsed<J.Json>)> {
    seq(|messages|, i requires 0 <= i < |messages| => (messages[i].event, R.ReadValue(messages[i].data)))
  }

  function ValuesOf(sent: seq<Sent>): seq<(string, R.Parsed<J.Json>)> {
    if sent == [] then []
    else (if sent[0].Value? then [(sent[0].event, R.Read(R.Erase(sent[0].value), ""))] else []) + ValuesOf(sent[1..])
  }

  lemma {:induction false} WrittenValues(sent: seq<Sent>)
    ensures ReadAll(Written(ItemsOf(sent))) == ValuesOf(sent)
  {
    if sent != [] {
      assert ItemsOf(sent)[1..] == ItemsOf(sent[1..]);
      WrittenValues(sent[1..]);
      if sent[0].Value? {
        var message := Message(sent[0].event, J.Print(sent[0].value));
        var more := Written(ItemsOf(sent[1..]));
        R.ReadPrinted(sent[0].value, "");
        assert J.Print(sent[0].value) + "" == message.data;
        assert Written(ItemsOf(sent)) == [message] + more;
        assert ReadAll([message] + more) == [(message.event, R.ReadValue(message.data))] + ReadAll(more);
      } else {
        assert Written(ItemsOf(sent)) == Written(ItemsOf(sent[1..]));
      }
    }
  }

  /** Every value written comes back, in order and up to `undefined` alone in an array, over any
      cutting of the text into chunks. */
  method ValuesRoundTrip(writer: EventWriter, sent: seq<Sent>, chunks: seq<string>) returns (messages: seq<Message>)
    requires writer.Valid() && writer.items == ItemsOf(sent) && CleanNames(sent) && Concat(chunks) == writer.wire
    ensures ReadAll(messages) == ValuesOf(sent)
  {
    forall i | 0 <= i < |sent| ensures Ok(ItemOf(sent[i])) {
      if sent[i].Value? { JsonReadable(sent[i].event, sent[i].value); }
    }
    messages := RoundTrip(writer, chunks);
    WrittenValues(sent);
  }
}
