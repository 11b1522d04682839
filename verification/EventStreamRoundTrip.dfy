/** Reading what the server wrote: heartbeats disappear, every message comes back, however
    the text was cut; and for one frame, exactly which events and data survive. */
module EventStreamRoundTrip {
  import opened Common
  import opened EventStream

  datatype Item = Write(event: string, data: string) | Heartbeat(stamp: string)

  function Body(item: Item): string {
    match item
    case Write(event, data) => "event: " + event + "\n" + ("data: " + data)
    case Heartbeat(stamp) => ": heartbeat " + stamp
  }

  function Frame(item: Item): string {
    Body(item) + BOUNDARY
  }

  function Wire(items: seq<Item>): string {
    if items == [] then [] else Frame(items[0]) + Wire(items[1..])
  }

  /** One response: `wire` is what went out before the connection closed. */
  class EventWriter {
    var closed: bool
    var wire: string
    ghost var items: seq<Item>

    ghost predicate Valid()
      reads this
    {
      wire == Wire(items)
    }

    constructor ()
      ensures Valid() && !closed && items == []
    {
      closed, wire, items := false, [], [];
    }

    method Write(event: string, data: string)
      requires Valid()
      modifies this`wire, this`items
      ensures Valid()
      ensures items == if closed then old(items) else old(items) + [Item.Write(event, data)]
    {
      if closed { return; }
      WireSnoc(items, Item.Write(event, data));
      wire := wire + ("event: " + event + "\n" + ("data: " + data) + "\n\n");
      items := items + [Item.Write(event, data)];
    }

    method Beat(stamp: string)
      requires Valid()
      modifies this`wire, this`items
      ensures Valid()
      ensures items == if closed then old(items) else old(items) + [Heartbeat(stamp)]
    {
      if closed { return; }
      WireSnoc(items, Heartbeat(stamp));
      wire := wire + (": heartbeat " + stamp + "\n\n");
      items := items + [Heartbeat(stamp)];
    }

    method Cleanup()
      requires Valid()
      modifies this`closed
      ensures Valid() && closed && items == old(items)
    {
      closed := true;
    }
  }

  lemma {:induction false} WireSnoc(items: seq<Item>, item: Item)
    ensures Wire(items + [item]) == Wire(items) + Frame(item)
  {
    if items == [] {
      assert [item][1..] == [] && items + [item] == [item];
    } else {
      assert (items + [item])[1..] == items[1..] + [item];
      WireSnoc(items[1..], item);
    }
  }

  // ----- which items survive

  predicate Plain(s: string) {
    forall i | 0 <= i < |s| :: s[i] != '\n'
  }

  predicate Readable(event: string, data: string) {
    Plain(event) && Trim(event) == event && Plain(data) && TrimStart(data) == data
  }

  predicate Ok(item: Item) {
    match item
    case Write(event, data) => Readable(event, data)
    case Heartbeat(stamp) => Plain(stamp)
  }

  function Written(items: seq<Item>): seq<Message> {
    if items == [] then []
    else (if items[0].Write? then [Message(items[0].event, items[0].data)] else []) + Written(items[1..])
  }

  // ----- splitting a text whose first piece is known

  predicate NoneIn(h: string, x: string, sep: string) {
    forall i | 0 <= i < |h| :: !StartsWith((h + x)[i..], sep)
  }

  lemma {:induction false} SplitPrefix(h: string, x: string, sep: string)
    requires sep != [] && |x| >= |sep| && NoneIn(h, x, sep)
    ensures Split(h + x, sep) == [h + Split(x, sep)[0]] + Split(x, sep)[1..]
    decreases |h|
  {
    if h == [] {
      assert h + x == x;
      assert h + Split(x, sep)[0] == Split(x, sep)[0];
    } else {
      NoneInTail(h, x, sep);
      SplitPrefix(h[1..], x, sep);
      SplitStep(h + x, h[1..] + x, sep);
      ConsHead(h, Split(x, sep)[0], Split(x, sep)[1..]);
    }
  }

  lemma ConsHead(h: string, p: string, ps: seq<string>)
    requires h != []
    ensures var pieces := [h[1..] + p] + ps; [[h[0]] + pieces[0]] + pieces[1..] == [h + p] + ps
  {
    assert [h[0]] + (h[1..] + p) == h + p;
  }

  lemma NoneInTail(h: string, x: string, sep: string)
    requires h != [] && NoneIn(h, x, sep)
    ensures (h + x)[1..] == h[1..] + x && NoneIn(h[1..], x, sep) && !StartsWith(h + x, sep)
  {
    assert (h + x)[0..] == h + x && !StartsWith((h + x)[0..], sep);
    assert (h + x)[1..] == h[1..] + x;
    forall i | 0 <= i < |h[1..]| ensures !StartsWith((h[1..] + x)[i..], sep) {
      assert (h[1..] + x)[i..] == (h + x)[i + 1..];
    }
  }

  lemma SplitStep(s: string, t: string, sep: string)
    requires sep != [] && |s| >= |sep| && s[1..] == t && !StartsWith(s, sep)
    ensures Split(s, sep) == [[s[0]] + Split(t, sep)[0]] + Split(t, sep)[1..]
  {
  }

  lemma SplitOff(body: string, rest: string, sep: string)
    requires sep != [] && NoneIn(body, sep + rest, sep)
    ensures Split(body + (sep + rest), sep) == [body] + Split(rest, sep)
  {
    SplitPrefix(body, sep + rest, sep);
    assert (sep + rest)[..|sep|] == sep && (sep + rest)[|sep|..] == rest;
    assert Split(sep + rest, sep) == [[]] + Split(rest, sep);
    assert body + [] == body;
  }

  lemma NotAtHead(s: string, p: string, k: nat)
    requires k < |p| && (k < |s| ==> s[k] != p[k])
    ensures !StartsWith(s, p)
  {
    if |p| <= |s| {
      assert s[..|p|][k] == s[k];
    }
  }

  lemma PlainHasNone(h: string, x: string)
    requires Plain(h)
    ensures NoneIn(h, x, NEWLINE) && NoneIn(h, x, BOUNDARY)
  {
    forall i | 0 <= i < |h|
      ensures !StartsWith((h + x)[i..], NEWLINE) && !StartsWith((h + x)[i..], BOUNDARY)
    {
      var r := (h + x)[i..];
      assert r[0] == h[i] != '\n';
      NotAtHead(r, NEWLINE, 0);
      NotAtHead(r, BOUNDARY, 0);
    }
  }

  /** Two lines, the second starting with something else than a newline. */
  lemma TwoLinesHaveNone(a: string, b: string, x: string)
    requires Plain(a) && Plain(b) && b != []
    ensures NoneIn(a + "\n" + b, x, BOUNDARY)
  {
    var h := a + "\n" + b;
    forall i | 0 <= i < |h| ensures !StartsWith((h + x)[i..], BOUNDARY) {
      var r := (h + x)[i..];
      if i == |a| {
        assert r[1] == h[i + 1] == b[0] != '\n';
        NotAtHead(r, BOUNDARY, 1);
      } else {
        assert r[0] == h[i] == if i < |a| then a[i] else b[i - |a| - 1];
        NotAtHead(r, BOUNDARY, 0);
      }
    }
  }

  lemma {:induction false} PlainNotSplit(line: string)
    requires Plain(line)
    ensures Split(line, NEWLINE) == [line]
    decreases |line|
  {
    if line != [] {
      assert line[..1][0] == line[0] != '\n';
      PlainNotSplit(line[1..]);
      assert [line[0]] + line[1..] == line;
    }
  }

  // ----- one frame

  lemma SplitFrame(item: Item, rest: string)
    requires Ok(item)
    ensures Split(Frame(item) + rest, BOUNDARY) == [Body(item)] + Split(rest, BOUNDARY)
  {
    assert Frame(item) + rest == Body(item) + (BOUNDARY + rest);
    match item {
      case Write(event, data) => TwoLinesHaveNone("event: " + event, "data: " + data, BOUNDARY + rest);
      case Heartbeat(stamp) => PlainHasNone(Body(item), BOUNDARY + rest);
    }
    SplitOff(Body(item), rest, BOUNDARY);
  }

  lemma SplitLines(first: string, second: string)
    requires Plain(first) && Plain(second)
    ensures Split(first + "\n" + second, NEWLINE) == [first, second]
  {
    assert first + "\n" + second == first + (NEWLINE + second);
    PlainHasNone(first, NEWLINE + second);
    SplitOff(first, second, NEWLINE);
    PlainNotSplit(second);
  }

  lemma TrimLeadingSpace(s: string)
    ensures TrimStart(" " + s) == TrimStart(s) && Trim(" " + s) == Trim(s)
  {
    assert (" " + s)[1..] == s;
  }

  lemma FieldValues(event: string, data: string)
    ensures Values(["event: " + event], "event:") == [" " + event]
    ensures Values(["event: " + event, "data: " + data], "event:") == [" " + event]
    ensures Values(["event: " + event, "data: " + data], "data:") == [" " + data]
  {
    var e, d := "event: " + event, "data: " + data;
    assert e[..6] == "event:" && e[6..] == " " + event;
    assert d[..5] == "data:" && d[5..] == " " + data;
    NotBoth(e);
    NotBoth(d);
    assert [e, d][1..] == [d] && [d][1..] == [] && [e][1..] == [];
  }

  lemma PlainPrefixed(name: string, value: string)
    requires Plain(name) && Plain(value)
    ensures Plain(name + value)
  {
  }

  lemma PlainFields(event: string, data: string)
    requires Plain(event) && Plain(data)
    ensures Plain("event: " + event) && Plain("data: " + data)
  {
    PlainPrefixed("event: ", event);
    PlainPrefixed("data: ", data);
  }

  lemma ParseWritten(event: string, data: string)
    requires Plain(event) && Plain(data)
    ensures Parse(Body(Item.Write(event, data))) == Some(Message(Trim(event), TrimStart(data)))
  {
    PlainFields(event, data);
    ParseBody(event, data, "event: " + event, "data: " + data, Body(Item.Write(event, data)));
  }

  lemma ParseBody(event: string, data: string, first: string, second: string, body: string)
    requires Plain(first) && Plain(second) && first == "event: " + event && second == "data: " + data
    requires body == first + "\n" + second
    ensures Parse(body) == Some(Message(Trim(event), TrimStart(data)))
  {
    ParseLines(event, data, first, second);
  }

  lemma ParseLines(event: string, data: string, first: string, second: string)
    requires Plain(first) && Plain(second) && first == "event: " + event && second == "data: " + data
    ensures Parse(first + "\n" + second) == Some(Message(Trim(event), TrimStart(data)))
  {
    SplitLines(first, second);
    MeaningWritten(event, data, [first, second]);
  }

  lemma MeaningWritten(event: string, data: string, lines: seq<string>)
    requires lines == ["event: " + event, "data: " + data]
    ensures Meaning(lines) == Some(Message(Trim(event), TrimStart(data)))
  {
    FieldValues(event, data);
    TrimLeadingSpace(event);
    TrimLeadingSpace(data);
    OneTrimmed(" " + data);
  }

  lemma OneTrimmed(value: string)
    ensures TrimmedStarts([value]) == [TrimStart(value)]
    ensures Join(TrimmedStarts([value]), NEWLINE) == TrimStart(value)
  {
    assert [value][1..] == [];
  }

  lemma ParseHeartbeat(stamp: string)
    requires Plain(stamp)
    ensures Parse(Body(Heartbeat(stamp))).None?
  {
    var line := Body(Heartbeat(stamp));
    PlainNotSplit(line);
    assert line[0] == ':';
    NotBoth(line);
    assert [line][1..] == [];
  }

  // ----- the whole stream

  lemma {:induction false} SplitWire(items: seq<Item>)
    requires forall i | 0 <= i < |items| :: Ok(items[i])
    ensures Last(Split(Wire(items), BOUNDARY)) == []
    ensures Read(Wire(items)) == Written(items)
  {
    if items == [] {
    } else {
      var pieces := Split(Wire(items[1..]), BOUNDARY);
      SplitFrame(items[0], Wire(items[1..]));
      SplitWire(items[1..]);
      assert Last([Body(items[0])] + pieces) == Last(pieces);
      assert Front([Body(items[0])] + pieces) == [Body(items[0])] + Front(pieces);
      MessagesConcat([Body(items[0])], Front(pieces));
      OneFrame(items[0]);
    }
  }

  lemma OneFrame(item: Item)
    requires Ok(item)
    ensures Messages([Body(item)]) == if item.Write? then [Message(item.event, item.data)] else []
  {
    assert [Body(item)][1..] == [];
    match item {
      case Write(event, data) => ParseWritten(event, data);
      case Heartbeat(stamp) => ParseHeartbeat(stamp);
    }
  }

  /** Writer to reader, over any cutting of the text into chunks. */
  method RoundTrip(writer: EventWriter, chunks: seq<string>) returns (messages: seq<Message>)
    requires writer.Valid() && Concat(chunks) == writer.wire
    requires forall i | 0 <= i < |writer.items| :: Ok(writer.items[i])
    ensures messages == Written(writer.items)
  {
    SplitWire(writer.items);
    var rest;
    messages, rest := Connect(chunks);
  }

  // ----- exactly which events and data survive a frame

  /** Splitting loses nothing. */
  lemma {:induction false} JoinSplit(s: string, sep: string)
    requires sep != []
    ensures Join(Split(s, sep), sep) == s
    decreases |s|
  {
    if |s| < |sep| {
    } else if s[..|sep|] == sep {
      JoinSplit(s[|sep|..], sep);
      JoinEmptyHead(Split(s[|sep|..], sep), sep);
      assert s == sep + s[|sep|..];
    } else {
      JoinSplit(s[1..], sep);
      JoinHead(s[0], Split(s[1..], sep), sep);
      assert s == [s[0]] + s[1..];
    }
  }

  lemma JoinEmptyHead(pieces: seq<string>, sep: string)
    requires pieces != []
    ensures Join([[]] + pieces, sep) == sep + Join(pieces, sep)
  {
    assert ([[]] + pieces)[1..] == pieces;
  }

  lemma JoinHead(c: char, pieces: seq<string>, sep: string)
    requires pieces != []
    ensures Join([[c] + pieces[0]] + pieces[1..], sep) == [c] + Join(pieces, sep)
  {
    var more := [[c] + pieces[0]] + pieces[1..];
    assert more[1..] == pieces[1..];
    if |pieces| > 1 {
      assert ([c] + pieces[0]) + sep + Join(pieces[1..], sep) == [c] + (pieces[0] + sep + Join(pieces[1..], sep));
    }
  }

  lemma {:induction false} LinesPlain(s: string)
    ensures forall l | l in Split(s, NEWLINE) :: Plain(l)
    decreases |s|
  {
    if s == [] {
    } else if s[..1] == NEWLINE {
      LinesPlain(s[1..]);
    } else {
      LinesPlain(s[1..]);
      assert s[..1] == [s[0]];
      var rest := Split(s[1..], NEWLINE);
      assert Plain(rest[0]);
      assert Plain([s[0]] + rest[0]);
    }
  }

  lemma {:induction false} TrimStartPlain(s: string)
    requires Plain(s)
    ensures Plain(TrimStart(s))
    decreases |s|
  {
    if s != [] && WhiteSpace(s[0]) { TrimStartPlain(s[1..]); }
  }

  lemma {:induction false} TrimEndKeeps(s: string)
    ensures Plain(s) ==> Plain(TrimEnd(s))
    ensures s != [] && !WhiteSpace(s[0]) ==> TrimEnd(s) != [] && TrimEnd(s)[0] == s[0]
    ensures TrimEnd(TrimEnd(s)) == TrimEnd(s)
    decreases |s|
  {
    if s != [] && WhiteSpace(s[|s| - 1]) { TrimEndKeeps(s[..|s| - 1]); }
  }

  lemma TrimIdempotent(s: string)
    ensures Trim(Trim(s)) == Trim(s)
  {
    var t := TrimStart(s);
    TrimEndKeeps(t);
    if t == [] {
    } else {
      assert TrimStart(TrimEnd(t)) == TrimEnd(t);
    }
  }

  lemma {:induction false} ValuesPlain(lines: seq<string>, name: string)
    requires forall l | l in lines :: Plain(l)
    ensures forall v | v in Values(lines, name) :: Plain(v)
  {
    if lines != [] {
      assert lines[0] in lines;
      assert forall l | l in lines[1..] :: l in lines;
      ValuesPlain(lines[1..], name);
    }
  }

  lemma DefaultIsClean(s: string)
    requires s == "message"
    ensures Plain(s) && Trim(s) == s
  {
    assert s[0] == 'm' && s[6] == 'e';
  }

  /** The event of a message never holds a newline or outer white space. */
  lemma EventIsClean(chunk: string)
    requires Parse(chunk).Some?
    ensures Plain(Parse(chunk).value.event) && Trim(Parse(chunk).value.event) == Parse(chunk).value.event
  {
    var lines := Split(chunk, NEWLINE);
    var names := Values(lines, "event:");
    if names == [] {
      DefaultIsClean("message");
    } else {
      LinesPlain(chunk);
      ValuesPlain(lines, "event:");
      TrimStartPlain(Last(names));
      TrimEndKeeps(TrimStart(Last(names)));
      TrimIdempotent(Last(names));
    }
  }

  function Size(xs: seq<string>): nat {
    if xs == [] then 0 else 1 + |xs[0]| + Size(xs[1..])
  }

  lemma {:induction false} JoinLength(xs: seq<string>)
    requires xs != []
    ensures |Join(xs, NEWLINE)| == |xs[0]| + Size(xs[1..])
  {
    if |xs| > 1 { JoinLength(xs[1..]); }
  }

  /** Data lines after the first come back shorter than they were written. */
  lemma {:induction false} DataShrinks(lines: seq<string>)
    ensures Size(TrimmedStarts(Values(lines, "data:"))) <= Size(lines)
    ensures lines != [] ==> Size(TrimmedStarts(Values(lines, "data:"))) < Size(lines)
  {
    if lines != [] {
      DataShrinks(lines[1..]);
      var rest := Values(lines[1..], "data:");
      if StartsWith(lines[0], "data:") {
        var v := lines[0][5..];
        assert ([v] + rest)[1..] == rest;
        assert TrimmedStarts([v] + rest) == [TrimStart(v)] + TrimmedStarts(rest);
        assert ([TrimStart(v)] + TrimmedStarts(rest))[1..] == TrimmedStarts(rest);
      }
    }
  }

  /** The first piece of a terminated text is a part of it from the left. */
  lemma {:induction false} FirstPiece(d: string, sep: string)
    requires sep != []
    ensures |Split(d + sep, sep)| >= 2
    ensures var p := Split(d + sep, sep)[0]; |p| <= |d| && d[..|p|] == p
    decreases |d|
  {
    if d == [] {
      assert d + sep == sep && sep[|sep|..] == [];
    } else if (d + sep)[..|sep|] == sep {
    } else {
      assert (d + sep)[1..] == d[1..] + sep;
      FirstPiece(d[1..], sep);
      var p := Split(d[1..] + sep, sep)[0];
      assert d[..|p| + 1] == [d[0]] + d[1..][..|p|];
    }
  }

  function Opening(event: string): string {
    "event: " + event + "\n" + "data: "
  }

  lemma OpeningHasNone(event: string, x: string)
    requires Plain(event)
    ensures NoneIn(Opening(event), x, BOUNDARY)
  {
    PlainPrefixed("event: ", event);
    TwoLinesHaveNone("event: " + event, "data: ", x);
  }

  lemma FrameOpens(event: string, data: string)
    ensures Frame(Item.Write(event, data)) == Opening(event) + (data + BOUNDARY)
  {
    Regroup("event: " + event + "\n", "data: ", data, BOUNDARY);
  }

  /** The first frame read back from one written frame. */
  lemma FirstFrame(event: string, data: string, frame: string)
    requires Plain(event) && frame == Frame(Item.Write(event, data))
    ensures Front(Split(frame, BOUNDARY)) != []
    ensures Front(Split(frame, BOUNDARY))[0] == Opening(event) + Split(data + BOUNDARY, BOUNDARY)[0]
  {
    FrameOpens(event, data);
    OpeningHasNone(event, data + BOUNDARY);
    FirstPiece(data, BOUNDARY);
    FirstFrameOf(Opening(event), data + BOUNDARY, Split(data + BOUNDARY, BOUNDARY));
  }

  lemma Regroup(a: string, b: string, c: string, d: string)
    ensures (a + (b + c)) + d == (a + b) + (c + d)
  {
  }

  lemma FirstFrameOf(h: string, x: string, pieces: seq<string>)
    requires NoneIn(h, x, BOUNDARY) && |x| >= 2 && pieces == Split(x, BOUNDARY) && |pieces| >= 2
    ensures var frames := Front(Split(h + x, BOUNDARY)); frames != [] && frames[0] == h + pieces[0]
  {
    SplitPrefix(h, x, BOUNDARY);
  }

  lemma SplitOpening(event: string, p: string)
    requires Plain(event)
    ensures var qs := Split(p, NEWLINE);
      Split(Opening(event) + p, NEWLINE) == ["event: " + event] + (["data: " + qs[0]] + qs[1..])
  {
    var first, rest := "event: " + event, "data: " + p;
    assert Opening(event) + p == first + (NEWLINE + rest);
    PlainHasNone(first, NEWLINE + rest);
    SplitOff(first, rest, NEWLINE);
    PlainHasNone("data: ", p);
    if p == [] {
      assert rest == "data: ";
      PlainNotSplit(rest);
    } else {
      SplitPrefix("data: ", p, NEWLINE);
    }
  }

  lemma OpeningData(event: string, q: string, qs: seq<string>)
    ensures var lines := ["event: " + event] + (["data: " + q] + qs);
      Values(lines, "data:") == [" " + q] + Values(qs, "data:")
  {
    var e, d := "event: " + event, "data: " + q;
    assert d[..5] == "data:" && d[5..] == " " + q;
    assert e[0] == 'e';
    NotAtHead(e, "data:", 0);
    assert ([e] + ([d] + qs))[1..] == [d] + qs && ([d] + qs)[1..] == qs;
  }

  /** What the first frame holds is never longer than what was written, and as long only when
      nothing was cut off or trimmed. */
  lemma FirstDataFits(event: string, p: string)
    requires Plain(event)
    ensures Parse(Opening(event) + p).Some?
    ensures var m := Parse(Opening(event) + p).value;
      |m.data| <= |p| && (|m.data| == |p| ==> Plain(p) && m.data == TrimStart(p))
  {
    var qs := Split(p, NEWLINE);
    var lines := ["event: " + event] + (["data: " + qs[0]] + qs[1..]);
    SplitOpening(event, p);
    OpeningData(event, qs[0], qs[1..]);
    var values := Values(qs[1..], "data:");
    TrimLeadingSpace(qs[0]);
    assert ([" " + qs[0]] + values)[1..] == values;
    var data := [TrimStart(qs[0])] + TrimmedStarts(values);
    assert TrimmedStarts([" " + qs[0]] + values) == data;
    assert data[1..] == TrimmedStarts(values);
    JoinLength(data);
    DataShrinks(qs[1..]);
    JoinSplit(p, NEWLINE);
    JoinLength(qs);
    LinesPlain(p);
    if |Join(data, NEWLINE)| == |p| {
      assert qs == [p];
      assert qs[0] in qs;
    }
  }

  /** One frame gives back exactly the event and the data that were written, and nothing else,
      if and only if both are on one line and no white space is lost. */
  lemma FrameReadsBackIff(event: string, data: string)
    ensures Read(Frame(Item.Write(event, data))) == [Message(event, data)] <==> Readable(event, data)
  {
    var item := Item.Write(event, data);
    if Readable(event, data) {
      ReadableReadsBack(item);
    }
    if Read(Frame(item)) == [Message(event, data)] {
      SomeFrameIs(Front(Split(Frame(item), BOUNDARY)), Message(event, data));
      FirstFrame(event, data, Frame(item));
      var p := Split(data + BOUNDARY, BOUNDARY)[0];
      FirstPiece(data, BOUNDARY);
      FirstDataFits(event, p);
      var frames := Front(Split(Frame(item), BOUNDARY));
      assert Messages(frames)[0] == Parse(frames[0]).value;
      assert |p| == |data|;
      assert data[..|p|] == data;
    }
  }

  lemma ReadableReadsBack(item: Item)
    requires item.Write? && Readable(item.event, item.data)
    ensures Read(Frame(item)) == [Message(item.event, item.data)]
  {
    assert Frame(item) + [] == Frame(item);
    SplitFrame(item, []);
    assert Front([Body(item)] + [[]]) == [Body(item)];
    OneFrame(item);
  }

  /** A message in the result came from some frame, so its event is clean. */
  lemma {:induction false} SomeFrameIs(frames: seq<string>, m: Message)
    requires m in Messages(frames)
    ensures Plain(m.event) && Trim(m.event) == m.event
  {
    if Parse(frames[0]) == Some(m) {
      EventIsClean(frames[0]);
    } else {
      SomeFrameIs(frames[1..], m);
    }
  }
}
