/** The event stream between the API and the browser: frames as the controller writes them,
    and the hook's reader, which gets the text in chunks cut anywhere. */
module EventStream {
  import opened Common

  datatype Message = Message(event: string, data: string)

  // ----- `String.prototype.split`, `trim` and `trimStart`

  /** Cut at the leftmost separators that do not overlap. */
  function Split(s: string, sep: string): (pieces: seq<string>)
    requires sep != []
    ensures pieces != []
    decreases |s|
  {
    if |s| < |sep| then [s]
    else if s[..|sep|] == sep then [[]] + Split(s[|sep|..], sep)
    else
      var rest := Split(s[1..], sep);
      [[s[0]] + rest[0]] + rest[1..]
  }

  function Front<T>(xs: seq<T>): seq<T>
    requires xs != []
  {
    xs[..|xs| - 1]
  }

  function Last<T>(xs: seq<T>): T
    requires xs != []
  {
    xs[|xs| - 1]
  }

  function Join(pieces: seq<string>, sep: string): string {
    if pieces == [] then []
    else if |pieces| == 1 then pieces[0]
    else pieces[0] + sep + Join(pieces[1..], sep)
  }

  predicate WhiteSpace(c: char) {
    || '\t' <= c <= '\r' || c == ' ' || c == '\U{00A0}' || c == '\U{1680}' || '\U{2000}' <= c <= '\U{200A}'
    || c == '\U{2028}' || c == '\U{2029}' || c == '\U{202F}' || c == '\U{205F}' || c == '\U{3000}' || c == '\U{FEFF}'
  }

  function TrimStart(s: string): (t: string)
    ensures |t| <= |s|
    ensures t != [] ==> !WhiteSpace(t[0])
  {
    if s == [] || !WhiteSpace(s[0]) then s else TrimStart(s[1..])
  }

  function TrimEnd(s: string): (t: string)
    ensures |t| <= |s|
    ensures t != [] ==> !WhiteSpace(t[|t| - 1])
  {
    if s == [] || !WhiteSpace(s[|s| - 1]) then s else TrimEnd(s[..|s| - 1])
  }

  function Trim(s: string): string {
    TrimEnd(TrimStart(s))
  }

  // ----- what a frame means

  const BOUNDARY := "\n\n"
  const NEWLINE := "\n"

  predicate StartsWith(s: string, prefix: string) {
    |prefix| <= |s| && s[..|prefix|] == prefix
  }

  /** The values of the fields called `name`, in order; `name` ends with a colon. */
  function Values(lines: seq<string>, name: string): (values: seq<string>)
    ensures |values| <= |lines|
  {
    if lines == [] then []
    else if StartsWith(lines[0], name) then [lines[0][|name|..]] + Values(lines[1..], name)
    else Values(lines[1..], name)
  }

  function TrimmedStarts(values: seq<string>): (r: seq<string>)
    ensures |r| == |values|
  {
    if values == [] then [] else [TrimStart(values[0])] + TrimmedStarts(values[1..])
  }

  /** The last event name counts; data lines are joined; without a data line there is no message. */
  function Meaning(lines: seq<string>): Option<Message> {
    var names, data := Values(lines, "event:"), Values(lines, "data:");
    if data == [] then None
    else Some(Message(if names == [] then "message" else Trim(Last(names)), Join(TrimmedStarts(data), NEWLINE)))
  }

  /** White space is cut off in front, all of it and nothing else. */
  lemma {:induction false} TrimStartCuts(s: string) returns (blank: string)
    ensures s == blank + TrimStart(s) && forall i | 0 <= i < |blank| :: WhiteSpace(blank[i])
  {
    blank := "";
    if s != [] && WhiteSpace(s[0]) {
      var rest := TrimStartCuts(s[1..]);
      blank := [s[0]] + rest;
    }
  }

  lemma {:induction false} TrimEndCuts(s: string) returns (blank: string)
    ensures s == TrimEnd(s) + blank && forall i | 0 <= i < |blank| :: WhiteSpace(blank[i])
    decreases |s|
  {
    blank := "";
    if s != [] && WhiteSpace(s[|s| - 1]) {
      var rest := TrimEndCuts(s[..|s| - 1]);
      blank := rest + [s[|s| - 1]];
      assert s == s[..|s| - 1] + [s[|s| - 1]];
    }
  }

  /** Line by line: a frame begins as no message; an event line only names it, the last one
      counts, and without one it is called "message"; the first data line makes it one, each
      further one is a line more; every other line is passed over. */
  lemma MeaningStep(lines: seq<string>, line: string)
    ensures Meaning([]) == None
    ensures
      var before, after := Meaning(lines), Meaning(lines + [line]);
      if StartsWith(line, "event:") then
        if before == None then after == None else after == Some(before.value.(event := Trim(line[6..])))
      else if StartsWith(line, "data:") then
        if before == None
        then after.Some? && after.value.data == TrimStart(line[5..]) && (Unnamed(lines) ==> after.value.event == "message")
        else after == Some(before.value.(data := before.value.data + "\n" + TrimStart(line[5..])))
      else after == before
  {
    ValuesSnoc(lines, line, "event:");
    ValuesSnoc(lines, line, "data:");
    NotBoth(line);
    if StartsWith(line, "data:") {
      TrimmedSnoc(Values(lines, "data:"), line[5..]);
      JoinSnoc(TrimmedStarts(Values(lines, "data:")), TrimStart(line[5..]), NEWLINE);
      NoNames(lines);
    }
  }

  /** An event line before the first data line names the message as well. */
  lemma NamedBefore(lines: seq<string>, name: string, more: seq<string>, data: string)
    requires Meaning(lines) == None && Unnamed(more)
    requires forall i | 0 <= i < |more| :: !StartsWith(more[i], "data:")
    ensures Meaning(lines + ["event:" + name] + more + ["data:" + data]) == Some(Message(Trim(name), TrimStart(data)))
    decreases |more|
  {
    var event := "event:" + name;
    var all := lines + [event] + more;
    assert event[..6] == "event:" && event[6..] == name;
    assert ("data:" + data)[..5] == "data:" && ("data:" + data)[5..] == data;
    NotBoth(event);
    NotBoth("data:" + data);
    ValuesSnoc(lines, event, "event:");
    ValuesSnoc(lines, event, "data:");
    ValuesOfNone(lines + [event], more, "event:");
    ValuesOfNone(lines + [event], more, "data:");
    ValuesSnoc(all, "data:" + data, "event:");
    ValuesSnoc(all, "data:" + data, "data:");
    OneTrimmedStart(data);
  }

  lemma OneTrimmedStart(data: string)
    ensures TrimmedStarts([data]) == [TrimStart(data)]
  {
    assert [data][1..] == [];
  }

  lemma {:induction false} ValuesOfNone(lines: seq<string>, more: seq<string>, name: string)
    requires forall i | 0 <= i < |more| :: !StartsWith(more[i], name)
    ensures Values(lines + more, name) == Values(lines, name)
    decreases |more|
  {
    if more == [] {
      assert lines + more == lines;
    } else {
      var front := more[..|more| - 1];
      assert forall i | 0 <= i < |front| :: front[i] == more[i];
      ValuesOfNone(lines, front, name);
      assert lines + more == (lines + front) + [more[|more| - 1]];
      ValuesSnoc(lines + front, more[|more| - 1], name);
    }
  }

  predicate Unnamed(lines: seq<string>) {
    forall i | 0 <= i < |lines| :: !StartsWith(lines[i], "event:")
  }

  lemma NoNames(lines: seq<string>)
    ensures Unnamed(lines) ==> Values(lines, "event:") == []
  {
    if Unnamed(lines) {
      ValuesOfNone([], lines, "event:");
      assert [] + lines == lines;
    }
  }

  lemma {:induction false} JoinSnoc(pieces: seq<string>, piece: string, sep: string)
    ensures Join(pieces + [piece], sep) == if pieces == [] then piece else Join(pieces, sep) + sep + piece
  {
    if pieces == [] {
      assert pieces + [piece] == [piece];
    } else {
      assert (pieces + [piece])[1..] == pieces[1..] + [piece];
      JoinSnoc(pieces[1..], piece, sep);
      if |pieces| > 1 {
        assert pieces[0] + sep + (Join(pieces[1..], sep) + sep + piece) == (pieces[0] + sep + Join(pieces[1..], sep)) + sep + piece;
      }
    }
  }

  function Parse(chunk: string): Option<Message> {
    Meaning(Split(chunk, NEWLINE))
  }

  function Messages(frames: seq<string>): seq<Message> {
    if frames == [] then []
    else (match Parse(frames[0]) case None => [] case Some(m) => [m]) + Messages(frames[1..])
  }

  /** What a reader of the whole text emits; the tail after the last boundary waits for more. */
  function Read(text: string): seq<Message> {
    Messages(Front(Split(text, BOUNDARY)))
  }

  // ----- the reader

  lemma {:induction false} ValuesSnoc(lines: seq<string>, line: string, name: string)
    ensures StartsWith(line, name) ==> Values(lines + [line], name) == Values(lines, name) + [line[|name|..]]
    ensures !StartsWith(line, name) ==> Values(lines + [line], name) == Values(lines, name)
  {
    if lines == [] {
      assert [line][1..] == [] && lines + [line] == [line];
    } else {
      assert (lines + [line])[1..] == lines[1..] + [line];
      ValuesSnoc(lines[1..], line, name);
    }
  }

  lemma {:induction false} TrimmedSnoc(values: seq<string>, value: string)
    ensures TrimmedStarts(values + [value]) == TrimmedStarts(values) + [TrimStart(value)]
  {
    if values == [] {
      assert [value][1..] == [] && values + [value] == [value];
    } else {
      assert (values + [value])[1..] == values[1..] + [value];
      TrimmedSnoc(values[1..], value);
    }
  }

  /** No other field starts like an event name or a data line. */
  lemma NotBoth(line: string)
    ensures !(StartsWith(line, "event:") && StartsWith(line, "data:"))
    ensures line == [] || line[0] == ':' ==> !StartsWith(line, "event:") && !StartsWith(line, "data:")
  {
    if StartsWith(line, "event:") { assert line[0] == line[..6][0] == 'e'; }
    if StartsWith(line, "data:") { assert line[0] == line[..5][0] == 'd'; }
  }

  method ParseServerSentEvent(chunk: string) returns (message: Option<Message>)
    ensures message == Parse(chunk)
  {
    var lines := Split(chunk, NEWLINE);
    var event := "message";
    var data: seq<string> := [];
    var i := 0;
    while i < |lines|
      invariant 0 <= i <= |lines|
      invariant data == TrimmedStarts(Values(lines[..i], "data:"))
      invariant event == var names := Values(lines[..i], "event:"); if names == [] then "message" else Trim(Last(names))
    {
      var line := lines[i];
      assert lines[..i + 1] == lines[..i] + [line];
      ValuesSnoc(lines[..i], line, "event:");
      ValuesSnoc(lines[..i], line, "data:");
      NotBoth(line);
      i := i + 1;
      if line == [] || line[0] == ':' { continue; }
      if StartsWith(line, "event:") {
        event := Trim(line[|"event:"|..]);
        continue;
      }
      if StartsWith(line, "data:") {
        TrimmedSnoc(Values(lines[..i - 1], "data:"), line[|"data:"|..]);
        data := data + [TrimStart(line[|"data:"|..])];
      }
    }
    assert lines[..i] == lines;
    if |data| == 0 { return None; }
    return Some(Message(event, Join(data, NEWLINE)));
  }

  lemma {:induction false} MessagesSnoc(frames: seq<string>, frame: string)
    ensures Messages(frames + [frame]) == Messages(frames) + (match Parse(frame) case None => [] case Some(m) => [m])
  {
    if frames == [] {
      assert [frame][1..] == [] && frames + [frame] == [frame];
    } else {
      assert (frames + [frame])[1..] == frames[1..] + [frame];
      MessagesSnoc(frames[1..], frame);
    }
  }

  lemma {:induction false} MessagesConcat(xs: seq<string>, ys: seq<string>)
    ensures Messages(xs + ys) == Messages(xs) + Messages(ys)
  {
    if xs == [] {
      assert xs + ys == ys;
    } else {
      assert (xs + ys)[1..] == xs[1..] + ys;
      MessagesConcat(xs[1..], ys);
    }
  }

  lemma {:induction false} SplitNotFound(s: string, sep: string)
    requires sep != [] && |Split(s, sep)| == 1
    ensures Split(s, sep) == [s]
    decreases |s|
  {
    if |s| >= |sep| && s[..|sep|] != sep {
      SplitNotFound(s[1..], sep);
      assert [s[0]] + s[1..] == s;
    }
  }

  /** Cutting a text in two and re-reading only the tail of the first part changes no piece. */
  lemma {:induction false} SplitResumes(a: string, b: string, sep: string)
    requires sep != []
    ensures Split(a + b, sep) == Front(Split(a, sep)) + Split(Last(Split(a, sep)) + b, sep)
    decreases |a|
  {
    if |a| < |sep| {
    } else if a[..|sep|] == sep {
      assert (a + b)[..|sep|] == sep && (a + b)[|sep|..] == a[|sep|..] + b;
      SplitResumes(a[|sep|..], b, sep);
      PrependPiece([], Split(a[|sep|..], sep), b, sep);
    } else {
      assert (a + b)[..|sep|] == a[..|sep|] && (a + b)[1..] == a[1..] + b;
      SplitResumes(a[1..], b, sep);
      SplitResumesInside(a, b, sep);
    }
  }

  lemma {:induction false} PrependPiece(piece: string, pieces: seq<string>, b: string, sep: string)
    requires sep != [] && pieces != []
    ensures [piece] + (Front(pieces) + Split(Last(pieces) + b, sep)) == Front([piece] + pieces) + Split(Last([piece] + pieces) + b, sep)
  {
    assert Last([piece] + pieces) == Last(pieces);
    assert Front([piece] + pieces) == [piece] + Front(pieces);
  }

  lemma {:induction false} SplitResumesInside(a: string, b: string, sep: string)
    requires sep != [] && |a| >= |sep| && a[..|sep|] != sep
    requires (a + b)[..|sep|] == a[..|sep|] && (a + b)[1..] == a[1..] + b
    requires Split(a[1..] + b, sep) == Front(Split(a[1..], sep)) + Split(Last(Split(a[1..], sep)) + b, sep)
    ensures Split(a + b, sep) == Front(Split(a, sep)) + Split(Last(Split(a, sep)) + b, sep)
  {
    var pieces := Split(a[1..], sep);
    assert (a + b)[0] == a[0];
    if |pieces| == 1 {
      SplitNotFound(a[1..], sep);
      assert [a[0]] + a[1..] == a;
    } else {
      PrependChar(a[0], pieces, Split(Last(pieces) + b, sep));
    }
  }

  lemma PrependChar(c: char, pieces: seq<string>, more: seq<string>)
    requires |pieces| > 1
    ensures var whole := [[c] + pieces[0]] + pieces[1..];
      && Last(whole) == Last(pieces)
      && [[c] + (Front(pieces) + more)[0]] + (Front(pieces) + more)[1..] == Front(whole) + more
  {
  }

  function Concat(chunks: seq<string>): string {
    if chunks == [] then [] else chunks[0] + Concat(chunks[1..])
  }

  lemma {:induction false} ConcatSnoc(chunks: seq<string>, chunk: string)
    ensures Concat(chunks + [chunk]) == Concat(chunks) + chunk
  {
    if chunks == [] {
      assert [chunk][1..] == [] && chunks + [chunk] == [chunk];
    } else {
      assert (chunks + [chunk])[1..] == chunks[1..] + [chunk];
      ConcatSnoc(chunks[1..], chunk);
    }
  }

  /** What one more chunk adds, whatever came before. */
  lemma ReadMore(text: string, chunk: string)
    ensures var pieces := Split(Last(Split(text, BOUNDARY)) + chunk, BOUNDARY);
      && Read(text + chunk) == Read(text) + Messages(Front(pieces))
      && Last(Split(text + chunk, BOUNDARY)) == Last(pieces)
  {
    SplitResumes(text, chunk, BOUNDARY);
    var pieces := Split(Last(Split(text, BOUNDARY)) + chunk, BOUNDARY);
    assert Front(Split(text + chunk, BOUNDARY)) == Front(Split(text, BOUNDARY)) + Front(pieces);
    MessagesConcat(Front(Split(text, BOUNDARY)), Front(pieces));
  }

  class EventReader {
    var buffer: string
    var messages: seq<Message>

    constructor ()
      ensures buffer == [] && messages == []
    {
      buffer, messages := [], [];
    }

    /** The state depends on the text received so far, not on how it was cut. */
    method Receive(chunk: string, ghost text: string)
      requires buffer == Last(Split(text, BOUNDARY)) && messages == Read(text)
      modifies this
      ensures buffer == Last(Split(text + chunk, BOUNDARY)) && messages == Read(text + chunk)
    {
      ReadMore(text, chunk);
      buffer := buffer + chunk;
      var boundary := Split(buffer, BOUNDARY);
      buffer := Last(boundary);
      boundary := Front(boundary);
      Emit(boundary);
    }

    method Emit(frames: seq<string>)
      modifies this`messages
      ensures messages == old(messages) + Messages(frames)
    {
      var i := 0;
      while i < |frames|
        invariant 0 <= i <= |frames|
        invariant messages == old(messages) + Messages(frames[..i])
      {
        var message := ParseServerSentEvent(frames[i]);
        assert frames[..i + 1] == frames[..i] + [frames[i]];
        MessagesSnoc(frames[..i], frames[i]);
        if message.Some? {
          messages := messages + [message.value];
        }
        i := i + 1;
      }
      assert frames[..i] == frames;
    }
  }

  /** Chunk invariance: the messages are those of one split of the whole text. */
  method Connect(chunks: seq<string>) returns (messages: seq<Message>, rest: string)
    ensures messages == Read(Concat(chunks))
    ensures rest == Last(Split(Concat(chunks), BOUNDARY))
  {
    var reader := new EventReader();
    var i := 0;
    while i < |chunks|
      invariant 0 <= i <= |chunks| && fresh(reader)
      invariant reader.buffer == Last(Split(Concat(chunks[..i]), BOUNDARY))
      invariant reader.messages == Read(Concat(chunks[..i]))
    {
      assert chunks[..i + 1] == chunks[..i] + [chunks[i]];
      ConcatSnoc(chunks[..i], chunks[i]);
      reader.Receive(chunks[i], Concat(chunks[..i]));
      i := i + 1;
    }
    assert chunks[..i] == chunks;
    return reader.messages, reader.buffer;
  }
}
