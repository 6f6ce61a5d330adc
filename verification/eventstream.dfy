/**
 * What a browser's own parser would make of the stream (WHATWG HTML Living Standard, section
 * 9.2.6), and where the client's parser differs from it.
 */
module EventStream {
  import opened Options
  import opened Text
  import opened Sse

  datatype Message = Message(kind: string, data: string)

  /** The event type buffer and the data buffer. */
  datatype Buffers = Buffers(kind: string, data: string)

  const EMPTY := Buffers("", "")

  /** One field; `id` and `retry` leave these buffers alone, and other names are ignored. */
  function Process(name: string, value: string, b: Buffers): Buffers {
    if name == "event" then b.(kind := value)
    else if name == "data" then b.(data := b.data + value + "\n")
    else b
  }

  /** A line that is not empty: a comment, or a field whose value loses one leading space. */
  function FieldLine(line: string, b: Buffers): Buffers {
    var k := Find(line, ":");
    if k == |line| then Process(line, "", b)
    else if k == 0 then b
    else
      var value := line[k + 1..];
      Process(line[..k], if value != "" && value[0] == ' ' then value[1..] else value, b)
  }

  /** An empty line dispatches what was gathered, unless there is no data. */
  function Dispatch(b: Buffers): seq<Message> {
    if b.data == "" then []
    else [Message(if b.kind == "" then "message" else b.kind, b.data[..|b.data| - 1])]
  }

  /** Lines end in CR LF, LF or CR; what the end of the stream cuts off is discarded. */
  function Interpret(s: string, line: string, b: Buffers): seq<Message>
    decreases |s|
  {
    if s == "" then []
    else if s[0] == '\n' || s[0] == '\r' then
      var rest := if s[0] == '\r' && |s| > 1 && s[1] == '\n' then s[2..] else s[1..];
      if line == "" then Dispatch(b) + Interpret(rest, "", EMPTY) else Interpret(rest, "", FieldLine(line, b))
    else Interpret(s[1..], line + [s[0]], b)
  }

  /** A leading byte order mark is not part of the stream. */
  function Standard(s: string): seq<Message> {
    Interpret(if s != "" && s[0] as int == 0xfeff then s[1..] else s, "", EMPTY)
  }

  /* ---------- printed streams ---------- */

  predicate OneLine(s: string) { '\n' !in s && '\r' !in s }

  lemma {:induction false} LineIsRead(text: string, rest: string, line: string, b: Buffers)
    requires OneLine(text)
    ensures Interpret(text + rest, line, b) == Interpret(rest, line + text, b)
  {
    if text == "" {
      assert text + rest == rest && line + text == line;
    } else {
      assert (text + rest)[1..] == text[1..] + rest;
      assert line + [text[0]] + text[1..] == line + text;
      LineIsRead(text[1..], rest, line + [text[0]], b);
    }
  }

  /** A whole line, up to its line feed. */
  lemma LineIsTaken(text: string, rest: string, b: Buffers)
    requires OneLine(text) && text != ""
    ensures Interpret(text + ("\n" + rest), "", b) == Interpret(rest, "", FieldLine(text, b))
  {
    LineIsRead(text, "\n" + rest, "", b);
    assert "" + text == text;
    assert ("\n" + rest)[1..] == rest;
  }

  lemma BlankIsTaken(rest: string, b: Buffers)
    ensures Interpret("\n" + rest, "", b) == Dispatch(b) + Interpret(rest, "", EMPTY)
  {
    assert ("\n" + rest)[1..] == rest;
  }

  lemma FieldIsSplit(name: string, value: string, b: Buffers)
    requires ':' !in name && name != ""
    ensures FieldLine(name + ": " + value, b) == Process(name, value, b)
  {
    var line := name + ": " + value;
    assert line[|name|] == ':' && line[|name| + 1] == ' ';
    assert line[|name|..|name| + 1] == ":";
    assert At(line, |name|, ":");
    forall i | 0 <= i < |name| ensures !At(line, i, ":") {
      assert line[i..i + 1][0] == line[i] == name[i];
    }
    assert Find(line, ":") == |name|;
    assert line[..|name|] == name;
    assert line[|name| + 1..][0] == ' ';
    assert line[|name| + 1..][1..] == value;
  }

  /** The message a printed item stands for. */
  function MessageOf<D>(item: Item<D>, enc: D -> string): Message {
    Message(if item.name == "" then "message" else item.name, enc(item.data))
  }

  function Messages<D>(items: seq<Item<D>>, enc: D -> string): (ms: seq<Message>)
    ensures |ms| == |items|
    ensures forall i :: 0 <= i < |items| ==> ms[i] == MessageOf(items[i], enc)
  {
    seq(|items|, i requires 0 <= i < |items| => MessageOf(items[i], enc))
  }

  predicate Plain<D>(item: Item<D>, enc: D -> string) { OneLine(item.name) && OneLine(enc(item.data)) }

  lemma PrintedIsRead<D>(item: Item<D>, enc: D -> string, rest: string)
    requires Plain(item, enc)
    ensures Interpret(Printed(item, enc) + rest, "", EMPTY) == [MessageOf(item, enc)] + Interpret(rest, "", EMPTY)
  {
    hide Interpret, FieldLine;
    var first, second := "event" + ": " + item.name, "data" + ": " + enc(item.data);
    var named := Buffers(item.name, "");
    var full := Buffers(item.name, "" + enc(item.data) + "\n");
    PrintedLines(item, enc, rest);
    LineIsTaken(first, second + ("\n" + ("\n" + rest)), EMPTY);
    FieldIsSplit("event", item.name, EMPTY);
    LineIsTaken(second, "\n" + rest, named);
    FieldIsSplit("data", enc(item.data), named);
    BlankIsTaken(rest, full);
    assert full.data[..|full.data| - 1] == enc(item.data);
  }

  lemma PrintedLines<D>(item: Item<D>, enc: D -> string, rest: string)
    ensures var first, second := "event" + ": " + item.name, "data" + ": " + enc(item.data);
            Printed(item, enc) + rest == first + ("\n" + (second + ("\n" + ("\n" + rest))))
  {
    var first, second := "event" + ": " + item.name, "data" + ": " + enc(item.data);
    assert "event" + ": " == "event: " && "data" + ": " == "data: ";
    assert "\n" + "\n" == "\n\n";
    assert Printed(item, enc) == "event: " + item.name + "\n" + "data: " + enc(item.data) + "\n\n";
    Regroup(first + "\n", "data: ", enc(item.data), "\n\n");
    Nested(first, "\n", second, "\n\n" + rest);
    assert "\n\n" + rest == "\n" + ("\n" + rest);
    assert Printed(item, enc) + rest == first + "\n" + second + ("\n\n" + rest);
  }

  lemma Nested(a: string, b: string, c: string, d: string)
    ensures a + b + c + d == a + (b + (c + d))
  {
  }

  /** A browser's parser reads a printed stream as the items' names and JSON texts, in order, once each. */
  lemma {:induction false} StreamIsRead<D>(items: seq<Item<D>>, enc: D -> string)
    requires forall item :: item in items ==> Plain(item, enc)
    ensures Interpret(Stream(items, enc), "", EMPTY) == Messages(items, enc)
  {
    hide Interpret, Printed, MessageOf, Messages, Plain;
    if items == [] {
      NothingIsRead(enc);
    } else {
      PrintedIsRead(items[0], enc, Stream(items[1..], enc));
      StreamIsRead(items[1..], enc);
      MessagesCons(items, enc);
    }
  }

  lemma NothingIsRead<D>(enc: D -> string)
    ensures Interpret("", "", EMPTY) == [] && Messages([], enc) == []
  {
  }

  lemma MessagesCons<D>(items: seq<Item<D>>, enc: D -> string)
    requires items != []
    ensures Messages(items, enc) == [MessageOf(items[0], enc)] + Messages(items[1..], enc)
  {
  }

  lemma NoMark<D>(items: seq<Item<D>>, enc: D -> string)
    ensures var s := Stream(items, enc); s == "" || s[0] == 'e'
  {
    if items != [] {
      assert Printed(items[0], enc)[0] == 'e';
    }
  }

  /**
   * On every printed stream whose items have names, however it is cut into chunks, the client and
   * the standard agree: as many events, of the same types, with the same data once read as JSON;
   * an error item, which the standard dispatches last like any other, is what the client throws.
   */
  lemma ClientAgrees<D(!new)>(items: seq<Item<D>>, raised: Option<D>, codec: Codec<D>, chunks: seq<string>)
    requires Faithful(codec)
    requires forall item :: item in items ==> Carried(item.name) && item.name != "" && item.name != "error"
    requires forall item :: item in Sent(items, raised) ==> Plain(item, codec.enc)
    requires Concat(chunks) == Stream(Sent(items, raised), codec.enc)
    ensures var out, ms := Deliver(Split(Concat(chunks), BLOCK_END), codec.dec), Standard(Concat(chunks));
            && |ms| == |out.delivered| + (if raised.Some? then 1 else 0)
            && (forall i :: 0 <= i < |out.delivered| ==>
                  out.delivered[i] == Event(ms[i].kind, DataOf(ms[i].data, codec.dec)))
            && (if raised.Some?
                then ms[|ms| - 1].kind == "error" && out.thrown == Some(DataOf(ms[|ms| - 1].data, codec.dec))
                else out.thrown == None)
  {
    hide Deliver, Split, Interpret;
    var sent := Sent(items, raised);
    RoundTrip(items, raised, codec, chunks);
    NoMark(sent, codec.enc);
    StreamIsRead(sent, codec.enc);
    forall i | 0 <= i < |sent|
      ensures DataOf(codec.enc(sent[i].data), codec.dec) == Json(sent[i].data)
    {
    }
  }

  /* ---------- where they differ ---------- */

  /** A block cut off before its blank line: the client delivers it, the standard does not. */
  lemma UnfinishedBlock<D(!new)>(item: Item<D>, codec: Codec<D>)
    requires Faithful(codec) && Carried(item.name) && item.name != "error" && Plain(item, codec.enc)
    ensures var s := "event: " + item.name + "\n" + "data: " + codec.enc(item.data);
            Standard(s) == [] && Deliver(Split(s, BLOCK_END), codec.dec) == Outcome([Received(item)], None)
  {
    var first, second := "event" + ": " + item.name, "data" + ": " + codec.enc(item.data);
    var s := "event: " + item.name + "\n" + "data: " + codec.enc(item.data);
    assert "event" + ": " == "event: " && "data" + ": " == "data: ";
    Associate("event: " + item.name, "\n", "data: ", codec.enc(item.data));
    assert s == first + ("\n" + second);
    LineIsTaken(first, second, EMPTY);
    LineIsRead(second, "", "", FieldLine(first, EMPTY));
    assert second + "" == second && s[0] == 'e';
    BlockIsWhole(item, codec);
    BlockReadsBack(item, codec);
    assert [s][1..] == [];
  }

  lemma BlockIsWhole<D(!new)>(item: Item<D>, codec: Codec<D>)
    requires Faithful(codec) && Carried(item.name)
    ensures var s := "event: " + item.name + "\n" + "data: " + codec.enc(item.data); Split(s, BLOCK_END) == [s]
  {
    var s := "event: " + item.name + "\n" + "data: " + codec.enc(item.data);
    BlockIsSplitOff(item, codec.enc, "");
    var pieces := Split(Printed(item, codec.enc) + "", BLOCK_END);
    assert pieces[0] == s;
    FirstPieceWhole(Printed(item, codec.enc) + "", BLOCK_END);
  }

  /** A piece holds no separator. */
  lemma FirstPieceWhole(s: string, sep: string)
    requires sep != ""
    ensures Split(Split(s, sep)[0], sep) == [Split(s, sep)[0]]
  {
    var k := Find(s, sep);
    var first := s[..k];
    if k < |s| {
      assert Split(s, sep)[0] == first;
      if Find(first, sep) < |first| {
        var j := Find(first, sep);
        assert At(first, j, sep);
        assert s[j..j + |sep|] == first[j..j + |sep|];
        assert At(s, j, sep);
      }
    }
  }

  /** An event without a name: the standard calls it a message, the client gives it an empty type. */
  lemma NamelessItem<D(!new)>(data: D, codec: Codec<D>)
    requires Faithful(codec) && OneLine(codec.enc(data))
    ensures var s := Stream([Item("", data)], codec.enc);
            && Standard(s) == [Message("message", codec.enc(data))]
            && Deliver(Split(s, BLOCK_END), codec.dec) == Outcome([Event("", Json(data))], None)
  {
    hide Interpret, Split, Deliver;
    var items := [Item("", data)];
    NoMark(items, codec.enc);
    StreamIsRead(items, codec.enc);
    StreamReadsBack(items, codec);
    assert items[1..] == [];
    assert Expected(items) == Outcome([Received(items[0])] + Expected(items[1..]).delivered, None);
  }

  /** More than one leading blank: the standard drops one, the client all. */
  lemma LeadingBlanks(text: string, b: Buffers)
    requires text != "" && !JsBlank(text[0])
    ensures FieldLine("data:  " + text, b) == b.(data := b.data + (" " + text) + "\n")
    ensures DataLines(["data:  " + text]) == [text]
  {
    var line := "data:  " + text;
    assert "data" + ": " + (" " + text) == line;
    FieldIsSplit("data", " " + text, b);
    assert line[0..5] == "data:" && line[5..] == " " + (" " + text);
    BlankIsDropped(" " + text);
    BlankIsDropped(text);
    assert TrimStart(text, JsBlank) == text;
    var lines: seq<string> := [line];
    assert lines[..0] == [];
    assert DataLines([]) == [];
    assert DataLines(lines) == DataLines([]) + [TrimStart(line[5..], JsBlank)];
  }

  lemma BlankIsDropped(s: string)
    ensures TrimStart(" " + s, JsBlank) == TrimStart(s, JsBlank)
  {
    assert (" " + s)[1..] == s;
  }
}
