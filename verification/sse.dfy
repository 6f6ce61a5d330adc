/**
 * The event stream between server and web app: the printer, and the client that reassembles
 * events from chunks cut anywhere (WHATWG HTML Living Standard, sections 9.2.5 and 9.2.6).
 */
module Sse {
  import opened Options
  import opened Text

  const BLOCK_END := "\n\n"
  const LINE_END := "\n"

  /** JSON as the stream needs it: text out, and text in where it is JSON at all. */
  datatype Codec<!D> = Codec(enc: D -> string, dec: string -> Option<D>)

  /** JSON text fits on a line, is not empty, starts with a visible character, and reads back. */
  ghost predicate Faithful<D(!new)>(codec: Codec<D>) {
    forall d: D ::
      var text := codec.enc(d);
      text != "" && '\n' !in text && !JsBlank(text[0]) && codec.dec(text) == Some(d)
  }

  datatype Data<D> = Json(value: D) | Raw(text: string)
  datatype Event<D> = Event(kind: string, data: Data<D>)

  /** What the page gets: the events handed to `onEvent`, and what was thrown, if anything. */
  datatype Outcome<D> = Outcome(delivered: seq<Event<D>>, thrown: Option<Data<D>>)

  /* ---------- the client ---------- */

  function KindOf(lines: seq<string>): string {
    if lines == [] then "message"
    else
      var last := lines[|lines| - 1];
      if Prefixed(last, "event:") then Trim(last[6..], JsBlank) else KindOf(lines[..|lines| - 1])
  }

  function DataLines(lines: seq<string>): seq<string> {
    if lines == [] then []
    else
      var last := lines[|lines| - 1];
      DataLines(lines[..|lines| - 1])
      + (if Prefixed(last, "data:") then [TrimStart(last[5..], JsBlank)] else [])
  }

  function DataOf<D>(raw: string, dec: string -> Option<D>): Data<D> {
    if raw == "" then Raw(raw)
    else match dec(raw)
      case Some(d) => Json(d)
      case None => Raw(raw)
  }

  function ParseBlock<D>(block: string, dec: string -> Option<D>): Option<Event<D>> {
    if Trim(block, JsBlank) == "" then None
    else
      var lines := Split(block, LINE_END);
      Some(Event(KindOf(lines), DataOf(Join(DataLines(lines), LINE_END), dec)))
  }

  /** The parser as the client runs it: one pass over the lines. */
  method ParseChunk<D>(block: string, dec: string -> Option<D>) returns (event: Option<Event<D>>)
    ensures event == ParseBlock(block, dec)
  {
    if Trim(block, JsBlank) == "" {
      return None;
    }
    var kind := "message";
    var dataLines: seq<string> := [];
    var lines := Split(block, LINE_END);
    for i := 0 to |lines|
      invariant kind == KindOf(lines[..i])
      invariant dataLines == DataLines(lines[..i])
    {
      assert lines[..i + 1][..i] == lines[..i];
      var line := lines[i];
      if Prefixed(line, "event:") {
        kind := Trim(line[6..], JsBlank);
      }
      if Prefixed(line, "data:") {
        dataLines := dataLines + [TrimStart(line[5..], JsBlank)];
      }
    }
    assert lines[..|lines|] == lines;
    var raw := Join(dataLines, LINE_END);
    return Some(Event(kind, DataOf(raw, dec)));
  }

  /** Blocks in order, up to the first error event. */
  function Deliver<D>(blocks: seq<string>, dec: string -> Option<D>): Outcome<D> {
    if blocks == [] then Outcome([], None)
    else match ParseBlock(blocks[0], dec)
      case None => Deliver(blocks[1..], dec)
      case Some(e) =>
        if e.kind == "error" then Outcome([], Some(e.data))
        else
          var rest := Deliver(blocks[1..], dec);
          Outcome([e] + rest.delivered, rest.thrown)
  }

  function Concat(chunks: seq<string>): string {
    if chunks == [] then "" else chunks[0] + Concat(chunks[1..])
  }

  function Then<D>(a: Outcome<D>, b: Outcome<D>): Outcome<D> {
    if a.thrown.Some? then a else Outcome(a.delivered + b.delivered, b.thrown)
  }

  /** `target` is what has been delivered so far, followed by what `blocks` will deliver. */
  ghost predicate Ahead<D>(target: Outcome<D>, delivered: seq<Event<D>>, blocks: seq<string>,
                           dec: string -> Option<D>) {
    target == Then(Outcome(delivered, None), Deliver(blocks, dec))
  }

  lemma AheadStep<D>(target: Outcome<D>, delivered: seq<Event<D>>, block: string, rest: seq<string>,
                     dec: string -> Option<D>)
    requires Ahead(target, delivered, [block] + rest, dec)
    ensures match ParseBlock(block, dec)
            case None => Ahead(target, delivered, rest, dec)
            case Some(e) =>
              if e.kind == "error" then target == Outcome(delivered, Some(e.data))
              else Ahead(target, delivered + [e], rest, dec)
  {
    assert ([block] + rest)[1..] == rest;
    match ParseBlock(block, dec)
    case None =>
    case Some(e) =>
      var later := Deliver(rest, dec);
      assert delivered + ([e] + later.delivered) == delivered + [e] + later.delivered;
      assert delivered + [] == delivered;
  }

  lemma FindExtends(a: string, b: string, sep: string)
    requires sep != "" && Find(a, sep) < |a|
    ensures Find(a + b, sep) == Find(a, sep)
  {
    var k := Find(a, sep);
    forall i | 0 <= i < k ensures !At(a + b, i, sep) {
      assert !At(a, i, sep) && At(a, k, sep);
      assert (a + b)[i..i + |sep|] == a[i..i + |sep|];
    }
    assert (a + b)[k..k + |sep|] == a[k..k + |sep|];
    assert At(a + b, k, sep);
  }

  lemma SplitOnce(s: string, sep: string)
    requires sep != "" && Find(s, sep) < |s|
    ensures Split(s, sep) == [s[..Find(s, sep)]] + Split(s[Find(s, sep) + |sep|..], sep)
  {
  }

  /** The pieces of a text, once more text has arrived. */
  function Extended(pieces: seq<string>, more: string, sep: string): seq<string>
    requires sep != "" && pieces != []
  {
    var last := |pieces| - 1;
    pieces[..last] + Split(pieces[last] + more, sep)
  }

  lemma ExtendedCons(first: string, inner: seq<string>, more: string, sep: string)
    requires sep != "" && inner != []
    ensures Extended([first] + inner, more, sep) == [first] + Extended(inner, more, sep)
  {
    var all := [first] + inner;
    assert all[|all| - 1] == inner[|inner| - 1];
    assert all[..|inner|] == [first] + inner[..|inner| - 1];
  }

  /** Text that arrives later only extends the last, unfinished piece. */
  lemma {:induction false} SplitExtends(a: string, b: string, sep: string)
    requires sep != ""
    ensures Split(a + b, sep) == Extended(Split(a, sep), b, sep)
    decreases |a|
  {
    hide Find;
    var k := Find(a, sep);
    if k < |a| {
      var first, rest := a[..k], a[k + |sep|..];
      FindExtends(a, b, sep);
      SplitOnce(a, sep);
      SplitOnce(a + b, sep);
      SplitExtends(rest, b, sep);
      ExtendedCons(first, Split(rest, sep), b, sep);
      assert (a + b)[..k] == first && (a + b)[k + |sep|..] == rest + b;
    } else {
      assert Split(a, sep) == [a];
    }
  }

  lemma {:induction false} LastPieceUnfinished(s: string, sep: string)
    requires sep != ""
    ensures var pieces := Split(s, sep); Split(pieces[|pieces| - 1], sep) == [pieces[|pieces| - 1]]
    decreases |s|
  {
    if Find(s, sep) < |s| {
      LastPieceUnfinished(s[Find(s, sep) + |sep|..], sep);
    }
  }

  function LastPiece(pieces: seq<string>): string
    requires pieces != []
  {
    pieces[|pieces| - 1]
  }

  lemma ChunkKeepsLast(buffer: string, chunks: seq<string>, i: nat)
    requires i < |chunks|
    ensures LastPiece(Split(LastPiece(Split(buffer + chunks[i], BLOCK_END)) + Concat(chunks[i + 1..]), BLOCK_END))
            == LastPiece(Split(buffer + Concat(chunks[i..]), BLOCK_END))
  {
    hide Split, Find;
    var later := Concat(chunks[i + 1..]);
    assert chunks[i..][1..] == chunks[i + 1..];
    assert buffer + Concat(chunks[i..]) == (buffer + chunks[i]) + later;
    SplitExtends(buffer + chunks[i], later, BLOCK_END);
  }

  lemma ChunkArrives<D>(target: Outcome<D>, delivered: seq<Event<D>>, buffer: string, chunks: seq<string>, i: nat,
                        dec: string -> Option<D>)
    requires i < |chunks|
    requires Ahead(target, delivered, Split(buffer + Concat(chunks[i..]), BLOCK_END), dec)
    ensures var pieces := Split(buffer + chunks[i], BLOCK_END);
            var last := |pieces| - 1;
            && Split(pieces[last], BLOCK_END) == [pieces[last]]
            && Ahead(target, delivered,
                     pieces[..last] + Split(pieces[last] + Concat(chunks[i + 1..]), BLOCK_END), dec)
  {
    var later := Concat(chunks[i + 1..]);
    assert chunks[i..][1..] == chunks[i + 1..];
    assert buffer + Concat(chunks[i..]) == (buffer + chunks[i]) + later;
    SplitExtends(buffer + chunks[i], later, BLOCK_END);
    LastPieceUnfinished(buffer + chunks[i], BLOCK_END);
  }

  /** What a single block contributes. */
  function One<D>(block: string, dec: string -> Option<D>): Outcome<D> {
    match ParseBlock(block, dec)
    case None => Outcome([], None)
    case Some(e) => if e.kind == "error" then Outcome([], Some(e.data)) else Outcome([e], None)
  }

  lemma DeliverCons<D>(block: string, rest: seq<string>, dec: string -> Option<D>)
    ensures Deliver([block] + rest, dec) == Then(One(block, dec), Deliver(rest, dec))
  {
    assert ([block] + rest)[1..] == rest;
    assert [] + Deliver(rest, dec).delivered == Deliver(rest, dec).delivered;
  }

  lemma {:induction false} DeliverAppend<D>(p: seq<string>, q: seq<string>, dec: string -> Option<D>)
    ensures Deliver(p + q, dec) == Then(Deliver(p, dec), Deliver(q, dec))
  {
    if p == [] {
      assert p + q == q;
      assert [] + Deliver(q, dec).delivered == Deliver(q, dec).delivered;
    } else {
      var rest := p[1..];
      assert p + q == [p[0]] + (rest + q) && p == [p[0]] + rest;
      DeliverAppend(rest, q, dec);
      DeliverCons(p[0], rest + q, dec);
      DeliverCons(p[0], rest, dec);
      ThenThen(One(p[0], dec), Deliver(rest, dec), Deliver(q, dec));
    }
  }

  /** The inner loop: the complete blocks of one read, up to an error. */
  method DeliverBlocks<D>(blocks: seq<string>, before: seq<Event<D>>, dec: string -> Option<D>)
    returns (out: Outcome<D>)
    ensures out == Then(Outcome(before, None), Deliver(blocks, dec))
  {
    hide ParseBlock;
    var delivered := before;
    ghost var target := Then(Outcome(before, None), Deliver(blocks, dec));
    assert blocks[0..] == blocks;
    for j := 0 to |blocks|
      invariant Ahead(target, delivered, blocks[j..], dec)
    {
      assert blocks[j..] == [blocks[j]] + blocks[j + 1..];
      AheadStep(target, delivered, blocks[j], blocks[j + 1..], dec);
      var event := ParseChunk(blocks[j], dec);
      if event.Some? {
        if event.value.kind == "error" {
          return Outcome(delivered, Some(event.value.data));
        }
        delivered := delivered + [event.value];
      }
    }
    assert blocks[|blocks|..] == [] && delivered + [] == delivered;
    return Outcome(delivered, None);
  }

  /**
   * The client's loop: whatever the text and wherever it was cut, it delivers the blocks of the
   * whole text, in order, once each, up to the first error event, and is left with the text after
   * the last complete block.
   */
  method StreamRequest<D>(chunks: seq<string>, dec: string -> Option<D>) returns (out: Outcome<D>, buffer: string)
    ensures out == Deliver(Split(Concat(chunks), BLOCK_END), dec)
    ensures out.thrown == None ==> buffer == LastPiece(Split(Concat(chunks), BLOCK_END))
  {
    buffer := "";
    out := Outcome([], None);
    ghost var target := Deliver(Split(Concat(chunks), BLOCK_END), dec);
    assert chunks[0..] == chunks && "" + Concat(chunks) == Concat(chunks);
    assert [] + target.delivered == target.delivered;
    for i := 0 to |chunks|
      invariant out.thrown == None
      invariant Split(buffer, BLOCK_END) == [buffer]
      invariant Ahead(target, out.delivered, Split(buffer + Concat(chunks[i..]), BLOCK_END), dec)
      invariant LastPiece(Split(buffer + Concat(chunks[i..]), BLOCK_END)) == LastPiece(Split(Concat(chunks), BLOCK_END))
    {
      hide Split, Find, Deliver;
      var pieces := Split(buffer + chunks[i], BLOCK_END);
      ChunkArrives(target, out.delivered, buffer, chunks, i, dec);
      ChunkKeepsLast(buffer, chunks, i);
      buffer := pieces[|pieces| - 1];
      var complete := pieces[..|pieces| - 1];
      ghost var later := Split(buffer + Concat(chunks[i + 1..]), BLOCK_END);
      DeliverAppend(complete, later, dec);
      ThenThen(Outcome(out.delivered, None), Deliver(complete, dec), Deliver(later, dec));
      out := DeliverBlocks(complete, out.delivered, dec);
      if out.thrown.Some? {
        return;
      }
    }
    assert chunks[|chunks|..] == [] && buffer + "" == buffer;
    out := DeliverBlocks([buffer], out.delivered, dec);
  }

  lemma ThenThen<D>(a: Outcome<D>, b: Outcome<D>, c: Outcome<D>)
    ensures Then(a, Then(b, c)) == Then(Then(a, b), c)
  {
    assert a.delivered + (b.delivered + c.delivered) == a.delivered + b.delivered + c.delivered;
  }

  /* ---------- the printer ---------- */

  /** An item of the server's stream: an event name and its data. */
  datatype Item<D> = Item(name: string, data: D)

  function Printed<D>(item: Item<D>, enc: D -> string): string {
    "event: " + item.name + "\n" + "data: " + enc(item.data) + "\n\n"
  }

  function Stream<D>(items: seq<Item<D>>, enc: D -> string): string {
    if items == [] then "" else Printed(items[0], enc) + Stream(items[1..], enc)
  }

  /** The items the server sends: an error item closes the stream when the source raised. */
  function Sent<D>(items: seq<Item<D>>, raised: Option<D>): seq<Item<D>> {
    items + (if raised.Some? then [Item("error", raised.value)] else [])
  }

  lemma {:induction false} StreamAppend<D>(items: seq<Item<D>>, last: Item<D>, enc: D -> string)
    ensures Stream(items + [last], enc) == Stream(items, enc) + Printed(last, enc)
  {
    if items == [] {
      assert items + [last] == [last];
      assert [last][1..] == [];
    } else {
      assert (items + [last])[1..] == items[1..] + [last];
      StreamAppend(items[1..], last, enc);
    }
  }

  lemma ItemWritten<D>(written: seq<string>, item: Item<D>, enc: D -> string)
    ensures Concat(written + ["event: " + item.name + "\n", "data: " + enc(item.data) + "\n\n"])
            == Concat(written) + Printed(item, enc)
  {
    var first, second := "event: " + item.name + "\n", "data: " + enc(item.data) + "\n\n";
    ConcatAppend(written, [first, second]);
    TwoPieces(first, second);
    Regroup(first, "data: ", enc(item.data), "\n\n");
  }

  lemma TwoPieces(a: string, b: string)
    ensures Concat([a, b]) == a + b
  {
    assert [a, b][1..] == [b] && [b][1..] == [];
    assert Concat([b]) == b + "" == b;
  }

  lemma Regroup(a: string, b: string, c: string, d: string)
    ensures a + (b + c + d) == a + b + c + d
  {
  }

  /** The generator: it yields the two lines of each item, and an error item if the source raised. */
  method Encode<D>(items: seq<Item<D>>, raised: Option<D>, enc: D -> string) returns (written: seq<string>)
    ensures Concat(written) == Stream(Sent(items, raised), enc)
  {
    written := [];
    for i := 0 to |items|
      invariant Concat(written) == Stream(items[..i], enc)
    {
      ItemWritten(written, items[i], enc);
      StreamAppend(items[..i], items[i], enc);
      assert items[..i + 1] == items[..i] + [items[i]];
      written := written + ["event: " + items[i].name + "\n", "data: " + enc(items[i].data) + "\n\n"];
    }
    assert items[..|items|] == items;
    if raised.Some? {
      ItemWritten(written, Item("error", raised.value), enc);
      StreamAppend(items, Item("error", raised.value), enc);
      written := written + ["event: " + "error" + "\n", "data: " + enc(raised.value) + "\n\n"];
    } else {
      assert Sent(items, raised) == items;
    }
  }

  lemma {:induction false} ConcatAppend(p: seq<string>, q: seq<string>)
    ensures Concat(p + q) == Concat(p) + Concat(q)
  {
    if p == [] {
      assert p + q == q;
    } else {
      assert (p + q)[1..] == p[1..] + q;
      ConcatAppend(p[1..], q);
    }
  }

  /* ---------- the round trip ---------- */

  /** A name the line format can carry. */
  predicate Carried(name: string) {
    '\n' !in name && Trim(name, JsBlank) == name
  }

  lemma BlockIsSplitOff<D>(item: Item<D>, enc: D -> string, rest: string)
    requires '\n' !in item.name && enc(item.data) != "" && '\n' !in enc(item.data)
    ensures var block := "event: " + item.name + "\n" + "data: " + enc(item.data);
            Split(Printed(item, enc) + rest, BLOCK_END) == [block] + Split(rest, BLOCK_END)
  {
    var head, body := "event: " + item.name, "data: " + enc(item.data);
    var block := head + "\n" + body;
    var s := block + BLOCK_END + rest;
    assert Printed(item, enc) + rest == s;
    assert s[|block|] == '\n' && s[|block| + 1] == '\n';
    assert s[|block|..|block| + 2] == BLOCK_END;
    forall i | 0 <= i < |block| ensures !At(s, i, BLOCK_END) {
      if i != |head| {
        assert s[i] == block[i] != '\n';
        assert s[i..i + 2][0] != BLOCK_END[0];
      } else {
        assert s[i + 1] == body[0] == 'd';
        assert s[i..i + 2][1] != BLOCK_END[1];
      }
    }
    assert At(s, |block|, BLOCK_END);
    SplitFirst(block, BLOCK_END, rest);
  }

  lemma TwoLines(a: string, b: string)
    requires '\n' !in a && '\n' !in b
    ensures Split(a + "\n" + b, LINE_END) == [a, b]
  {
    var s := a + LINE_END + b;
    assert s[|a|..|a| + 1] == LINE_END;
    forall i | 0 <= i < |a| ensures !At(s, i, LINE_END) {
      assert s[i..i + 1][0] == a[i];
    }
    assert At(s, |a|, LINE_END);
    SplitFirst(a, LINE_END, b);
    forall i | 0 <= i < |b| ensures !At(b, i, LINE_END) {
      assert b[i..i + 1][0] == b[i];
    }
    assert Find(b, LINE_END) == |b|;
  }

  lemma TrimStartVisible(s: string)
    requires s == "" || !JsBlank(s[0])
    ensures TrimStart(" " + s, JsBlank) == s
  {
    assert (" " + s)[1..] == s;
  }

  lemma {:induction false} TrimStartFixed(s: string)
    ensures TrimStart(s, JsBlank) == "" || !JsBlank(TrimStart(s, JsBlank)[0])
    ensures |TrimStart(s, JsBlank)| <= |s|
    ensures |TrimStart(s, JsBlank)| == |s| ==> TrimStart(s, JsBlank) == s
  {
    if s != "" && JsBlank(s[0]) {
      TrimStartFixed(s[1..]);
    }
  }

  lemma {:induction false} TrimEndShorter(s: string)
    ensures |TrimEnd(s, JsBlank)| <= |s|
    decreases |s|
  {
    if s != "" && JsBlank(s[|s| - 1]) {
      TrimEndShorter(s[..|s| - 1]);
    }
  }

  lemma TrimSpaced(name: string)
    requires Trim(name, JsBlank) == name
    ensures Trim(" " + name, JsBlank) == name
  {
    TrimStartFixed(name);
    TrimEndShorter(TrimStart(name, JsBlank));
    assert TrimStart(name, JsBlank) == name;
    TrimStartVisible(name);
  }

  lemma {:induction false} VisibleSurvivesTrimEnd(s: string)
    requires s != "" && !JsBlank(s[0])
    ensures TrimEnd(s, JsBlank) != ""
    decreases |s|
  {
    if JsBlank(s[|s| - 1]) {
      assert s[..|s| - 1][0] == s[0];
      VisibleSurvivesTrimEnd(s[..|s| - 1]);
    }
  }

  lemma LinesReadBack(name: string, json: string)
    requires Carried(name) && json != "" && !JsBlank(json[0])
    ensures var lines := ["event: " + name, "data: " + json];
            KindOf(lines) == name && DataLines(lines) == [json]
  {
    var a, b := "event: " + name, "data: " + json;
    assert a[0..6] == "event:" && a[6..] == " " + name;
    assert b[0..5] == "data:" && b[5..] == " " + json;
    assert a[0..5][0] == 'e';
    assert b[0..6][0] == 'd';
    TrimSpaced(name);
    TrimStartVisible(json);
    assert [a, b][..1] == [a] && [a][..0] == [];
    assert KindOf([a]) == name;
    assert DataLines([a]) == DataLines([]) + [];
  }

  lemma BlockReadsBack<D(!new)>(item: Item<D>, codec: Codec<D>)
    requires Faithful(codec) && Carried(item.name)
    ensures ParseBlock("event: " + item.name + "\n" + "data: " + codec.enc(item.data), codec.dec)
            == Some(Event(item.name, Json(item.data)))
  {
    hide TrimStart, TrimEnd, Split, KindOf, DataLines;
    var json := codec.enc(item.data);
    var first, second := "event: " + item.name, "data: " + json;
    Associate(first, "\n", "data: ", json);
    assert first[0] == 'e';
    VisibleBlock(first + "\n" + second);
    TwoLines(first, second);
    LinesReadBack(item.name, json);
  }

  lemma Associate(a: string, b: string, c: string, d: string)
    ensures a + b + (c + d) == a + b + c + d
  {
  }

  lemma VisibleBlock(block: string)
    requires block != "" && !JsBlank(block[0])
    ensures Trim(block, JsBlank) != ""
  {
    assert TrimStart(block, JsBlank) == block;
    VisibleSurvivesTrimEnd(block);
  }

  /** Several data lines are one text with line feeds; without an event line the event is a message. */
  lemma DataLinesJoined<D>(first: string, second: string, dec: string -> Option<D>)
    requires '\n' !in first && '\n' !in second && first != "" && !JsBlank(first[0])
    requires second != "" && !JsBlank(second[0])
    ensures ParseBlock("data:" + first + "\n" + "data:" + second, dec)
            == Some(Event("message", match dec(first + "\n" + second) case Some(d) => Json(d)
                                     case None => Raw(first + "\n" + second)))
  {
    hide Split, TrimEnd;
    var a, b := "data:" + first, "data:" + second;
    var lines := [a, b];
    Associate(a, "\n", "data:", second);
    assert a[0] == 'd' && b[0] == 'd';
    assert a[0..5] == "data:" && a[5..] == first && b[0..5] == "data:" && b[5..] == second;
    assert a[0] != "event:"[0] && b[0] != "event:"[0];
    NotPrefixed(a, "event:");
    NotPrefixed(b, "event:");
    VisibleBlock(a + "\n" + b);
    TwoLines(a, b);
    assert lines[..1] == [a] && [a][..0] == [];
    assert DataLines([a]) == DataLines([]) + [first];
    assert DataLines(lines) == [first, second];
    assert KindOf(lines) == KindOf([a]) == KindOf([]) == "message";
    assert [first, second][1..] == [second];
    assert Join([first, second], LINE_END) == first + LINE_END + second;
  }

  lemma NotPrefixed(s: string, p: string)
    requires s != "" && p != "" && s[0] != p[0]
    ensures !Prefixed(s, p)
  {
    if |p| <= |s| {
      assert s[0..|p|][0] == s[0];
    }
  }

  function Received<D>(item: Item<D>): Event<D> { Event(item.name, Json(item.data)) }

  /** Printed items come back as they were, up to the first error item, whose data is thrown. */
  function Expected<D>(items: seq<Item<D>>): Outcome<D> {
    if items == [] then Outcome([], None)
    else if items[0].name == "error" then Outcome([], Some(Json(items[0].data)))
    else
      var rest := Expected(items[1..]);
      Outcome([Received(items[0])] + rest.delivered, rest.thrown)
  }

  lemma {:induction false} StreamReadsBack<D(!new)>(items: seq<Item<D>>, codec: Codec<D>)
    requires Faithful(codec)
    requires forall item :: item in items ==> Carried(item.name)
    ensures Deliver(Split(Stream(items, codec.enc), BLOCK_END), codec.dec) == Expected(items)
  {
    if items == [] {
      assert Split("", BLOCK_END) == [""];
      assert [""][1..] == [];
      assert ParseBlock("", codec.dec) == None;
    } else {
      var item := items[0];
      var rest := Stream(items[1..], codec.enc);
      var block := "event: " + item.name + "\n" + "data: " + codec.enc(item.data);
      BlockIsSplitOff(item, codec.enc, rest);
      BlockReadsBack(item, codec);
      StreamReadsBack(items[1..], codec);
      var blocks := [block] + Split(rest, BLOCK_END);
      assert blocks[1..] == Split(rest, BLOCK_END);
    }
  }

  /** After the last printed block nothing is left over. */
  lemma {:induction false} StreamEndsEmpty<D(!new)>(items: seq<Item<D>>, codec: Codec<D>)
    requires Faithful(codec)
    requires forall item :: item in items ==> Carried(item.name)
    ensures LastPiece(Split(Stream(items, codec.enc), BLOCK_END)) == ""
  {
    if items == [] {
      assert Split("", BLOCK_END) == [""];
    } else {
      StreamEndsEmpty(items[1..], codec);
      BlockIsSplitOff(items[0], codec.enc, Stream(items[1..], codec.enc));
    }
  }

  lemma {:induction false} WithoutErrors<D>(items: seq<Item<D>>)
    requires forall item :: item in items ==> item.name != "error"
    ensures Expected(items).thrown == None
    ensures |Expected(items).delivered| == |items|
    ensures forall i :: 0 <= i < |items| ==> Expected(items).delivered[i] == Received(items[i])
  {
    if items != [] {
      WithoutErrors(items[1..]);
    }
  }

  lemma SentIsCarried<D>(items: seq<Item<D>>, raised: Option<D>)
    requires forall item :: item in items ==> Carried(item.name)
    ensures forall item :: item in Sent(items, raised) ==> Carried(item.name)
  {
    assert Carried("error");
  }

  /**
   * Stream round trip. For every list of non-error items, a failure of the source or none, and
   * every way of cutting the printed text into chunks: the client delivers exactly those events,
   * in order, once each, throws exactly the failure's data, if there was one, and nothing is left
   * over in its buffer.
   */
  lemma RoundTrip<D(!new)>(items: seq<Item<D>>, raised: Option<D>, codec: Codec<D>, chunks: seq<string>)
    requires Faithful(codec)
    requires forall item :: item in items ==> Carried(item.name) && item.name != "error"
    requires Concat(chunks)
             == Stream(Sent(items, raised), codec.enc)
    ensures var out := Deliver(Split(Concat(chunks), BLOCK_END), codec.dec);
            && |out.delivered| == |items|
            && (forall i :: 0 <= i < |items| ==>
                  out.delivered[i] == Event(items[i].name, Json(items[i].data)))
            && out.thrown == (if raised.Some? then Some(Json(raised.value)) else None)
    ensures LastPiece(Split(Concat(chunks), BLOCK_END)) == ""
  {
    SentIsCarried(items, raised);
    StreamEndsEmpty(Sent(items, raised), codec);
    StreamReadsBack(Sent(items, raised), codec);
    ExpectedOfSent(items, raised);
    WithoutErrors(items);
  }

  lemma {:induction false} ExpectedOfSent<D>(items: seq<Item<D>>, raised: Option<D>)
    requires forall item :: item in items ==> item.name != "error"
    ensures Expected(Sent(items, raised))
            == Outcome(Expected(items).delivered,
                                      if raised.Some? then Some(Json(raised.value)) else None)
  {
    var tail := if raised.Some? then [Item("error", raised.value)] else [];
    if items == [] {
      assert items + tail == tail;
    } else {
      assert (items + tail)[1..] == items[1..] + tail;
      ExpectedOfSent(items[1..], raised);
    }
  }
}
