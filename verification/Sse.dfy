/** The incremental server-sent-events reader and the frames the API writes. */
module Sse {
  import opened Text

  datatype Event = Event(name: string, data: string)

  // ---- Cutting text into blocks and lines

  /** Index of the first blank-line break, or the length. */
  function FirstBreak(s: string): (i: nat)
    ensures i <= |s|
    ensures i < |s| ==> i + 1 < |s| && s[i] == '\n' && s[i + 1] == '\n'
  {
    if |s| < 2 then |s| else if s[0] == '\n' && s[1] == '\n' then 0 else 1 + FirstBreak(s[1..])
  }

  /** The complete blocks of a buffer, and the unfinished text behind the last break. */
  function Blocks(s: string): (seq<string>, string)
    decreases |s|
  {
    var i := FirstBreak(s);
    if i == |s| then ([], s)
    else
      var (blocks, rest) := Blocks(s[i + 2..]);
      ([s[..i]] + blocks, rest)
  }

  function Lines(s: string): (lines: seq<string>)
    ensures |lines| > 0
    decreases |s|
  {
    var i := IndexOf(s, '\n');
    if i == |s| then [s] else [s[..i]] + Lines(s[i + 1..])
  }

  // ---- One block

  function DropSpace(s: string): string {
    if s != "" && s[0] == ' ' then s[1..] else s
  }

  /** The last `event:` line names the event. */
  function NameOf(lines: seq<string>): string {
    if lines == [] then "message"
    else
      var last := lines[|lines| - 1];
      if "event:" <= last then Trim(last[6..]) else NameOf(lines[..|lines| - 1])
  }

  function DataOf(lines: seq<string>): seq<string> {
    if lines == [] then []
    else
      var last := lines[|lines| - 1];
      var before := DataOf(lines[..|lines| - 1]);
      if "data:" <= last then before + [DropSpace(last[5..])] else before
  }

  function Emitted(block: string): seq<Event> {
    var data := DataOf(Lines(block));
    if data == [] then [] else [Event(NameOf(Lines(block)), Join(data))]
  }

  function AllEmitted(blocks: seq<string>): seq<Event> {
    if blocks == [] then [] else AllEmitted(blocks[..|blocks| - 1]) + Emitted(blocks[|blocks| - 1])
  }

  /** What one call of `consume` emits and hands back. */
  function Consumed(buffer: string): (seq<Event>, string) {
    var (blocks, rest) := Blocks(buffer);
    (AllEmitted(blocks), rest)
  }

  // ---- The reader

  method ReadBlock(block: string) returns (events: seq<Event>)
    ensures events == Emitted(block)
  {
    hide Lines, Trim, Join;
    var name := "message";
    var data: seq<string> := [];
    var lines := Lines(block);
    for j := 0 to |lines|
      invariant name == NameOf(lines[..j]) && data == DataOf(lines[..j])
    {
      assert lines[..j + 1][..j] == lines[..j];
      if "event:" <= lines[j] {
        name := Trim(lines[j][6..]);
        assert !("data:" <= lines[j]) by {
          assert lines[j][0] == 'e';
        }
      } else if "data:" <= lines[j] {
        data := data + [DropSpace(lines[j][5..])];
      }
    }
    assert lines[..|lines|] == lines;
    events := if |data| > 0 then [Event(name, Join(data))] else [];
  }

  class HeaderEventSource {
    var buffer: string
    var emitted: seq<Event>
    var open: bool

    constructor ()
      ensures buffer == "" && emitted == [] && open
    {
      buffer, emitted, open := "", [], true;
    }

    method Close()
      modifies this
      ensures !open && buffer == old(buffer) && emitted == old(emitted)
    {
      open := false;
    }

    /** `consume` */
    method Consume(text: string) returns (rest: string)
      modifies this`emitted
      ensures emitted == old(emitted) + Consumed(text).0 && rest == Consumed(text).1
    {
      hide Blocks, Emitted;
      var (blocks, tail) := Blocks(text);
      for i := 0 to |blocks|
        invariant emitted == old(emitted) + AllEmitted(blocks[..i])
      {
        var events := ReadBlock(blocks[i]);
        emitted := emitted + events;
        assert blocks[..i + 1][..i] == blocks[..i];
      }
      assert blocks[..|blocks|] == blocks;
      rest := tail;
    }

    /** The body of the read loop for one chunk. */
    method Receive(chunk: string)
      requires open
      modifies this`buffer, this`emitted
      ensures emitted == old(emitted) + Consumed(old(buffer) + chunk).0
      ensures buffer == Consumed(old(buffer) + chunk).1
    {
      buffer := Consume(buffer + chunk);
    }
  }

  // ---- Chunking does not matter

  lemma {:induction false} FirstBreakAppend(u: string, v: string)
    ensures FirstBreak(u) < |u| ==> FirstBreak(u + v) == FirstBreak(u)
  {
    if |u| >= 2 && !(u[0] == '\n' && u[1] == '\n') {
      FirstBreakAppend(u[1..], v);
      assert (u + v)[1..] == u[1..] + v;
    }
  }

  lemma {:induction false} AllEmittedConcat(a: seq<string>, b: seq<string>)
    ensures AllEmitted(a + b) == AllEmitted(a) + AllEmitted(b)
  {
    hide Emitted;
    if b == [] {
      assert a + b == a;
    } else {
      AllEmittedConcat(a, b[..|b| - 1]);
      assert (a + b)[..|a + b| - 1] == a + b[..|b| - 1];
    }
  }

  lemma BlocksCons(s: string)
    requires FirstBreak(s) < |s|
    ensures Blocks(s).0 == [s[..FirstBreak(s)]] + Blocks(s[FirstBreak(s) + 2..]).0
    ensures Blocks(s).1 == Blocks(s[FirstBreak(s) + 2..]).1
  {
    hide FirstBreak;
  }

  lemma {:induction false} BlocksAppend(u: string, v: string)
    ensures Blocks(u + v).0 == Blocks(u).0 + Blocks(Blocks(u).1 + v).0
    ensures Blocks(u + v).1 == Blocks(Blocks(u).1 + v).1
    decreases |u|
  {
    hide FirstBreak, Blocks;
    var i := FirstBreak(u);
    if i < |u| {
      var after := u[i + 2..];
      FirstBreakAppend(u, v);
      BlocksAppend(after, v);
      BlocksCons(u);
      BlocksCons(u + v);
      assert (u + v)[..i] == u[..i] && (u + v)[i + 2..] == after + v;
    } else {
      NoBlocks(u);
    }
  }

  lemma NoBlocks(s: string)
    requires FirstBreak(s) == |s|
    ensures Blocks(s) == ([], s)
  {
  }

  function Concat(chunks: seq<string>): string {
    if chunks == [] then "" else chunks[0] + Concat(chunks[1..])
  }

  /** Feeding chunks one after the other, starting from a buffer. */
  function Fed(buffer: string, chunks: seq<string>): (seq<Event>, string)
    decreases |chunks|
  {
    if chunks == [] then ([], buffer)
    else
      var (events, rest) := Consumed(buffer + chunks[0]);
      var (more, last) := Fed(rest, chunks[1..]);
      (events + more, last)
  }

  lemma ConsumedAppend(u: string, v: string)
    ensures var (events, rest) := Consumed(u);
            var (more, tail) := Consumed(rest + v);
            Consumed(u + v) == (events + more, tail)
  {
    hide Blocks, AllEmitted;
    BlocksAppend(u, v);
    AllEmittedConcat(Blocks(u).0, Blocks(Blocks(u).1 + v).0);
  }

  lemma NothingYet(buffer: string)
    requires FirstBreak(buffer) == |buffer|
    ensures Consumed(buffer) == ([], buffer)
  {
  }

  /** However the stream is cut, the events and the leftover text are those of one call on the whole. */
  lemma {:induction false} ChunkingIsInvisible(buffer: string, chunks: seq<string>)
    requires FirstBreak(buffer) == |buffer|
    ensures Fed(buffer, chunks) == Consumed(buffer + Concat(chunks))
    decreases |chunks|
  {
    hide Consumed, FirstBreak;
    if chunks == [] {
      assert buffer + "" == buffer;
      NothingYet(buffer);
    } else {
      var text := buffer + chunks[0];
      RestIsUnbroken(text);
      ChunkingIsInvisible(Consumed(text).1, chunks[1..]);
      ConsumedAppend(text, Concat(chunks[1..]));
      assert text + Concat(chunks[1..]) == buffer + Concat(chunks);
    }
  }

  lemma {:induction false} RestIsUnbroken(s: string)
    ensures FirstBreak(Blocks(s).1) == |Blocks(s).1|
    ensures FirstBreak(Consumed(s).1) == |Consumed(s).1|
    decreases |s|
  {
    hide FirstBreak, Blocks, AllEmitted;
    var i := FirstBreak(s);
    if i < |s| {
      BlocksCons(s);
      RestIsUnbroken(s[i + 2..]);
    } else {
      NoBlocks(s);
    }
  }

  // ---- The frames the API writes

  datatype Frame = Comment(text: string) | Named(name: string, data: string) | Bare(data: string)

  function Encode(f: Frame): string {
    match f
    case Comment(text) => ": " + text + "\n\n"
    case Named(name, data) => "event: " + name + "\ndata: " + data + "\n\n"
    case Bare(data) => "data: " + data + "\n\n"
  }

  function EncodeAll(frames: seq<Frame>): string {
    if frames == [] then "" else Encode(frames[0]) + EncodeAll(frames[1..])
  }

  predicate Unbroken(s: string) {
    '\n' !in s
  }

  predicate Clean(f: Frame) {
    match f
    case Comment(text) => Unbroken(text)
    case Named(name, data) => Unbroken(name) && Trimmed(name) && Unbroken(data)
    case Bare(data) => Unbroken(data)
  }

  function Meaning(frames: seq<Frame>): seq<Event> {
    if frames == [] then [] else MeaningOf(frames[0]) + Meaning(frames[1..])
  }

  lemma {:induction false} UnbrokenIsALine(s: string)
    requires Unbroken(s)
    ensures Lines(s) == [s]
  {
  }

  lemma TwoLines(a: string, b: string)
    requires Unbroken(a) && Unbroken(b)
    ensures Lines(a + "\n" + b) == [a, b]
  {
    IndexOfAt(a, '\n', b);
    var s := a + "\n" + b;
    assert s[..|a|] == a && s[|a| + 1..] == b;
    UnbrokenIsALine(b);
  }

  /** Every newline is followed by some other character. */
  predicate Whole(block: string) {
    forall i :: 0 <= i < |block| && block[i] == '\n' ==> i + 1 < |block| && block[i + 1] != '\n'
  }

  /** Such a block is cut off exactly at the break behind it. */
  lemma {:induction false} FirstBreakAfter(block: string, rest: string)
    requires Whole(block)
    ensures FirstBreak(block + "\n\n" + rest) == |block|
  {
    var s := block + "\n\n" + rest;
    if block != "" {
      var tail := block[1..];
      assert s[0] == block[0] && s[1..] == tail + "\n\n" + rest;
      assert |block| > 1 ==> s[1] == block[1];
      assert Whole(tail) by {
        assert forall i :: 0 <= i < |tail| ==> tail[i] == block[i + 1];
      }
      FirstBreakAfter(tail, rest);
    }
  }

  /** The text of a frame without its closing break. */
  function Body(f: Frame): string {
    match f
    case Comment(text) => ": " + text
    case Named(name, data) => ("event: " + name) + "\n" + ("data: " + data)
    case Bare(data) => "data: " + data
  }

  /** What one more line adds. */
  lemma NextLineOf(lines: seq<string>, line: string)
    ensures NameOf(lines + [line]) == if "event:" <= line then Trim(line[6..]) else NameOf(lines)
    ensures DataOf(lines + [line]) == if "data:" <= line then DataOf(lines) + [DropSpace(line[5..])] else DataOf(lines)
  {
    hide Trim, DropSpace;
    assert (lines + [line])[..|lines|] == lines;
  }

  lemma OneLineOf(line: string)
    ensures NameOf([line]) == if "event:" <= line then Trim(line[6..]) else "message"
    ensures DataOf([line]) == if "data:" <= line then [DropSpace(line[5..])] else []
  {
    hide Trim, DropSpace;
    NextLineOf([], line);
    assert [] + [line] == [line];
  }

  lemma CommentEmits(text: string)
    requires Unbroken(text)
    ensures Emitted(": " + text) == []
  {
    var line := ": " + text;
    hide Lines, DataOf;
    UnbrokenIsALine(line);
    assert line[0] == ':';
    OneLineOf(line);
  }

  lemma DataLine(data: string)
    ensures "data:" <= "data: " + data && !("event:" <= "data: " + data) && ("data: " + data)[5..] == " " + data
  {
    assert ("data: " + data)[0] == 'd';
  }

  lemma NameLine(name: string)
    requires Trimmed(name)
    ensures "event:" <= "event: " + name && !("data:" <= "event: " + name)
    ensures Trim(("event: " + name)[6..]) == name
  {
    var a := "event: " + name;
    assert a[0] == 'e' && a[6..] == " " + name;
    TrimSpace(name);
  }

  lemma NamedEmits(name: string, data: string)
    requires Clean(Named(name, data))
    ensures Emitted(("event: " + name) + "\n" + ("data: " + data)) == [Event(name, data)]
  {
    hide Lines, Trim, Trimmed, NameOf, DataOf;
    var a, b := "event: " + name, "data: " + data;
    TwoLines(a, b);
    DataLine(data);
    NameLine(name);
    OneLineOf(a);
    NextLineOf([a], b);
    assert DropSpace(" " + data) == data && [a] + [b] == [a, b];
  }

  lemma BareEmits(data: string)
    requires Unbroken(data)
    ensures Emitted("data: " + data) == [Event("message", data)]
  {
    hide Lines, Trim, NameOf, DataOf;
    var b := "data: " + data;
    UnbrokenIsALine(b);
    DataLine(data);
    OneLineOf(b);
    assert DropSpace(" " + data) == data;
  }

  function MeaningOf(f: Frame): seq<Event> {
    match f
    case Comment(_) => []
    case Named(name, data) => [Event(name, data)]
    case Bare(data) => [Event("message", data)]
  }

  lemma BodyEmits(f: Frame)
    requires Clean(f)
    ensures Emitted(Body(f)) == MeaningOf(f)
  {
    hide Emitted;
    match f
    case Comment(text) => CommentEmits(text);
    case Named(name, data) => NamedEmits(name, data);
    case Bare(data) => BareEmits(data);
  }

  lemma TrimSpace(name: string)
    requires Trimmed(name)
    ensures Trim(" " + name) == name
  {
    hide Trim;
    TrimSkips(' ', name);
    TrimmedTrims(name);
  }

  lemma TwoLinesAreWhole(a: string, b: string)
    requires Unbroken(a) && Unbroken(b) && b != ""
    ensures Whole(a + "\n" + b)
  {
    var s := a + "\n" + b;
    assert forall i :: 0 <= i < |a| ==> s[i] == a[i] && a[i] in a;
    assert forall i :: |a| < i < |s| ==> s[i] == b[i - |a| - 1] && b[i - |a| - 1] in b;
  }

  lemma BodyIsABlock(f: Frame, rest: string)
    requires Clean(f)
    ensures FirstBreak(Encode(f) + rest) == |Body(f)| && |Encode(f) + rest| > |Body(f)| + 1
    ensures (Encode(f) + rest)[..|Body(f)|] == Body(f) && (Encode(f) + rest)[|Body(f)| + 2..] == rest
  {
    hide FirstBreak;
    var body := Body(f);
    assert Encode(f) == body + "\n\n";
    assert Encode(f) + rest == body + "\n\n" + rest;
    if f.Named? {
      TwoLinesAreWhole("event: " + f.name, "data: " + f.data);
    } else {
      assert Unbroken(body);
      assert Whole(body);
    }
    FirstBreakAfter(body, rest);
  }

  /** A clean frame in front of any text adds its own events and nothing else. */
  lemma FrameInFront(f: Frame, rest: string)
    requires Clean(f)
    ensures Consumed(Encode(f) + rest) == (MeaningOf(f) + Consumed(rest).0, Consumed(rest).1)
  {
    hide FirstBreak, Emitted, AllEmitted, Encode, Body, Blocks, MeaningOf;
    BodyIsABlock(f, rest);
    BodyEmits(f);
    BlocksCons(Encode(f) + rest);
    AllEmittedConcat([Body(f)], Blocks(rest).0);
    OneBlock(Body(f));
  }

  lemma OneBlock(block: string)
    ensures AllEmitted([block]) == Emitted(block)
  {
    assert AllEmitted([block][..0]) == [];
  }

  /** For any sequence of frames the reader emits exactly what was written, in order, and keeps no text. */
  lemma {:induction false} FramesRoundTrip(frames: seq<Frame>)
    requires forall f <- frames :: Clean(f)
    ensures Consumed(EncodeAll(frames)) == (Meaning(frames), "")
  {
    if frames == [] {
      NothingYet("");
    } else {
      hide Consumed, Encode;
      FramesRoundTrip(frames[1..]);
      FrameInFront(frames[0], EncodeAll(frames[1..]));
    }
  }

  /** The two together: any chunking of any sequence of clean frames. */
  lemma StreamDelivers(frames: seq<Frame>, chunks: seq<string>)
    requires forall f <- frames :: Clean(f)
    requires Concat(chunks) == EncodeAll(frames)
    ensures Fed("", chunks) == (Meaning(frames), "")
  {
    ChunkingIsInvisible("", chunks);
    FramesRoundTrip(frames);
    assert "" + Concat(chunks) == Concat(chunks);
  }
}
