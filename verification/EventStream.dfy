/**
 * The wire format of an event stream, and the decoder that reassembles frames from chunks.
 *
 * A restricted form of sections 9.2.5 and 9.2.6 of the WHATWG HTML standard: one `event` and one
 * `data` line a frame, no carriage returns.
 */
module EventStream {
  import opened Common

  const FRAME_SEPARATOR := "\n\n"
  const EVENT_PREFIX := "event: "
  const DATA_PREFIX := "data: "
  const EXPIRED_EVENT := "expired"

  // ---------------------------------------------------------------- blocks

  /** The position of the first blank line, or the length of the text if there is none. */
  function BlankAt(s: string): (i: nat)
    ensures i <= |s| && (i < |s| ==> i + 2 <= |s|)
  {
    if s == "" then 0
    else if StartsWith(s, FRAME_SEPARATOR) then 0
    else 1 + BlankAt(s[1..])
  }

  /** The blocks a text completes, and what remains of it. */
  datatype Drained = Drained(blocks: seq<string>, rest: string)

  function Drain(s: string): Drained
    decreases |s|
  {
    var i := BlankAt(s);
    if i == |s| then Drained([], s)
    else
      var after := Drain(s[i + 2..]);
      Drained([s[..i]] + after.blocks, after.rest)
  }

  /** More text does not move a blank line that is already there. */
  lemma {:induction false} BlankStays(s: string, more: string)
    requires BlankAt(s) < |s|
    ensures BlankAt(s + more) == BlankAt(s)
  {
    if !StartsWith(s, FRAME_SEPARATOR) {
      assert (s + more)[1..] == s[1..] + more;
      assert |s| >= 2 ==> (s + more)[..2] == s[..2];
      BlankStays(s[1..], more);
    } else {
      assert (s + more)[..2] == s[..2];
    }
  }

  /** The first block of a text that has a blank line, and what follows it. */
  lemma {:induction false} DrainFirst(head: string, tail: string)
    requires BlankAt(head + FRAME_SEPARATOR + tail) == |head|
    ensures Drain(head + FRAME_SEPARATOR + tail) == Drained([head] + Drain(tail).blocks, Drain(tail).rest)
  {
    var s := head + FRAME_SEPARATOR + tail;
    assert s[..|head|] == head && s[|head| + 2..] == tail;
  }

  lemma {:induction false} BlankIsThere(s: string)
    requires BlankAt(s) < |s|
    ensures s[BlankAt(s)] == '\n' == s[BlankAt(s) + 1]
  {
    if !StartsWith(s, FRAME_SEPARATOR) {
      BlankIsThere(s[1..]);
    } else {
      assert s[..2][0] == '\n' == s[..2][1];
    }
  }

  lemma SplitAtBlank(s: string) returns (head: string, tail: string)
    requires BlankAt(s) < |s|
    ensures s == head + FRAME_SEPARATOR + tail && BlankAt(s) == |head|
    ensures head == s[..BlankAt(s)] && tail == s[BlankAt(s) + 2..]
  {
    var i := BlankAt(s);
    head, tail := s[..i], s[i + 2..];
    BlankIsThere(s);
  }

  /** Draining a text in two parts is draining it whole. */
  lemma {:induction false} DrainInParts(a: string, b: string)
    ensures var first := Drain(a); var second := Drain(first.rest + b);
      Drain(a + b) == Drained(first.blocks + second.blocks, second.rest)
    decreases |a|
  {
    if BlankAt(a) == |a| {
      assert [] + Drain(a + b).blocks == Drain(a + b).blocks;
    } else {
      var head, tail := SplitAtBlank(a);
      DrainFirst(head, tail);
      BlankStays(a, b);
      assert a + b == head + FRAME_SEPARATOR + (tail + b);
      DrainFirst(head, tail + b);
      DrainInParts(tail, b);
      var more := Drain(Drain(tail).rest + b).blocks;
      Associate([head], Drain(tail).blocks, more);
    }
  }

  // ---------------------------------------------------------------- frames

  function Lines(s: string): (lines: seq<string>)
    ensures |lines| >= 1
  {
    if s == "" then [""]
    else
      var rest := Lines(s[1..]);
      if s[0] == '\n' then [""] + rest else [[s[0]] + rest[0]] + rest[1..]
  }

  /** The event name and the payload of a block; each is that of the last line that carries it. */
  datatype Fields = Fields(name: string, data: string)

  function ReadLine(sofar: Fields, line: string): Fields {
    if StartsWith(line, EVENT_PREFIX) then sofar.(name := line[|EVENT_PREFIX|..])
    else if StartsWith(line, DATA_PREFIX) then sofar.(data := line[|DATA_PREFIX|..])
    else sofar
  }

  function ReadLines(sofar: Fields, lines: seq<string>): Fields
    decreases |lines|
  {
    if lines == [] then sofar else ReadLines(ReadLine(sofar, lines[0]), lines[1..])
  }

  function ReadBlock(block: string): Fields {
    ReadLines(Fields("", ""), Lines(block))
  }

  datatype DecodedFrame<Event> = EventFrame(event: Event) | Expired | Undecodable(name: string)

  /** `parse` reads a payload, and fails on anything that is not an event. */
  function Decode<Event>(parse: string -> Option<Event>, fields: Fields): Option<DecodedFrame<Event>> {
    if fields.name == "" then None
    else if fields.name == EXPIRED_EVENT then Some(Expired)
    else
      match parse(fields.data)
      case Some(event) => Some(EventFrame(event))
      case None => Some(Undecodable(fields.name))
  }

  function Any<T>(o: Option<T>): seq<T> {
    if o.Some? then [o.value] else []
  }

  function DecodeBlocks<Event>(parse: string -> Option<Event>, blocks: seq<string>): seq<DecodedFrame<Event>>
    decreases |blocks|
  {
    if blocks == [] then []
    else Any(Decode(parse, ReadBlock(blocks[0]))) + DecodeBlocks(parse, blocks[1..])
  }

  /** The frames of a whole text. */
  function Frames<Event>(parse: string -> Option<Event>, text: string): seq<DecodedFrame<Event>> {
    DecodeBlocks(parse, Drain(text).blocks)
  }

  lemma {:induction false} DecodeInParts<Event>(parse: string -> Option<Event>, a: seq<string>, b: seq<string>)
    ensures DecodeBlocks(parse, a + b) == DecodeBlocks(parse, a) + DecodeBlocks(parse, b)
    decreases |a|
  {
    if a == [] {
      assert a + b == b;
    } else {
      assert (a + b)[1..] == a[1..] + b;
      DecodeInParts(parse, a[1..], b);
      Associate(Any(Decode(parse, ReadBlock(a[0]))), DecodeBlocks(parse, a[1..]), DecodeBlocks(parse, b));
    }
  }

  // ---------------------------------------------------------------- the decoder

  method DecodeFrame<Event>(parse: string -> Option<Event>, block: string) returns (frame: Option<DecodedFrame<Event>>)
    ensures frame == Decode(parse, ReadBlock(block))
  {
    var name, data := "", "";
    var lines := Lines(block);
    for i := 0 to |lines|
      invariant ReadBlock(block) == ReadLines(Fields(name, data), lines[i..])
    {
      assert lines[i..][1..] == lines[i + 1..];
      if StartsWith(lines[i], EVENT_PREFIX) {
        name := lines[i][|EVENT_PREFIX|..];
      } else if StartsWith(lines[i], DATA_PREFIX) {
        data := lines[i][|DATA_PREFIX|..];
      }
    }
    if name == "" {
      return None;
    }
    if name == EXPIRED_EVENT {
      return Some(Expired);
    }
    var parsed := parse(data);
    return if parsed.Some? then Some(EventFrame(parsed.value)) else Some(Undecodable(name));
  }

  lemma {:induction false} DecodeFirst<Event>(parse: string -> Option<Event>, block: string, rest: seq<string>)
    ensures DecodeBlocks(parse, [block] + rest) == Any(Decode(parse, ReadBlock(block))) + DecodeBlocks(parse, rest)
  {
    assert ([block] + rest)[1..] == rest;
  }

  lemma {:induction false} DrainOne<Event>(parse: string -> Option<Event>, buffer: string)
    requires BlankAt(buffer) < |buffer|
    ensures var i := BlankAt(buffer); var after := Drain(buffer[i + 2..]);
      && DecodeBlocks(parse, Drain(buffer).blocks)
         == Any(Decode(parse, ReadBlock(buffer[..i]))) + DecodeBlocks(parse, after.blocks)
      && Drain(buffer).rest == after.rest
  {
    var head, tail := SplitAtBlank(buffer);
    DrainFirst(head, tail);
    DecodeFirst(parse, head, Drain(tail).blocks);
  }

  lemma AppendAny<T>(done: seq<T>, next: Option<T>, rest: seq<T>)
    ensures done + (Any(next) + rest) == (if next.Some? then done + [next.value] else done) + rest
  {
    if next.None? {
      assert [] + rest == rest;
    }
  }

  /**
   * What a text decodes to is what was decoded so far, and then what the rest of it decodes to. Said of
   * every prefix as long as the text, so as not to be unfolded.
   */
  ghost predicate DecodedSoFar<Event>(parse: string -> Option<Event>, whole: string, frames: seq<DecodedFrame<Event>>,
                                      rest: string)
  {
    forall all {:trigger Drain(all)} :: all <= whole && |all| == |whole| ==>
      && DecodeBlocks(parse, Drain(all).blocks) == frames + DecodeBlocks(parse, Drain(rest).blocks)
      && Drain(all).rest == Drain(rest).rest
  }

  lemma {:induction false} DecodedMeans<Event>(parse: string -> Option<Event>, whole: string,
      frames: seq<DecodedFrame<Event>>, rest: string)
    ensures DecodedSoFar(parse, whole, frames, rest) <==>
            && DecodeBlocks(parse, Drain(whole).blocks) == frames + DecodeBlocks(parse, Drain(rest).blocks)
            && Drain(whole).rest == Drain(rest).rest
  {
    forall all: string | all <= whole && |all| == |whole|
      ensures all == whole
    {
    }
    assert Drain(whole) == Drain(whole);
  }

  lemma {:induction false} NothingDecoded<Event>(parse: string -> Option<Event>, whole: string)
    ensures DecodedSoFar(parse, whole, [], whole)
  {
    DecodedMeans(parse, whole, [], whole);
    assert [] + DecodeBlocks(parse, Drain(whole).blocks) == DecodeBlocks(parse, Drain(whole).blocks);
  }

  lemma {:induction false} DecodedNext<Event>(parse: string -> Option<Event>, whole: string,
      frames: seq<DecodedFrame<Event>>, rest: string)
    requires DecodedSoFar(parse, whole, frames, rest) && BlankAt(rest) < |rest|
    ensures var decoded := Decode(parse, ReadBlock(rest[..BlankAt(rest)]));
      DecodedSoFar(parse, whole, if decoded.Some? then frames + [decoded.value] else frames, rest[BlankAt(rest) + 2..])
  {
    var decoded, after := Decode(parse, ReadBlock(rest[..BlankAt(rest)])), rest[BlankAt(rest) + 2..];
    DecodedMeans(parse, whole, frames, rest);
    DrainOne(parse, rest);
    AppendAny(frames, decoded, DecodeBlocks(parse, Drain(after).blocks));
    DecodedMeans(parse, whole, if decoded.Some? then frames + [decoded.value] else frames, after);
  }

  lemma {:induction false} AllDecoded<Event>(parse: string -> Option<Event>, whole: string,
      frames: seq<DecodedFrame<Event>>, rest: string)
    requires DecodedSoFar(parse, whole, frames, rest) && BlankAt(rest) == |rest|
    ensures frames == DecodeBlocks(parse, Drain(whole).blocks) && rest == Drain(whole).rest
  {
    DecodedMeans(parse, whole, frames, rest);
    assert frames + [] == frames;
  }

  class FrameDecoder<Event> {
    const parse: string -> Option<Event>
    var buffer: string

    constructor (parse: string -> Option<Event>)
      ensures buffer == "" && this.parse == parse
    {
      this.parse, buffer := parse, "";
    }

    method Push(chunk: string) returns (frames: seq<DecodedFrame<Event>>)
      modifies this
      ensures var drained := Drain(old(buffer) + chunk);
        frames == DecodeBlocks(parse, drained.blocks) && buffer == drained.rest
    {
      buffer := buffer + chunk;
      ghost var whole := buffer;
      frames := [];
      NothingDecoded(parse, whole);
      var index := BlankAt(buffer);
      while index < |buffer|
        invariant index == BlankAt(buffer) && DecodedSoFar(parse, whole, frames, buffer)
        decreases |buffer|
      {
        DecodedNext(parse, whole, frames, buffer);
        var decoded := DecodeFrame(parse, buffer[..index]);
        buffer := buffer[index + 2..];
        if decoded.Some? {
          frames := frames + [decoded.value];
        }
        index := BlankAt(buffer);
      }
      AllDecoded(parse, whole, frames, buffer);
    }
  }

  // ---------------------------------------------------------------- chunks do not matter

  function Concat(chunks: seq<string>): string {
    if chunks == [] then "" else chunks[0] + Concat(chunks[1..])
  }

  /** What a decoder yields for each chunk in turn. */
  function PushAll<Event>(parse: string -> Option<Event>, buffer: string, chunks: seq<string>): seq<seq<DecodedFrame<Event>>>
    decreases |chunks|
  {
    if chunks == [] then []
    else
      var drained := Drain(buffer + chunks[0]);
      [DecodeBlocks(parse, drained.blocks)] + PushAll(parse, drained.rest, chunks[1..])
  }

  function Flat<T>(parts: seq<seq<T>>): seq<T> {
    if parts == [] then [] else parts[0] + Flat(parts[1..])
  }

  lemma {:induction false} FlatFirst<T>(first: seq<T>, rest: seq<seq<T>>)
    ensures Flat([first] + rest) == first + Flat(rest)
  {
    assert ([first] + rest)[1..] == rest;
  }

  /** However a text is cut into chunks, the frames are those of the whole text. */
  lemma {:induction false} ChunksDoNotMatter<Event>(parse: string -> Option<Event>, buffer: string, chunks: seq<string>)
    requires BlankAt(buffer) == |buffer|
    ensures Flat(PushAll(parse, buffer, chunks)) == Frames(parse, buffer + Concat(chunks))
    decreases |chunks|
  {
    if chunks == [] {
      assert buffer + "" == buffer;
    } else {
      var sofar, rest := buffer + chunks[0], chunks[1..];
      var drained := Drain(sofar);
      RestHasNoBlank(sofar);
      ChunksDoNotMatter(parse, drained.rest, rest);
      FlatFirst(DecodeBlocks(parse, drained.blocks), PushAll(parse, drained.rest, rest));
      FramesInParts(parse, sofar, Concat(rest));
      Associate(buffer, chunks[0], Concat(rest));
    }
  }

  lemma {:induction false} FramesInParts<Event>(parse: string -> Option<Event>, a: string, b: string)
    ensures Frames(parse, a + b) == Frames(parse, a) + Frames(parse, Drain(a).rest + b)
  {
    DrainInParts(a, b);
    DecodeInParts(parse, Drain(a).blocks, Drain(Drain(a).rest + b).blocks);
  }

  lemma {:induction false} RestHasNoBlank(s: string)
    ensures BlankAt(Drain(s).rest) == |Drain(s).rest|
    decreases |s|
  {
    var i := BlankAt(s);
    if i < |s| {
      RestHasNoBlank(s[i + 2..]);
    }
  }

  // ---------------------------------------------------------------- encoding

  /** What a server writes: a heartbeat comment, or a frame. */
  datatype Sent = Ping | Frame(id: string, event: string, data: string)

  function EncodeFrame(id: string, event: string, data: string): string {
    "id: " + id + "\nevent: " + event + "\ndata: " + data + "\n\n"
  }

  function Encode(sent: Sent): string {
    match sent
    case Ping => ": ping\n\n"
    case Frame(id, event, data) => EncodeFrame(id, event, data)
  }

  function Body(sent: Sent): string {
    match sent
    case Ping => ": ping"
    case Frame(id, event, data) => "id: " + id + "\nevent: " + event + "\ndata: " + data
  }

  function EncodeAll(sent: seq<Sent>): string {
    if sent == [] then "" else Encode(sent[0]) + EncodeAll(sent[1..])
  }

  ghost predicate OneLine(s: string) {
    '\n' !in s
  }

  /** A frame that can be told from its neighbours: no field spans lines, and it names an event. */
  ghost predicate Plain(sent: Sent) {
    sent.Frame? ==> OneLine(sent.id) && OneLine(sent.event) && OneLine(sent.data) && sent.event != ""
  }

  /** The fields of the frames, in order, without the heartbeats. */
  function Payloads(sent: seq<Sent>): seq<Fields> {
    if sent == [] then []
    else (if sent[0].Frame? then [Fields(sent[0].event, sent[0].data)] else []) + Payloads(sent[1..])
  }

  /** The fields of the blocks that name an event. */
  function Named(blocks: seq<string>): seq<Fields> {
    if blocks == [] then []
    else
      var fields := ReadBlock(blocks[0]);
      (if fields.name == "" then [] else [fields]) + Named(blocks[1..])
  }

  lemma {:induction false} LinesSplit(line: string, rest: string)
    requires OneLine(line)
    ensures Lines(line + "\n" + rest) == [line] + Lines(rest)
  {
    var s := line + "\n" + rest;
    if line == "" {
      assert s[1..] == rest;
    } else {
      assert line[0] in line && s[1..] == line[1..] + "\n" + rest;
      LinesSplit(line[1..], rest);
      var inner := [line[1..]] + Lines(rest);
      assert inner[1..] == Lines(rest) && [s[0]] + line[1..] == line;
    }
  }

  lemma {:induction false} LinesOne(line: string)
    requires OneLine(line)
    ensures Lines(line) == [line]
  {
    if line != "" {
      assert line[0] in line;
      LinesOne(line[1..]);
      assert [line[0]] + line[1..] == line;
    }
  }

  /** A text in which no line but the first is empty, and which does not end in a line break, holds no blank line. */
  lemma {:induction false} NoBlankBefore(line: string, rest: string)
    requires OneLine(line) && line != "" && rest != "" && rest[0] != '\n'
    ensures BlankAt(line + "\n" + rest) == |line| + 1 + BlankAt(rest)
  {
    var s := line + "\n" + rest;
    assert s[0] == line[0] && s[0] != '\n';
    assert s[1..] == line[1..] + "\n" + rest;
    assert |s| >= 2 ==> s[..2][0] == s[0];
    if |line| == 1 {
      assert s[1..][0] == '\n' && s[1..][1] == rest[0];
      assert s[1..][..2][1] == rest[0];
      assert s[1..][1..] == rest;
    } else {
      NoBlankBefore(line[1..], rest);
    }
  }

  lemma {:induction false} BlankAfter(line: string, rest: string)
    requires OneLine(line) && line != ""
    ensures BlankAt(line + "\n\n" + rest) == |line|
  {
    var s := line + "\n\n" + rest;
    assert s[0] == line[0] && s[..2][0] == s[0];
    assert s[1..] == line[1..] + "\n\n" + rest;
    if |line| == 1 {
      assert s[1..][..2] == "\n\n";
    } else {
      BlankAfter(line[1..], rest);
    }
  }

  lemma EncodeSplits(id: string, event: string, data: string, rest: string)
    ensures EncodeFrame(id, event, data) + rest
         == ("id: " + id) + "\n" + (("event: " + event) + "\n" + (("data: " + data) + "\n\n" + rest))
  {
  }

  /** The blank line a frame ends in is the first one in it. */
  lemma {:induction false} BodyEnds(sent: Sent, rest: string)
    requires Plain(sent)
    ensures BlankAt(Encode(sent) + rest) == |Body(sent)|
  {
    match sent
    case Ping =>
      assert Encode(sent) + rest == ": ping" + "\n\n" + rest;
      BlankAfter(": ping", rest);
    case Frame(id, event, data) =>
      FrameEnds(id, event, data, rest);
  }

  lemma {:induction false} FrameEnds(id: string, event: string, data: string, rest: string)
    requires OneLine(id) && OneLine(event) && OneLine(data)
    ensures BlankAt(EncodeFrame(id, event, data) + rest) == |Body(Frame(id, event, data))|
  {
    var first, second, last := "id: " + id, "event: " + event, "data: " + data;
    var tail := last + "\n\n" + rest;
    EncodeSplits(id, event, data, rest);
    BlankAfter(last, rest);
    NoBlankBefore(second, tail);
    NoBlankBefore(first, second + "\n" + tail);
  }

  lemma ReadsPrefixed(sofar: Fields, id: string, event: string, data: string)
    ensures ReadLine(sofar, "id: " + id) == sofar
    ensures ReadLine(sofar, "event: " + event) == sofar.(name := event)
    ensures ReadLine(sofar, "data: " + data) == sofar.(data := data)
  {
    var first, second, last := "id: " + id, "event: " + event, "data: " + data;
    assert first[0] == 'i' && second[0] == 'e' && last[0] == 'd';
    assert |first| >= 7 ==> first[..7][0] == 'i';
    assert |first| >= 6 ==> first[..6][0] == 'i';
    assert |last| >= 7 ==> last[..7][0] == 'd';
    assert second[..7] == EVENT_PREFIX && second[7..] == event;
    assert last[..6] == DATA_PREFIX && last[6..] == data;
  }

  lemma BodySplits(id: string, event: string, data: string)
    ensures Body(Frame(id, event, data)) == ("id: " + id) + "\n" + (("event: " + event) + "\n" + ("data: " + data))
  {
  }

  lemma FrameReads(id: string, event: string, data: string)
    requires OneLine(id) && OneLine(event) && OneLine(data)
    ensures ReadBlock(Body(Frame(id, event, data))) == Fields(event, data)
  {
    var first, second, last := "id: " + id, "event: " + event, "data: " + data;
    LinesSplit(first, second + "\n" + last);
    LinesSplit(second, last);
    LinesOne(last);
    BodySplits(id, event, data);
    assert [first] + ([second] + [last]) == [first, second, last];
    ReadThree(first, second, last);
    ReadsPrefixed(Fields("", ""), id, event, data);
    ReadsPrefixed(Fields(event, ""), id, event, data);
  }

  lemma BodyReads(sent: Sent)
    requires Plain(sent)
    ensures ReadBlock(Body(sent)) == if sent.Frame? then Fields(sent.event, sent.data) else Fields("", "")
  {
    match sent
    case Ping =>
      LinesOne(": ping");
      ReadOne(Fields("", ""), ": ping");
    case Frame(id, event, data) =>
      FrameReads(id, event, data);
  }

  lemma {:induction false} ReadOne(sofar: Fields, line: string)
    ensures ReadLines(sofar, [line]) == ReadLine(sofar, line)
  {
    assert [line][1..] == [];
  }

  lemma ReadThree(a: string, b: string, c: string)
    ensures ReadLines(Fields("", ""), [a, b, c]) == ReadLine(ReadLine(ReadLine(Fields("", ""), a), b), c)
  {
    assert [a, b, c][1..] == [b, c] && [b, c][1..] == [c];
    ReadOne(ReadLine(ReadLine(Fields("", ""), a), b), c);
  }

  /** What a server writes reads back as the names and payloads of its frames, in order, with nothing left over. */
  lemma {:induction false} RoundTrip(sent: seq<Sent>)
    requires forall k :: 0 <= k < |sent| ==> Plain(sent[k])
    ensures Named(Drain(EncodeAll(sent)).blocks) == Payloads(sent)
    ensures Drain(EncodeAll(sent)).rest == ""
  {
    if sent != [] {
      var first, rest := sent[0], EncodeAll(sent[1..]);
      var text := EncodeAll(sent);
      BodyEnds(first, rest);
      BodyReads(first);
      assert Encode(first) == Body(first) + "\n\n";
      assert text[..|Body(first)|] == Body(first);
      assert text[|Body(first)| + 2..] == rest;
      RoundTrip(sent[1..]);
      var drained := Drain(text);
      assert drained.blocks[1..] == Drain(rest).blocks;
    }
  }

  /** Decoding is reading the fields of the blocks that name an event. */
  lemma {:induction false} DecodesNamed<Event>(parse: string -> Option<Event>, blocks: seq<string>)
    ensures |DecodeBlocks(parse, blocks)| == |Named(blocks)|
    ensures forall k :: 0 <= k < |Named(blocks)| ==> Decode(parse, Named(blocks)[k]) == Some(DecodeBlocks(parse, blocks)[k])
  {
    if blocks != [] {
      DecodesNamed(parse, blocks[1..]);
    }
  }

  /** Cut anywhere, with heartbeats anywhere between the frames, a stream decodes to its frames. */
  lemma {:induction false} StreamRoundTrip<Event>(parse: string -> Option<Event>, sent: seq<Sent>, chunks: seq<string>)
    requires forall k :: 0 <= k < |sent| ==> Plain(sent[k])
    requires Concat(chunks) == EncodeAll(sent)
    ensures var frames := Flat(PushAll(parse, "", chunks));
      && |frames| == |Payloads(sent)|
      && forall k :: 0 <= k < |frames| ==> Decode(parse, Payloads(sent)[k]) == Some(frames[k])
  {
    ChunksDoNotMatter(parse, "", chunks);
    assert "" + Concat(chunks) == Concat(chunks);
    RoundTrip(sent);
    DecodesNamed(parse, Drain(EncodeAll(sent)).blocks);
  }
}
