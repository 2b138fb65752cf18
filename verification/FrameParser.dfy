/** The read loop of `frontend/components/live-event-stream.tsx`, which cuts a chunked text stream into frames
    at blank lines, and the frames that `veritas_os/api/sse_hub.py` writes for it. */
module FrameParser {
  import opened LiveFeed
  import opened Optional
  import opened Text

  // ---------------------------------------------------------------- split and join at "\n\n"

  /** The leftmost "\n\n", or the length if there is none. */
  function Find(s: string): (i: nat)
    ensures i <= |s|
    ensures i < |s| ==> i + 2 <= |s| && s[i] == '\n' && s[i + 1] == '\n'
  {
    if |s| < 2 then |s| else if s[0] == '\n' && s[1] == '\n' then 0 else 1 + Find(s[1..])
  }

  /** `s.includes("\n\n")`. */
  predicate HasDelimiter(s: string) { Find(s) < |s| }

  /** `s.split("\n\n")`. */
  function Split(s: string): (parts: seq<string>)
    ensures |parts| >= 1
    decreases |s|
  {
    if HasDelimiter(s) then [s[..Find(s)]] + Split(s[Find(s) + 2..]) else [s]
  }

  /** `parts.join("\n\n")`. */
  function Join(parts: seq<string>): string {
    if parts == [] then "" else if |parts| == 1 then parts[0] else parts[0] + "\n\n" + Join(parts[1..])
  }

  function Frames(text: string): seq<string> { Split(text)[..|Split(text)| - 1] }

  function Leftover(text: string): string { Split(text)[|Split(text)| - 1] }

  lemma {:induction false} FindIsLeftmost(s: string, k: nat)
    requires k + 1 < |s| && s[k] == '\n' && s[k + 1] == '\n'
    ensures Find(s) <= k
  {
    if !(s[0] == '\n' && s[1] == '\n') { FindIsLeftmost(s[1..], k - 1); }
  }

  lemma DelimiterAt(s: string, k: nat)
    requires k + 1 < |s| && s[k] == '\n' && s[k + 1] == '\n'
    ensures HasDelimiter(s)
  {
    FindIsLeftmost(s, k);
  }

  lemma NoDelimiterBefore(s: string)
    ensures !HasDelimiter(s[..Find(s)])
  {
    var i := Find(s);
    if HasDelimiter(s[..i]) { FindIsLeftmost(s, Find(s[..i])); }
  }

  lemma {:induction false} JoinSplit(s: string)
    ensures Join(Split(s)) == s
    ensures forall part :: part in Split(s) ==> !HasDelimiter(part)
    decreases |s|
  {
    hide Find;
    NoDelimiterBefore(s);
    if HasDelimiter(s) {
      var i := Find(s);
      JoinSplit(s[i + 2..]);
      assert s[i..i + 2] == "\n\n";
      assert s == s[..i] + s[i..i + 2] + s[i + 2..];
      assert Split(s)[1..] == Split(s[i + 2..]);
    }
  }

  /** What has been recognised as complete never changes when more text arrives. */
  lemma {:induction false} SplitAppend(text: string, more: string)
    ensures Split(text + more) == Frames(text) + Split(Leftover(text) + more)
    decreases |text|
  {
    hide Find;
    if HasDelimiter(text) {
      var i := Find(text);
      var rest := text[i + 2..];
      FindAppend(text, more);
      assert (text + more)[..i] == text[..i];
      assert (text + more)[i + 2..] == rest + more;
      SplitAppend(rest, more);
      assert Split(text) == [text[..i]] + Split(rest);
      assert Frames(text) == [text[..i]] + Frames(rest);
      assert Leftover(text) == Leftover(rest);
    } else {
      assert Frames(text) == [] && Leftover(text) == text;
    }
  }

  lemma {:induction false} FindAppend(s: string, t: string)
    requires HasDelimiter(s)
    ensures Find(s + t) == Find(s)
  {
    if !(s[0] == '\n' && s[1] == '\n') {
      assert (s + t)[1..] == s[1..] + t;
      FindAppend(s[1..], t);
    }
  }

  /** What the batch parse means, with no reference to how it is computed: the pieces give the text back, no
      delimiter fits before the end of a frame, and none is left over. */
  ghost predicate IsParse(text: string, frames: seq<string>, leftover: string) {
    && Join(frames + [leftover]) == text
    && (forall f :: f in frames ==> !HasDelimiter(f + "\n"))
    && !HasDelimiter(leftover)
  }

  lemma {:induction false} BatchParseIsParse(text: string)
    ensures IsParse(text, Frames(text), Leftover(text))
    decreases |text|
  {
    JoinSplit(text);
    assert Frames(text) + [Leftover(text)] == Split(text);
    if HasDelimiter(text) {
      var i := Find(text);
      var rest := text[i + 2..];
      BatchParseIsParse(rest);
      assert Frames(text) == [text[..i]] + Frames(rest);
      assert Leftover(text) == Leftover(rest);
      if HasDelimiter(text[..i] + "\n") {
        var k := Find(text[..i] + "\n");
        assert text[..i] + "\n" == text[..i + 1];
        FindIsLeftmost(text, k);
        assert false;
      }
    }
  }

  lemma {:induction false} FindEndOfFrame(frame: string, rest: string)
    requires !HasDelimiter(frame + "\n")
    ensures Find(frame + "\n\n" + rest) == |frame|
  {
    var s := frame + "\n\n" + rest;
    FindIsLeftmost(s, |frame|);
    var k := Find(s);
    if k < |frame| {
      assert (frame + "\n")[k] == s[k] && (frame + "\n")[k + 1] == s[k + 1];
      DelimiterAt(frame + "\n", k);
      assert false;
    }
  }

  /** A text has only one parse. */
  lemma {:induction false} ParseIsUnique(text: string, frames: seq<string>, leftover: string)
    requires IsParse(text, frames, leftover)
    ensures frames == Frames(text) && leftover == Leftover(text)
    decreases |frames|
  {
    if frames == [] {
      assert frames + [leftover] == [leftover];
    } else {
      var all := frames + [leftover];
      assert all[1..] == frames[1..] + [leftover];
      var rest := Join(all[1..]);
      assert text == frames[0] + "\n\n" + rest;
      FindEndOfFrame(frames[0], rest);
      assert text[..|frames[0]|] == frames[0] && text[|frames[0]| + 2..] == rest;
      ParseIsUnique(rest, frames[1..], leftover);
      assert Split(text) == [frames[0]] + Split(rest);
    }
  }

  // ---------------------------------------------------------------- from a frame to an event

  function DropReturn(line: string): string {
    if line != [] && line[|line| - 1] == '\r' then line[..|line| - 1] else line
  }

  function LineLength(s: string): (n: nat)
    ensures n <= |s| && (n < |s| ==> s[n] == '\n')
    ensures forall k :: 0 <= k < n ==> s[k] != '\n'
  {
    if s == [] || s[0] == '\n' then 0 else 1 + LineLength(s[1..])
  }

  /** `s.split(/\r?\n/)`. */
  function Lines(s: string): seq<string>
    decreases |s|
  {
    var n := LineLength(s);
    if n == |s| then [s] else [DropReturn(s[..n])] + Lines(s[n + 1..])
  }

  /** `lines.find(line => line.startsWith("data:"))`. */
  function FirstData(lines: seq<string>): (line: Option<string>)
    ensures line.Some? ==> |line.value| >= 5
  {
    if lines == [] then None
    else if StartsWith(lines[0], "data:") then Some(lines[0])
    else FirstData(lines[1..])
  }

  /** The event a frame carries, if any.  `parse` is `JSON.parse` followed by `toLiveEvent`; it is `None` when the
      first throws or the second returns null. */
  function EventOf(frame: string, parse: string -> Option<LiveEvent>): Option<LiveEvent> {
    match FirstData(Lines(frame))
    case None => None
    case Some(line) => parse(Strip(JsSpace, line[5..]))
  }

  function Events(frames: seq<string>, parse: string -> Option<LiveEvent>): seq<LiveEvent> {
    if frames == [] then []
    else
      var before := Events(frames[..|frames| - 1], parse);
      match EventOf(frames[|frames| - 1], parse)
      case None => before
      case Some(e) => before + [e]
  }

  // ---------------------------------------------------------------- the read loop

  /** What `reader.read()` settles with; `Interrupted` when the component was unmounted or the fetch aborted. */
  datatype Read = Chunk(text: string) | Done | Interrupted

  /** The chunks that are processed. */
  function Chunks(arrivals: seq<Read>): seq<string> {
    if arrivals == [] || !arrivals[0].Chunk? then [] else [arrivals[0].text] + Chunks(arrivals[1..])
  }

  function Concat(chunks: seq<string>): string { if chunks == [] then "" else chunks[0] + Concat(chunks[1..]) }

  /** Their text. */
  function Delivered(arrivals: seq<Read>): string { Concat(Chunks(arrivals)) }

  /** What the loop carries from one chunk to the next. */
  datatype Reader = Reader(feed: seq<LiveEvent>, buffer: string)

  /** One chunk: the frames that are complete by now leave the buffer for the feed. */
  function ReadChunk(r: Reader, chunk: string, parse: string -> Option<LiveEvent>): Reader {
    var text := r.buffer + chunk;
    Reader(FeedAfter(r.feed, Events(Frames(text), parse)), Leftover(text))
  }

  function ReadChunks(r: Reader, chunks: seq<string>, parse: string -> Option<LiveEvent>): Reader
    decreases |chunks|
  {
    if chunks == [] then r else ReadChunks(ReadChunk(r, chunks[0], parse), chunks[1..], parse)
  }

  /** The loop reads chunk by chunk, and leaves the feed and the buffer that one batch parse of the text would. */
  method ReadLoop(arrivals: seq<Read>, seed: seq<LiveEvent>, parse: string -> Option<LiveEvent>)
    returns (feed: seq<LiveEvent>, buffer: string)
    ensures Reader(feed, buffer) == ReadChunks(Reader(seed, ""), Chunks(arrivals), parse)
    ensures feed == FeedAfter(seed, Events(Frames(Delivered(arrivals)), parse))
    ensures buffer == Leftover(Delivered(arrivals))
  {
    hide *;
    feed, buffer := seed, "";
    var i := 0;
    assert arrivals[0..] == arrivals;
    while i < |arrivals|
      invariant 0 <= i <= |arrivals|
      invariant ReadChunks(Reader(feed, buffer), Chunks(arrivals[i..]), parse)
          == ReadChunks(Reader(seed, ""), Chunks(arrivals), parse)
    {
      NextArrival(Reader(feed, buffer), arrivals, i, parse);
      if !arrivals[i].Chunk? { break; }
      buffer := buffer + arrivals[i].text;
      feed, buffer := DrainBuffer(feed, buffer, parse);
      i := i + 1;
    }
    NextArrival(Reader(feed, buffer), arrivals, i, parse);
    NothingIsDelimited();
    OneChunkSuffices(Reader(seed, ""), Chunks(arrivals), parse);
    WholeText(seed, arrivals, parse);
  }

  lemma NextArrival(r: Reader, arrivals: seq<Read>, i: nat, parse: string -> Option<LiveEvent>)
    requires i <= |arrivals|
    ensures i == |arrivals| || !arrivals[i].Chunk? ==> ReadChunks(r, Chunks(arrivals[i..]), parse) == r
    ensures i < |arrivals| && arrivals[i].Chunk? ==>
              var text := r.buffer + arrivals[i].text;
              ReadChunks(r, Chunks(arrivals[i..]), parse) ==
              ReadChunks(Reader(FeedAfter(r.feed, Events(Frames(text), parse)), Leftover(text)),
                  Chunks(arrivals[i + 1..]), parse)
  {
    if i < |arrivals| { assert arrivals[i..][1..] == arrivals[i + 1..]; }
  }

  lemma NothingIsDelimited()
    ensures !HasDelimiter("")
  {
  }

  lemma WholeText(seed: seq<LiveEvent>, arrivals: seq<Read>, parse: string -> Option<LiveEvent>)
    ensures var text := Delivered(arrivals);
            ReadChunk(Reader(seed, ""), Concat(Chunks(arrivals)), parse)
            == Reader(FeedAfter(seed, Events(Frames(text), parse)), Leftover(text))
  {
    var text := Delivered(arrivals);
    assert "" + text == text;
  }

  /** Reading a text in pieces is reading it at once, whatever unfinished frame is in the buffer to begin with. */
  lemma {:induction false} OneChunkSuffices(r: Reader, chunks: seq<string>, parse: string -> Option<LiveEvent>)
    requires !HasDelimiter(r.buffer)
    ensures ReadChunks(r, chunks, parse) == ReadChunk(r, Concat(chunks), parse)
    decreases |chunks|
  {
    hide Split, Events, FeedAfter, Find;
    if chunks == [] {
      assert r.buffer + "" == r.buffer;
      WithoutDelimiter(r.feed, r.buffer, parse);
    } else {
      var next := ReadChunk(r, chunks[0], parse);
      var text := r.buffer + chunks[0];
      LeftoverHasNone(text);
      OneChunkSuffices(next, chunks[1..], parse);
      MoreText(r.feed, text, Concat(chunks[1..]), parse);
      assert text + Concat(chunks[1..]) == r.buffer + Concat(chunks);
    }
  }

  lemma WithoutDelimiter(feed: seq<LiveEvent>, text: string, parse: string -> Option<LiveEvent>)
    requires !HasDelimiter(text)
    ensures Leftover(text) == text && FeedAfter(feed, Events(Frames(text), parse)) == feed
  {
    assert Split(text) == [text];
  }

  lemma LeftoverHasNone(text: string)
    ensures !HasDelimiter(Leftover(text))
  {
    JoinSplit(text);
    assert Leftover(text) in Split(text);
  }

  /** Chunk independence: any two cuts of one text leave the loop in the same state. */
  lemma ChunkingIsIrrelevant(r: Reader, cut: seq<string>, other: seq<string>, parse: string -> Option<LiveEvent>)
    requires !HasDelimiter(r.buffer) && Concat(cut) == Concat(other)
    ensures ReadChunks(r, cut, parse) == ReadChunks(r, other, parse)
    ensures !HasDelimiter(ReadChunks(r, cut, parse).buffer)
  {
    hide Split, Find;
    OneChunkSuffices(r, cut, parse);
    OneChunkSuffices(r, other, parse);
    LeftoverHasNone(r.buffer + Concat(cut));
  }

  /** What a text and then more text do to the feed, the buffer in between holding the unfinished frame. */
  lemma MoreText(seed: seq<LiveEvent>, text: string, more: string, parse: string -> Option<LiveEvent>)
    ensures var buffer := Leftover(text) + more;
            && Leftover(text + more) == Leftover(buffer)
            && FeedAfter(seed, Events(Frames(text + more), parse))
            == FeedAfter(FeedAfter(seed, Events(Frames(text), parse)), Events(Frames(buffer), parse))
  {
    hide Split, Events, FeedAfter;
    SplitAppend(text, more);
    var buffer := Leftover(text) + more;
    assert Split(text + more) == Frames(text) + Split(buffer);
    assert Frames(text + more) == Frames(text) + Frames(buffer);
    EventsAppend(Frames(text), Frames(buffer), parse);
    FeedAppend(seed, Events(Frames(text), parse), Events(Frames(buffer), parse));
  }

  lemma {:induction false} EventsAppend(a: seq<string>, b: seq<string>, parse: string -> Option<LiveEvent>)
    ensures Events(a + b, parse) == Events(a, parse) + Events(b, parse)
    decreases |b|
  {
    hide EventOf;
    if b == [] {
      assert a + b == a;
    } else {
      assert (a + b)[..|a + b| - 1] == a + b[..|b| - 1];
      EventsAppend(a, b[..|b| - 1], parse);
    }
  }

  lemma {:induction false} FeedAppend(seed: seq<LiveEvent>, a: seq<LiveEvent>, b: seq<LiveEvent>)
    ensures FeedAfter(seed, a + b) == FeedAfter(FeedAfter(seed, a), b)
    decreases |b|
  {
    hide Upsert;
    if b == [] {
      assert a + b == a;
    } else {
      assert (a + b)[..|a + b| - 1] == a + b[..|b| - 1];
      FeedAppend(seed, a, b[..|b| - 1]);
    }
  }

  /** The inner loop: every complete frame leaves the buffer and its event, if it carries one, enters the feed. */
  method DrainBuffer(feed0: seq<LiveEvent>, buffer0: string, parse: string -> Option<LiveEvent>)
    returns (feed: seq<LiveEvent>, buffer: string)
    ensures feed == FeedAfter(feed0, Events(Frames(buffer0), parse))
    ensures buffer == Leftover(buffer0)
  {
    hide Events, FeedAfter, Upsert, Find, EventOf;
    feed, buffer := feed0, buffer0;
    ghost var frames: seq<string> := [];
    NoEvents(feed0, parse);
    while HasDelimiter(buffer)
      invariant Split(buffer0) == frames + Split(buffer)
      invariant feed == FeedAfter(feed0, Events(frames, parse))
      decreases |buffer|
    {
      NextFrame(buffer0, frames, buffer);
      var parts := Split(buffer);
      var rawEvent, rest := parts[0], parts[1..];
      buffer := Join(rest);
      FeedOfNextFrame(feed0, frames, rawEvent, parse);
      frames := frames + [rawEvent];
      var dataLine := FirstData(Lines(rawEvent));
      if dataLine == None { continue; }
      var parsed := parse(Strip(JsSpace, dataLine.value[5..]));
      if parsed == None { continue; }
      feed := Upsert(feed, parsed.value);
    }
    assert Split(buffer0) == frames + [buffer];
    assert frames == Frames(buffer0);
  }

  lemma NoEvents(feed: seq<LiveEvent>, parse: string -> Option<LiveEvent>)
    ensures FeedAfter(feed, Events([], parse)) == feed
  {
  }

  lemma NextFrame(text: string, frames: seq<string>, buffer: string)
    requires HasDelimiter(buffer) && Split(text) == frames + Split(buffer)
    ensures var rest := Join(Split(buffer)[1..]);
            |rest| < |buffer| && Split(text) == (frames + [Split(buffer)[0]]) + Split(rest)
  {
    JoinSplit(buffer[Find(buffer) + 2..]);
  }

  lemma FeedOfNextFrame(seed: seq<LiveEvent>, frames: seq<string>, frame: string, parse: string -> Option<LiveEvent>)
    ensures var before := FeedAfter(seed, Events(frames, parse));
            FeedAfter(seed, Events(frames + [frame], parse)) ==
            match FirstData(Lines(frame))
            case None => before
            case Some(line) =>
              match parse(Strip(JsSpace, line[5..]))
              case None => before
              case Some(e) => Upsert(before, e)
  {
    assert (frames + [frame])[..|frames|] == frames;
    var events := Events(frames + [frame], parse);
    if EventOf(frame, parse).Some? { assert events[..|events| - 1] == Events(frames, parse); }
  }

  // ---------------------------------------------------------------- what the server writes

  datatype WireFrame = Comment(text: string) | EventFrame(id: string, kind: string, data: string)

  predicate SingleLine(s: string) { forall c :: c in s ==> c != '\n' && c != '\r' }

  /** `data` is one JSON object on one line. */
  predicate WellFormed(f: WireFrame) {
    match f
    case Comment(text) => SingleLine(text)
    case EventFrame(id, kind, data) =>
      SingleLine(id) && SingleLine(kind) && SingleLine(data) && |data| >= 2 && data[0] == '{' && data[|data| - 1] == '}'
  }

  function WireLines(f: WireFrame): seq<string> {
    match f
    case Comment(text) => [": " + text]
    case EventFrame(id, kind, data) => ["id: " + id, "event: " + kind, "data: " + data]
  }

  function JoinLines(lines: seq<string>): string {
    if lines == [] then "" else if |lines| == 1 then lines[0] else lines[0] + "\n" + JoinLines(lines[1..])
  }

  function Wire(frames: seq<WireFrame>): string {
    if frames == [] then "" else JoinLines(WireLines(frames[0])) + "\n\n" + Wire(frames[1..])
  }

  function WireBlocks(frames: seq<WireFrame>): seq<string> {
    seq(|frames|, k requires 0 <= k < |frames| => JoinLines(WireLines(frames[k])))
  }

  /** The events a client should see: the parsed payloads of the event frames. */
  function Payloads(frames: seq<WireFrame>, parse: string -> Option<LiveEvent>): seq<LiveEvent> {
    if frames == [] then []
    else
      var before := Payloads(frames[..|frames| - 1], parse);
      match frames[|frames| - 1]
      case Comment(_) => before
      case EventFrame(_, _, data) => if parse(data).Some? then before + [parse(data).value] else before
  }

  ghost predicate Block(lines: seq<string>) {
    lines != [] && forall k :: 0 <= k < |lines| ==> lines[k] != "" && SingleLine(lines[k])
  }

  lemma WireLinesAreBlock(f: WireFrame)
    requires WellFormed(f)
    ensures Block(WireLines(f))
  {
  }

  lemma LineThenNoDelimiter(head: string, rest: string)
    requires '\n' !in head && head != "" && !HasDelimiter(rest) && (rest != "" ==> rest[0] != '\n')
    ensures !HasDelimiter(head + "\n" + rest)
  {
    var s := head + "\n" + rest;
    hide Find;
    var k := Find(s);
    assert forall m :: 0 <= m < |head| ==> s[m] != '\n' by {
      assert forall m :: 0 <= m < |head| ==> s[m] == head[m] && head[m] in head;
    }
    if k > |head| && k < |s| {
      assert rest[k - |head| - 1] == s[k] && rest[k - |head|] == s[k + 1];
      DelimiterAt(rest, k - |head| - 1);
    }
    assert rest != "" ==> s[|head| + 1] == rest[0];
  }

  lemma {:induction false} BlockHasNoDelimiter(lines: seq<string>)
    requires Block(lines)
    ensures !HasDelimiter(JoinLines(lines) + "\n")
    ensures JoinLines(lines) != "" && JoinLines(lines)[0] != '\n'
  {
    var head, tail := lines[0], lines[1..];
    assert head[0] in head && JoinLines(lines)[0] == head[0];
    hide HasDelimiter;
    if tail == [] {
      NothingIsDelimited();
      LineThenNoDelimiter(head, "");
      assert JoinLines(lines) + "\n" == head + "\n" + "";
    } else {
      assert Block(tail) by { assert forall k :: 0 <= k < |tail| ==> tail[k] == lines[k + 1]; }
      BlockHasNoDelimiter(tail);
      LineThenNoDelimiter(head, JoinLines(tail) + "\n");
      assert JoinLines(lines) + "\n" == head + "\n" + (JoinLines(tail) + "\n");
    }
  }

  lemma {:induction false} LineLengthOf(line: string, rest: string)
    requires SingleLine(line)
    ensures LineLength(line) == |line|
    ensures LineLength(line + "\n" + rest) == |line|
  {
    LineLengthBefore(line, rest);
    if line != [] {
      assert line[0] in line;
      assert forall c :: c in line[1..] ==> c in line;
      LineLengthOf(line[1..], "");
    }
  }

  lemma {:induction false} LinesOfBlock(lines: seq<string>)
    requires Block(lines)
    ensures Lines(JoinLines(lines)) == lines
  {
    hide LineLength;
    var head := lines[0];
    var tail := lines[1..];
    LineLengthOf(head, JoinLines(tail));
    if |lines| > 1 {
      assert Block(tail) by { assert forall k :: 0 <= k < |tail| ==> tail[k] == lines[k + 1]; }
      LinesOfBlock(tail);
      var s := JoinLines(lines);
      assert s[..|head|] == head && s[|head| + 1..] == JoinLines(tail);
      assert head[|head| - 1] in head;
      assert DropReturn(head) == head;
    }
  }

  /** Lines under either of the two line ends. */
  function JoinEnded(lines: seq<string>, end: string): string {
    if lines == [] then "" else if |lines| == 1 then lines[0] else lines[0] + end + JoinEnded(lines[1..], end)
  }

  lemma {:induction false} LinesOfEnded(lines: seq<string>, end: string)
    requires end == "\n" || end == "\r\n"
    requires lines != [] && forall line :: line in lines ==> SingleLine(line)
    ensures Lines(JoinEnded(lines, end)) == lines
  {
    hide Lines, SingleLine, DropReturn;
    var head, tail := lines[0], lines[1..];
    assert lines == [head] + tail;
    if tail == [] {
      OnlyLine(head);
    } else {
      LinesOfEnded(tail, end);
      var before := if end == "\n" then head else head + "\r";
      EndedLine(head, end, before);
      FirstLine(before, JoinEnded(tail, end));
      assert JoinEnded(lines, end) == head + end + JoinEnded(tail, end);
    }
  }

  lemma OnlyLine(line: string)
    requires SingleLine(line)
    ensures Lines(line) == [line]
  {
    LineLengthOf(line, "");
  }

  lemma EndedLine(head: string, end: string, before: string)
    requires SingleLine(head) && (end == "\n" || end == "\r\n") && before == if end == "\n" then head else head + "\r"
    ensures '\n' !in before && DropReturn(before) == head && head + end == before + "\n"
  {
    assert head != "" ==> head[|head| - 1] in head;
    assert "\r" + "\n" == "\r\n";
  }

  lemma FirstLine(before: string, rest: string)
    requires '\n' !in before
    ensures Lines(before + "\n" + rest) == [DropReturn(before)] + Lines(rest)
  {
    var s := before + "\n" + rest;
    LineLengthBefore(before, rest);
    assert s[..|before|] == before && s[|before| + 1..] == rest;
    hide LineLength;
  }

  lemma {:induction false} LineLengthBefore(line: string, rest: string)
    requires '\n' !in line
    ensures LineLength(line + "\n" + rest) == |line|
  {
    if line == [] {
      assert line + "\n" + rest == "\n" + rest;
    } else {
      assert (line + "\n" + rest)[1..] == line[1..] + "\n" + rest;
      LineLengthBefore(line[1..], rest);
    }
  }

  lemma {:induction false} FirstDataIs(lines: seq<string>, k: nat)
    requires k <= |lines| && forall j :: 0 <= j < k ==> !("data:" <= lines[j])
    requires k < |lines| ==> "data:" <= lines[k]
    ensures FirstData(lines) == if k < |lines| then Some(lines[k]) else None
  {
    if k > 0 { FirstDataIs(lines[1..], k - 1); }
  }

  /** Whoever wrote the frame, and under whichever line end: it carries what the first line that starts with "data:"
      says after that, trimmed, if it can be parsed; without such a line it carries nothing. */
  lemma EventIsFirstData(lines: seq<string>, end: string, k: nat, parse: string -> Option<LiveEvent>)
    requires end == "\n" || end == "\r\n"
    requires lines != [] && forall line :: line in lines ==> SingleLine(line)
    requires k <= |lines| && forall j :: 0 <= j < k ==> !("data:" <= lines[j])
    requires k < |lines| ==> "data:" <= lines[k]
    ensures EventOf(JoinEnded(lines, end), parse) ==
            if k < |lines| then parse(Strip(JsSpace, lines[k][5..])) else None
  {
    hide Lines, JoinEnded, FirstData, Strip;
    LinesOfEnded(lines, end);
    FirstDataIs(lines, k);
  }

  lemma EventOfBlock(f: WireFrame, parse: string -> Option<LiveEvent>)
    requires WellFormed(f)
    ensures EventOf(JoinLines(WireLines(f)), parse) == if f.EventFrame? then parse(f.data) else None
  {
    hide Lines, JoinLines, Strip;
    WireLinesAreBlock(f);
    LinesOfBlock(WireLines(f));
    if f.EventFrame? {
      FirstDataOfEvent(f);
      StripPadding(JsSpace, " ", f.data, "");
      assert ("data: " + f.data)[5..] == " " + f.data + "";
    } else {
      FirstDataSkips(WireLines(f));
    }
  }

  lemma FirstDataSkips(lines: seq<string>)
    requires lines != [] && lines[0] != "" && lines[0][0] != 'd'
    ensures FirstData(lines) == FirstData(lines[1..])
  {
    assert "data:"[0] == 'd';
  }

  lemma FirstDataOfEvent(f: WireFrame)
    requires f.EventFrame?
    ensures FirstData(WireLines(f)) == Some("data: " + f.data)
  {
    var lines := WireLines(f);
    FirstDataSkips(lines);
    FirstDataSkips(lines[1..]);
    assert lines[1..][1..] == ["data: " + f.data];
    assert "data: " + f.data == "data:" + (" " + f.data);
  }

  lemma {:induction false} WireIsParsed(frames: seq<WireFrame>)
    requires forall f :: f in frames ==> WellFormed(f)
    ensures IsParse(Wire(frames), WireBlocks(frames), "")
  {
    if frames == [] {
      assert WireBlocks(frames) + [""] == [""];
    } else {
      WireIsParsed(frames[1..]);
      var all := WireBlocks(frames) + [""];
      assert all[1..] == WireBlocks(frames[1..]) + [""];
      assert frames[0] in frames;
      WireLinesAreBlock(frames[0]);
      BlockHasNoDelimiter(WireLines(frames[0]));
      assert WireBlocks(frames) == [JoinLines(WireLines(frames[0]))] + WireBlocks(frames[1..]);
    }
  }

  lemma {:induction false} EventsOfBlocks(frames: seq<WireFrame>, parse: string -> Option<LiveEvent>)
    requires forall f :: f in frames ==> WellFormed(f)
    ensures Events(WireBlocks(frames), parse) == Payloads(frames, parse)
  {
    if frames != [] {
      var before := frames[..|frames| - 1];
      EventsOfBlocks(before, parse);
      assert WireBlocks(frames)[..|frames| - 1] == WireBlocks(before);
      assert frames[|frames| - 1] in frames;
      EventOfBlock(frames[|frames| - 1], parse);
    }
  }

  /** Round trip from the server to the feed: however the network cuts what the server wrote, the client sees
      the payloads of exactly the event frames, in order, and nothing stays in the buffer. */
  lemma ServerFramesReachFeed(seed: seq<LiveEvent>, frames: seq<WireFrame>, arrivals: seq<Read>,
                              parse: string -> Option<LiveEvent>)
    requires forall f :: f in frames ==> WellFormed(f)
    requires Delivered(arrivals) == Wire(frames)
    ensures Events(Frames(Delivered(arrivals)), parse) == Payloads(frames, parse)
    ensures Leftover(Delivered(arrivals)) == ""
    ensures ReadChunks(Reader(seed, ""), Chunks(arrivals), parse)
        == Reader(FeedAfter(seed, Payloads(frames, parse)), "")
  {
    hide Split, Events, FeedAfter, Find, WireBlocks, Wire, Payloads;
    NothingIsDelimited();
    OneChunkSuffices(Reader(seed, ""), Chunks(arrivals), parse);
    WholeText(seed, arrivals, parse);
    WireIsParsed(frames);
    ParseIsUnique(Wire(frames), WireBlocks(frames), "");
    EventsOfBlocks(frames, parse);
  }

  /** Before everything has arrived the client has seen the first few frames and nothing else. */
  lemma PartialDeliverySeesPrefix(frames: seq<WireFrame>, text: string, missing: string)
    requires forall f :: f in frames ==> WellFormed(f)
    requires text + missing == Wire(frames)
    ensures Frames(text) <= WireBlocks(frames)
  {
    WireIsParsed(frames);
    ParseIsUnique(Wire(frames), WireBlocks(frames), "");
    SplitAppend(text, missing);
    assert Frames(text) <= Split(Wire(frames))[..|Split(Wire(frames))| - 1];
  }
}
