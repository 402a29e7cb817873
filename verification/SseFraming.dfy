// Server-sent-event framing of the renderer stream: the server's encoder and the browser's incremental
// consumer, at character level.
module SseFraming {
  import opened Results
  import opened Sequences

  const MAX_RENDERER_STREAM_MESSAGE_BYTES: nat := 64 * 1024

  datatype Boundary = Boundary(index: nat, length: nat)

  datatype FramingError = BufferExceeded | MessageExceeded | RepeatedEvent | UnsupportedField | ContractMismatch | Incomplete

  // What the consumer has handed to the renderer, its unread buffer, and the error that stopped it.
  datatype Progress = Progress(handed: seq<string>, buffer: string, error: Option<FramingError>)

  // ---- Text ----

  function Utf8Width(c: char): (n: nat)
    ensures 1 <= n <= 4
  {
    var point := c as int;
    if point < 0x80 then 1 else if point < 0x800 then 2 else if point < 0x1_0000 then 3 else 4
  }

  function ByteLength(s: string): nat {
    if s == [] then 0 else Utf8Width(s[0]) + ByteLength(s[1..])
  }

  predicate IsWhitespace(c: char) {
    c == ' ' || c == '\t' || c == '\n' || c == '\r' || c == '\U{0B}' || c == '\U{0C}' || c == '\U{A0}'
    || c == '\U{1680}' || '\U{2000}' <= c <= '\U{200A}' || c == '\U{2028}' || c == '\U{2029}'
    || c == '\U{202F}' || c == '\U{205F}' || c == '\U{3000}' || c == '\U{FEFF}'
  }

  function TrimStart(s: string): string {
    if s != [] && IsWhitespace(s[0]) then TrimStart(s[1..]) else s
  }

  function TrimEnd(s: string): string {
    if s != [] && IsWhitespace(s[|s| - 1]) then TrimEnd(s[..|s| - 1]) else s
  }

  function Trim(s: string): string {
    TrimEnd(TrimStart(s))
  }

  function IndexOf(s: string, pattern: string, start: nat): Option<nat>
    decreases |s| - start
  {
    if start + |pattern| > |s| || start >= |s| then None
    else if s[start..start + |pattern|] == pattern then Some(start)
    else IndexOf(s, pattern, start + 1)
  }

  // split(/\r?\n/)
  function SplitLines(s: string): seq<string> {
    match IndexOf(s, "\n", 0)
    case None => [s]
    case Some(i) =>
      IndexOfFinds(s, "\n", 0);
      var line := s[..i];
      [if line != [] && line[i - 1] == '\r' then line[..i - 1] else line] + SplitLines(s[i + 1..])
  }

  predicate StartsWith(s: string, prefix: string) {
    prefix <= s
  }

  // ---- Encoder and consumer ----

  function EncodeSse(json: string): string {
    "event: delivery\ndata: " + json + "\n\n"
  }

  function EncodeAll(texts: seq<string>): string {
    if texts == [] then "" else EncodeSse(texts[0]) + EncodeAll(texts[1..])
  }

  function FindEventBoundary(buffer: string): Option<Boundary> {
    var lf, crlf := IndexOf(buffer, "\n\n", 0), IndexOf(buffer, "\r\n\r\n", 0);
    if lf.None? && crlf.None? then None
    else if lf.None? then Some(Boundary(crlf.value, 4))
    else if crlf.None? then Some(Boundary(lf.value, 2))
    else if lf.value < crlf.value then Some(Boundary(lf.value, 2))
    else Some(Boundary(crlf.value, 4))
  }

  // handleSseBlock's line loop over lines[i..], given the event type and data lines found so far.
  function ScanLines(lines: seq<string>, event: Option<string>, data: seq<string>): Result<string, FramingError> {
    if lines == [] then
      if event != Some("delivery") || |data| != 1 then Err(ContractMismatch) else Ok(data[0])
    else
      var line := lines[0];
      if StartsWith(line, ":") then ScanLines(lines[1..], event, data)
      else if StartsWith(line, "event:") then
        if event.Some? then Err(RepeatedEvent) else ScanLines(lines[1..], Some(Trim(line[6..])), data)
      else if StartsWith(line, "data:") then ScanLines(lines[1..], event, data + [TrimStart(line[5..])])
      else if Trim(line) != [] then Err(UnsupportedField)
      else ScanLines(lines[1..], event, data)
  }

  function HandleBlock(block: string): Result<string, FramingError> {
    if ByteLength(block) > MAX_RENDERER_STREAM_MESSAGE_BYTES then Err(MessageExceeded)
    else ScanLines(SplitLines(block), None, [])
  }

  // One complete block taken off the buffer.
  function AfterBlock(p: Progress, b: Boundary): Progress
    requires b.index + b.length <= |p.buffer|
  {
    var block, rest := p.buffer[..b.index], p.buffer[b.index + b.length..];
    if block == [] then p.(buffer := rest)
    else match HandleBlock(block)
         case Err(e) => p.(buffer := rest, error := Some(e))
         case Ok(text) => p.(handed := p.handed + [text], buffer := rest)
  }

  // Hands over every complete block in the buffer, stopping at the first error.
  function Drain(p: Progress): Progress
    decreases |p.buffer|
  {
    if p.error.Some? then p
    else match FindEventBoundary(p.buffer)
         case None => p
         case Some(b) =>
           BoundaryFits(p.buffer);
           Drain(AfterBlock(p, b))
  }

  function Feed(p: Progress, chunk: string): Progress {
    if p.error.Some? then p
    else if ByteLength(p.buffer + chunk) > MAX_RENDERER_STREAM_MESSAGE_BYTES * 2 then
      Progress(p.handed, p.buffer + chunk, Some(BufferExceeded))
    else Drain(p.(buffer := p.buffer + chunk))
  }

  function FeedAll(p: Progress, chunks: seq<string>): Progress
    decreases chunks
  {
    if chunks == [] then p else FeedAll(Feed(p, chunks[0]), chunks[1..])
  }

  const Fresh := Progress([], "", None)

  function Finished(p: Progress): Progress {
    if p.error.None? && Trim(p.buffer) != [] then p.(error := Some(Incomplete)) else p
  }

  // ---- The first boundary ----

  predicate OccursAt(s: string, pattern: string, i: nat) {
    i + |pattern| <= |s| && s[i..i + |pattern|] == pattern
  }

  lemma {:induction false} IndexOfFinds(s: string, pattern: string, start: nat)
    requires pattern != []
    ensures var r := IndexOf(s, pattern, start);
      && (r.Some? ==>
            && start <= r.value && OccursAt(s, pattern, r.value)
            && forall j :: start <= j < r.value ==> !OccursAt(s, pattern, j))
      && (r.None? ==> forall j :: start <= j ==> !OccursAt(s, pattern, j))
    decreases |s| - start
  {
    if start + |pattern| <= |s| && start < |s| && s[start..start + |pattern|] != pattern {
      IndexOfFinds(s, pattern, start + 1);
    }
  }

  predicate BoundaryAt(s: string, i: nat) {
    OccursAt(s, "\n\n", i) || OccursAt(s, "\r\n\r\n", i)
  }

  ghost predicate IsFirstBoundary(s: string, b: Boundary) {
    && BoundaryAt(s, b.index)
    && b.length == (if OccursAt(s, "\n\n", b.index) then 2 else 4)
    && forall j :: 0 <= j < b.index ==> !BoundaryAt(s, j)
  }

  // findEventBoundary returns the earliest separator of either kind, or nothing if there is none.
  lemma FirstBoundaryIsFirst(s: string)
    ensures var r := FindEventBoundary(s);
      && (r.Some? ==> IsFirstBoundary(s, r.value) && r.value.index + r.value.length <= |s|)
      && (r.None? ==> forall j: nat :: !BoundaryAt(s, j))
  {
    IndexOfFinds(s, "\n\n", 0);
    IndexOfFinds(s, "\r\n\r\n", 0);
    SeparatorsStartApart(s);
  }

  lemma BoundaryFits(s: string)
    requires FindEventBoundary(s).Some?
    ensures var b := FindEventBoundary(s).value; 0 < b.length && b.index + b.length <= |s|
  {
    FirstBoundaryIsFirst(s);
  }

  lemma SeparatorsStartApart(s: string)
    ensures forall i: nat :: OccursAt(s, "\n\n", i) ==> s[i] == '\n' && s[i + 1] == '\n'
    ensures forall i: nat :: OccursAt(s, "\r\n\r\n", i) ==>
      s[i] == '\r' && s[i + 1] == '\n' && s[i + 2] == '\r' && s[i + 3] == '\n'
  {
    forall i: nat | OccursAt(s, "\n\n", i)
      ensures s[i] == '\n' && s[i + 1] == '\n'
    {
      assert s[i..i + 2][0] == s[i] && s[i..i + 2][1] == s[i + 1];
    }
    forall i: nat | OccursAt(s, "\r\n\r\n", i)
      ensures s[i] == '\r' && s[i + 1] == '\n' && s[i + 2] == '\r' && s[i + 3] == '\n'
    {
      var w := s[i..i + 4];
      assert w[0] == s[i] && w[1] == s[i + 1] && w[2] == s[i + 2] && w[3] == s[i + 3];
    }
  }

  lemma OccursInPrefix(a: string, b: string, pattern: string, i: nat)
    requires i + |pattern| <= |a|
    ensures OccursAt(a, pattern, i) <==> OccursAt(a + b, pattern, i)
  {
    assert (a + b)[i..i + |pattern|] == a[i..i + |pattern|];
  }

  // A boundary once complete stays the first boundary, whatever arrives later.
  lemma BoundaryIsStable(a: string, b: string)
    requires FindEventBoundary(a).Some?
    ensures FindEventBoundary(a + b) == FindEventBoundary(a)
  {
    var s := a + b;
    FirstBoundaryIsFirst(a);
    FirstBoundaryIsFirst(s);
    SeparatorsStartApart(a);
    SeparatorsStartApart(s);
    var f := FindEventBoundary(a).value;
    OccursInPrefix(a, b, "\n\n", f.index);
    if f.index + 4 <= |a| { OccursInPrefix(a, b, "\r\n\r\n", f.index); }
    forall j: nat | j < f.index
      ensures !BoundaryAt(s, j)
    {
      assert !BoundaryAt(a, j);
      OccursInPrefix(a, b, "\n\n", j);
      if j + 4 <= |a| {
        OccursInPrefix(a, b, "\r\n\r\n", j);
      } else {
        // only the last three characters of `a` are left: \r here would need \r where `a` has \n
        assert f.index == |a| - 2 && j == |a| - 3;
        assert OccursAt(a, "\n\n", f.index);
        assert s[j + 2] == a[f.index + 1] == '\n';
      }
    }
    assert BoundaryAt(s, f.index);
  }

  // ---- Any chunking equals the whole ----

  // Draining what has arrived and draining again later hands over the same as draining everything once.
  lemma {:induction false} DrainInTwoParts(p: Progress, more: string)
    requires p.error.None?
    ensures var first, whole := Drain(p), Drain(p.(buffer := p.buffer + more));
      if first.error.Some? then whole == first.(buffer := first.buffer + more)
      else whole == Drain(first.(buffer := first.buffer + more))
    decreases |p.buffer|
  {
    var b := FindEventBoundary(p.buffer);
    if b.Some? {
      BoundaryIsStable(p.buffer, more);
      BoundaryFits(p.buffer);
      BlockIsStable(p, b.value, more);
      var q := AfterBlock(p, b.value);
      if q.error.None? { DrainInTwoParts(q, more); }
    }
  }

  lemma BlockIsStable(p: Progress, b: Boundary, more: string)
    requires b.index + b.length <= |p.buffer|
    ensures var q := AfterBlock(p, b);
            AfterBlock(p.(buffer := p.buffer + more), b) == q.(buffer := q.buffer + more)
  {
    assert (p.buffer + more)[..b.index] == p.buffer[..b.index];
    assert (p.buffer + more)[b.index + b.length..] == p.buffer[b.index + b.length..] + more;
  }

  // The buffer bound is respected at every chunk.
  predicate WithinBound(p: Progress, chunks: seq<string>)
    decreases chunks
  {
    chunks == [] ||
    (p.error.None? ==>
       && ByteLength(p.buffer + chunks[0]) <= MAX_RENDERER_STREAM_MESSAGE_BYTES * 2
       && WithinBound(Feed(p, chunks[0]), chunks[1..]))
  }

  lemma {:induction false} AfterError(p: Progress, chunks: seq<string>)
    requires p.error.Some?
    ensures FeedAll(p, chunks) == p
    decreases chunks
  {
    if chunks != [] { AfterError(p, chunks[1..]); }
  }

  // For every text and every way of cutting it: the same messages in the same order, the same error,
  // and, without one, the same rest in the buffer as if it had all arrived at once.
  lemma {:induction false} ChunkingDoesNotMatter(p: Progress, chunks: seq<string>)
    requires p.error.None? && Drain(p) == p && WithinBound(p, chunks)
    ensures var cut, whole := FeedAll(p, chunks), Drain(p.(buffer := p.buffer + Concat(chunks)));
      && cut.handed == whole.handed && cut.error == whole.error
      && (cut.error.None? ==> cut.buffer == whole.buffer)
    decreases chunks
  {
    if chunks == [] {
      assert p.buffer + Concat(chunks) == p.buffer;
    } else {
      var arrived := p.(buffer := p.buffer + chunks[0]);
      var rest := Concat(chunks[1..]);
      assert p.buffer + Concat(chunks) == arrived.buffer + rest;
      DrainInTwoParts(arrived, rest);
      var q := Drain(arrived);
      if q.error.Some? {
        AfterError(q, chunks[1..]);
      } else {
        DrainIsIdempotent(arrived);
        ChunkingDoesNotMatter(q, chunks[1..]);
      }
    }
  }

  lemma {:induction false} DrainIsIdempotent(p: Progress)
    ensures Drain(Drain(p)) == Drain(p)
    decreases |p.buffer|
  {
    var b := FindEventBoundary(p.buffer);
    if p.error.None? && b.Some? {
      BoundaryFits(p.buffer);
      DrainIsIdempotent(AfterBlock(p, b.value));
    }
  }

  // ---- Round trip with the encoder ----

  predicate SingleLine(text: string) {
    '\n' !in text && '\r' !in text
  }

  const HEADER: string := "event: delivery\ndata: "

  lemma EncodedShape(text: string)
    requires SingleLine(text)
    ensures var e := EncodeSse(text);
      && |e| == 24 + |text| && e[..|e| - 2] == HEADER + text
      && (forall i :: 0 <= i < |e| ==> e[i] != '\r')
      && (forall i :: 0 <= i < |e| ==> (e[i] == '\n' <==> i == 15 || i >= |e| - 2))
  {
    var e := EncodeSse(text);
    assert |HEADER| == 22;
    assert e == HEADER + text + "\n\n";
    forall i | 0 <= i < |e|
      ensures e[i] != '\r' && (e[i] == '\n' <==> i == 15 || i >= |e| - 2)
    {
      if i < 22 {
        assert e[i] == HEADER[i];
      } else if i < |e| - 2 {
        assert e[i] == text[i - 22];
        assert e[i] in text;
      }
    }
  }

  // An encoded message contains no boundary before its own end.
  lemma EncodedBoundary(text: string, k: nat, more: string)
    requires SingleLine(text) && k <= |EncodeSse(text)|
    ensures var e := EncodeSse(text);
      if k < |e| then FindEventBoundary(e[..k]) == None
      else FindEventBoundary(e + more) == Some(Boundary(|e| - 2, 2))
  {
    var e := EncodeSse(text);
    EncodedShape(text);
    var s := if k < |e| then e[..k] else e;
    FirstBoundaryIsFirst(s);
    SeparatorsStartApart(s);
    var r := FindEventBoundary(s);
    if r.Some? {
      var i := r.value.index;
      assert s[i] == e[i] && s[i + 1] == e[i + 1];
      assert i == |e| - 2;
    }
    if k == |e| {
      assert OccursAt(e, "\n\n", |e| - 2) by { assert e[|e| - 2..] == "\n\n"; }
      assert BoundaryAt(e, |e| - 2);
      BoundaryIsStable(e, more);
    }
  }

  lemma {:induction false} ByteLengthAdds(a: string, b: string)
    ensures ByteLength(a + b) == ByteLength(a) + ByteLength(b)
  {
    if a == [] {
      assert a + b == b;
    } else {
      assert (a + b)[1..] == a[1..] + b;
      ByteLengthAdds(a[1..], b);
    }
  }

  predicate Sendable(texts: seq<string>) {
    forall text :: text in texts ==>
      SingleLine(text) && ByteLength(EncodeSse(text)) <= MAX_RENDERER_STREAM_MESSAGE_BYTES
  }

  // JSON.parse ignores leading whitespace, and the consumer has already cut it off.
  function Received(texts: seq<string>): seq<string> {
    if texts == [] then [] else [TrimStart(texts[0])] + Received(texts[1..])
  }

  lemma NoLineBreak(s: string)
    requires '\n' !in s
    ensures SplitLines(s) == [s]
  {
    IndexOfFinds(s, "\n", 0);
    forall j: nat
      ensures !OccursAt(s, "\n", j)
    {
      if j + 1 <= |s| { assert s[j..j + 1][0] == s[j] && s[j] in s; }
    }
  }

  lemma EventLineIsUnbroken()
    ensures '\n' !in "event: delivery"
  {
  }

  lemma SplitEncoded(text: string)
    requires SingleLine(text)
    ensures SplitLines(HEADER + text) == ["event: delivery", "data: " + text]
  {
    var block, first := HEADER + text, "event: delivery";
    IndexOfFinds(block, "\n", 0);
    assert block[15..16] == "\n";
    assert OccursAt(block, "\n", 15);
    assert block[..15] == first;
    EventLineIsUnbroken();
    forall j: nat | j < 15
      ensures !OccursAt(block, "\n", j)
    {
      assert block[j..j + 1][0] == first[j] && first[j] in first;
    }
    assert block[16..] == "data: " + text;
    NoLineBreak("data: " + text);
  }

  lemma ScanEventLine(rest: seq<string>)
    ensures ScanLines(["event: delivery"] + rest, None, []) == ScanLines(rest, Some("delivery"), [])
  {
    var line, lines := "event: delivery", ["event: delivery"] + rest;
    assert lines[0] == line && lines[1..] == rest;
    assert line[0] == 'e' && line[..6] == "event:";
    assert !StartsWith(line, ":") && StartsWith(line, "event:");
    assert line[6..] == " delivery" && " delivery"[1..] == "delivery";
    assert Trim(line[6..]) == "delivery";
  }

  lemma ScanDataLine(text: string)
    ensures ScanLines(["data: " + text], Some("delivery"), []) == Ok(TrimStart(text))
  {
    var data := "data: " + text;
    var lines := [data];
    assert lines[1..] == [];
    assert data[5..] == " " + text && (" " + text)[1..] == text;
    var found := [TrimStart(data[5..])];
    assert [] + found == found;
    assert data[0] == 'd' && data[..5] == "data:";
    assert !StartsWith(data, ":") && !StartsWith(data, "event:") && StartsWith(data, "data:");
    assert ScanLines([], Some("delivery"), found) == Ok(TrimStart(text));
  }

  lemma HandleEncoded(text: string)
    requires SingleLine(text) && ByteLength(EncodeSse(text)) <= MAX_RENDERER_STREAM_MESSAGE_BYTES
    ensures HandleBlock(HEADER + text) == Ok(TrimStart(text))
  {
    assert EncodeSse(text) == HEADER + text + "\n\n";
    ByteLengthAdds(HEADER + text, "\n\n");
    SplitEncoded(text);
    assert ["event: delivery", "data: " + text] == ["event: delivery"] + ["data: " + text];
    ScanEventLine(["data: " + text]);
    ScanDataLine(text);
  }

  lemma Align(a: string, b: string, c: string, d: string)
    requires a + b == c + d
    ensures |a| <= |c| ==> a == c[..|a|]
    ensures |c| <= |a| ==> a == c + a[|c|..] && a[|c|..] + b == d
  {
    var s := a + b;
    assert a == s[..|a|] && c == s[..|c|] && d == s[|c|..];
    if |c| <= |a| { assert s[|c|..] == a[|c|..] + b; }
  }

  // What is left in the buffer between messages: less than the next message.
  predicate Partial(buffer: string, rest: seq<string>) {
    if rest == [] then buffer == "" else |buffer| < |EncodeSse(rest[0])|
  }

  lemma DrainOneMessage(p: Progress, text: string, more: string)
    requires p.error.None? && p.buffer == EncodeSse(text) + more
    requires SingleLine(text) && ByteLength(EncodeSse(text)) <= MAX_RENDERER_STREAM_MESSAGE_BYTES
    ensures Drain(p) == Drain(Progress(p.handed + [TrimStart(text)], more, None))
  {
    var e := EncodeSse(text);
    EncodedBoundary(text, |e|, more);
    EncodedShape(text);
    assert p.buffer[..|e| - 2] == e[..|e| - 2];
    assert p.buffer[|e| - 2 + 2..] == more;
    HandleEncoded(text);
  }

  lemma DrainPartialMessage(p: Progress, rest: seq<string>, tail: string)
    requires Sendable(rest) && p.buffer + tail == EncodeAll(rest) && Partial(p.buffer, rest)
    ensures Drain(p) == p
  {
    if rest == [] {
      FirstBoundaryIsFirst(p.buffer);
    } else {
      assert rest[0] in rest;
      Align(p.buffer, tail, EncodeSse(rest[0]), EncodeAll(rest[1..]));
      EncodedBoundary(rest[0], |p.buffer|, "");
    }
  }

  lemma ReceivedOneMore(handed: seq<string>, rest: seq<string>, m: nat)
    requires m < |rest|
    ensures handed + [TrimStart(rest[0])] + Received(rest[1..][..m]) == handed + Received(rest[..m + 1])
    ensures rest[1..][m..] == rest[m + 1..]
  {
    assert rest[..m + 1][1..] == rest[1..][..m];
  }

  // Draining any part of an encoded stream hands over the messages it completes and keeps less than one.
  lemma {:induction false} DrainEncoded(p: Progress, rest: seq<string>, tail: string) returns (m: nat)
    requires p.error.None? && Sendable(rest) && p.buffer + tail == EncodeAll(rest)
    ensures m <= |rest|
    ensures var q := Drain(p);
      && q.error.None? && q.handed == p.handed + Received(rest[..m])
      && q.buffer + tail == EncodeAll(rest[m..]) && Partial(q.buffer, rest[m..])
    decreases rest
  {
    if Partial(p.buffer, rest) {
      m := 0;
      assert rest[..0] == [] && rest[0..] == rest && p.handed + [] == p.handed;
      DrainPartialMessage(p, rest, tail);
    } else {
      var e := EncodeSse(rest[0]);
      assert rest[0] in rest;
      Align(p.buffer, tail, e, EncodeAll(rest[1..]));
      var more := p.buffer[|e|..];
      DrainOneMessage(p, rest[0], more);
      var k := DrainEncoded(Progress(p.handed + [TrimStart(rest[0])], more, None), rest[1..], tail);
      ReceivedOneMore(p.handed, rest, k);
      m := k + 1;
    }
  }

  lemma PartialIsBounded(buffer: string, rest: seq<string>, tail: string)
    requires Sendable(rest) && Partial(buffer, rest) && buffer + tail == EncodeAll(rest)
    ensures ByteLength(buffer) <= MAX_RENDERER_STREAM_MESSAGE_BYTES
  {
    if rest != [] {
      var e := EncodeSse(rest[0]);
      assert rest[0] in rest;
      Align(buffer, tail, e, EncodeAll(rest[1..]));
      assert e == buffer + e[|buffer|..];
      ByteLengthAdds(buffer, e[|buffer|..]);
    }
  }

  lemma NothingLeft(buffer: string, rest: seq<string>)
    requires Partial(buffer, rest) && buffer == EncodeAll(rest)
    ensures rest == [] && buffer == ""
  {
  }

  // A cutting that exceeds the bound is refused.
  lemma {:induction false} BeyondBound(p: Progress, chunks: seq<string>)
    requires !WithinBound(p, chunks)
    ensures FeedAll(p, chunks).error == Some(BufferExceeded)
    decreases chunks
  {
    if ByteLength(p.buffer + chunks[0]) > MAX_RENDERER_STREAM_MESSAGE_BYTES * 2 {
      AfterError(Feed(p, chunks[0]), chunks[1..]);
    } else {
      BeyondBound(Feed(p, chunks[0]), chunks[1..]);
    }
  }

  // The stream the server writes, cut anywhere (also inside a separator): exactly the messages, in order,
  // no error, and an empty buffer at the end, if and only if the cutting keeps the buffer within its bound.
  lemma StreamRoundTrip(texts: seq<string>, chunks: seq<string>)
    requires Sendable(texts) && Concat(chunks) == EncodeAll(texts)
    ensures WithinBound(Fresh, chunks) <==> Finished(FeedAll(Fresh, chunks)) == Progress(Received(texts), "", None)
    ensures (forall text :: text in texts ==> text != "" && !IsWhitespace(text[0])) ==> Received(texts) == texts
  {
    if WithinBound(Fresh, chunks) {
      ChunkingDoesNotMatter(Fresh, chunks);
      assert Fresh.buffer + Concat(chunks) + "" == EncodeAll(texts);
      var m := DrainEncoded(Fresh.(buffer := Fresh.buffer + Concat(chunks)), texts, "");
      var whole := Drain(Fresh.(buffer := Fresh.buffer + Concat(chunks)));
      assert whole.buffer + "" == whole.buffer;
      NothingLeft(whole.buffer, texts[m..]);
      assert texts[..m] == texts && [] + Received(texts) == Received(texts);
    } else {
      BeyondBound(Fresh, chunks);
    }
    if forall text :: text in texts ==> text != "" && !IsWhitespace(text[0]) { ReceivedUnchanged(texts); }
  }

  predicate SmallChunks(chunks: seq<string>) {
    forall i :: 0 <= i < |chunks| ==> ByteLength(chunks[i]) <= MAX_RENDERER_STREAM_MESSAGE_BYTES
  }

  lemma {:induction false} SmallChunksFit(p: Progress, rest: seq<string>, chunks: seq<string>)
    requires p.error.None? && Sendable(rest) && Partial(p.buffer, rest)
    requires p.buffer + Concat(chunks) == EncodeAll(rest)
    requires SmallChunks(chunks)
    ensures WithinBound(p, chunks)
    decreases chunks
  {
    if chunks != [] {
      var tail := Concat(chunks[1..]);
      PartialIsBounded(p.buffer, rest, chunks[0] + tail);
      ByteLengthAdds(p.buffer, chunks[0]);
      assert p.buffer + (chunks[0] + tail) == p.buffer + chunks[0] + tail;
      var m := DrainEncoded(p.(buffer := p.buffer + chunks[0]), rest, tail);
      SmallChunksFit(Feed(p, chunks[0]), rest[m..], chunks[1..]);
    }
  }

  // A condition known in advance: no chunk longer than one message may be.
  lemma SmallChunksRoundTrip(texts: seq<string>, chunks: seq<string>)
    requires Sendable(texts) && Concat(chunks) == EncodeAll(texts)
    requires SmallChunks(chunks)
    ensures Finished(FeedAll(Fresh, chunks)) == Progress(Received(texts), "", None)
  {
    assert Fresh.buffer + Concat(chunks) == Concat(chunks);
    SmallChunksFit(Fresh, texts, chunks);
    StreamRoundTrip(texts, chunks);
  }

  lemma {:induction false} ReceivedUnchanged(texts: seq<string>)
    requires forall text :: text in texts ==> text != "" && !IsWhitespace(text[0])
    ensures Received(texts) == texts
  {
    if texts != [] {
      assert texts[0] in texts && forall text :: text in texts[1..] ==> text in texts;
      ReceivedUnchanged(texts[1..]);
    }
  }

  // ---- What the pieces are ----

  // How many bits n bytes of UTF-8 carry (section 3 of RFC 3629): 7, 11, 16 and 21.
  function Carried(n: nat): nat {
    if n == 1 then 0x80 else if n == 2 then 0x800 else if n == 3 then 0x1_0000 else 0x20_0000
  }

  // The width is the least number of bytes that carries the character.
  lemma WidthIsLeast(c: char)
    ensures 1 <= Utf8Width(c) <= 4 && c as int < Carried(Utf8Width(c))
    ensures forall n :: 1 <= n < Utf8Width(c) ==> Carried(n) <= c as int
  {
  }

  lemma {:induction false} TrimStartExactly(s: string) returns (k: nat)
    ensures k <= |s| && TrimStart(s) == s[k..]
    ensures forall i :: 0 <= i < k ==> IsWhitespace(s[i])
    ensures k < |s| ==> !IsWhitespace(s[k])
  {
    k := 0;
    if s != [] && IsWhitespace(s[0]) {
      var rest := TrimStartExactly(s[1..]);
      k := rest + 1;
    }
  }

  lemma {:induction false} TrimEndExactly(s: string) returns (k: nat)
    ensures k <= |s| && TrimEnd(s) == s[..k]
    ensures forall i :: k <= i < |s| ==> IsWhitespace(s[i])
    ensures k > 0 ==> !IsWhitespace(s[k - 1])
  {
    k := |s|;
    if s != [] && IsWhitespace(s[|s| - 1]) { k := TrimEndExactly(s[..|s| - 1]); }
  }

  // Trimming takes exactly the whitespace off both ends.
  lemma TrimExactly(s: string) returns (i: nat, j: nat)
    ensures i <= j <= |s| && Trim(s) == s[i..j]
    ensures (forall k :: 0 <= k < i ==> IsWhitespace(s[k])) && (forall k :: j <= k < |s| ==> IsWhitespace(s[k]))
    ensures i < j ==> !IsWhitespace(s[i]) && !IsWhitespace(s[j - 1])
  {
    i := TrimStartExactly(s);
    var rest := s[i..];
    var k := TrimEndExactly(rest);
    j := i + k;
    forall m | j <= m < |s| ensures IsWhitespace(s[m]) { assert s[m] == rest[m - i]; }
  }

  // The lines of s, ended by a line feed with or without a carriage return before it.
  ghost predicate LinesOf(lines: seq<string>, s: string)
    decreases lines
  {
    && lines != [] && '\n' !in lines[0]
    && if |lines| == 1 then s == lines[0]
       else exists rest :: LinesOf(lines[1..], rest)
              && ((s == lines[0] + "\r\n" + rest)
                  || (s == lines[0] + "\n" + rest && (lines[0] == "" || lines[0][|lines[0]| - 1] != '\r')))
  }

  lemma {:induction false} SplitIsLines(s: string)
    ensures LinesOf(SplitLines(s), s)
    decreases |s|
  {
    IndexOfFinds(s, "\n", 0);
    match IndexOf(s, "\n", 0)
    case None =>
      forall i | 0 <= i < |s| ensures s[i] != '\n' { assert !OccursAt(s, "\n", i) && s[i..i + 1] == [s[i]]; }
    case Some(i) =>
      SplitIsLines(s[i + 1..]);
      forall k | 0 <= k < i ensures s[k] != '\n' { assert !OccursAt(s, "\n", k) && s[k..k + 1] == [s[k]]; }
      assert s[i..i + 1] == "\n";
      OneMoreLine(s, i, SplitLines(s[i + 1..]));
      var first := if i > 0 && s[i - 1] == '\r' then s[..i - 1] else s[..i];
      if i > 0 { assert s[..i][..i - 1] == s[..i - 1]; }
      assert SplitLines(s) == [first] + SplitLines(s[i + 1..]);
  }

  lemma OneMoreLine(s: string, i: nat, later: seq<string>)
    requires i < |s| && s[i] == '\n' && LinesOf(later, s[i + 1..])
    requires forall k :: 0 <= k < i ==> s[k] != '\n'
    ensures LinesOf([if i > 0 && s[i - 1] == '\r' then s[..i - 1] else s[..i]] + later, s)
  {
    var rest := s[i + 1..];
    var first := if i > 0 && s[i - 1] == '\r' then s[..i - 1] else s[..i];
    var lines := [first] + later;
    assert lines[1..] == later;
    if i > 0 && s[i - 1] == '\r' {
      assert s == first + "\r\n" + rest;
    } else {
      assert s == first + "\n" + rest;
    }
  }

  // ---- Which blocks are accepted ----

  predicate IsComment(line: string) {
    line != "" && line[0] == ':'
  }

  predicate HasField(line: string, name: string) {
    |name| <= |line| && forall i :: 0 <= i < |name| ==> line[i] == name[i]
  }

  // The trimmed values of the event lines and the left-trimmed values of the data lines, in order.
  function EventValues(lines: seq<string>): seq<string> {
    if lines == [] then []
    else (if HasField(lines[0], "event:") then [Trim(lines[0][6..])] else []) + EventValues(lines[1..])
  }

  function DataValues(lines: seq<string>): seq<string> {
    if lines == [] then []
    else (if HasField(lines[0], "data:") then [TrimStart(lines[0][5..])] else []) + DataValues(lines[1..])
  }

  predicate IsKnown(line: string) {
    IsComment(line) || HasField(line, "event:") || HasField(line, "data:") || forall i :: 0 <= i < |line| ==> IsWhitespace(line[i])
  }

  lemma BlankWhenTrimmed(line: string)
    ensures Trim(line) == [] <==> forall i :: 0 <= i < |line| ==> IsWhitespace(line[i])
  {
    var i, j := TrimExactly(line);
  }

  lemma FieldsApart(line: string)
    ensures StartsWith(line, ":") <==> IsComment(line)
    ensures StartsWith(line, "event:") <==> HasField(line, "event:")
    ensures StartsWith(line, "data:") <==> HasField(line, "data:")
    ensures HasField(line, "event:") ==> line[0] == 'e'
    ensures HasField(line, "data:") ==> line[0] == 'd'
  {
  }

  predicate AllKnown(lines: seq<string>) {
    forall i :: 0 <= i < |lines| ==> IsKnown(lines[i])
  }

  lemma OneMoreKnown(lines: seq<string>)
    requires lines != []
    ensures AllKnown(lines) <==> IsKnown(lines[0]) && AllKnown(lines[1..])
  {
    var rest := lines[1..];
    assert forall i :: 0 < i < |lines| ==> lines[i] == rest[i - 1];
    assert forall i :: 0 <= i < |rest| ==> rest[i] == lines[i + 1];
  }

  // What the line loop makes of lines, given what it found before.
  predicate Yields(lines: seq<string>, event: Option<string>, data: seq<string>, text: string) {
    && AllKnown(lines)
    && (if event.None? then [] else [event.value]) + EventValues(lines) == ["delivery"]
    && data + DataValues(lines) == [text]
  }

  lemma NoLines(event: Option<string>, data: seq<string>, text: string)
    ensures ScanLines([], event, data) == Ok(text) <==> Yields([], event, data, text)
  {
    var before := if event.None? then [] else [event.value];
    assert data + [] == data && before + [] == before;
    assert before == ["delivery"] <==> event == Some("delivery");
    assert data == [text] <==> |data| == 1 && data[0] == text;
  }

  lemma EventLine(lines: seq<string>, event: Option<string>, data: seq<string>, text: string)
    requires lines != [] && HasField(lines[0], "event:")
    ensures Yields(lines, event, data, text) <==> event.None? && Yields(lines[1..], Some(Trim(lines[0][6..])), data, text)
  {
    var value, rest := Trim(lines[0][6..]), lines[1..];
    FieldsApart(lines[0]);
    OneMoreKnown(lines);
    assert [] + DataValues(rest) == DataValues(rest);
    assert [] + ([value] + EventValues(rest)) == [value] + EventValues(rest);
  }

  lemma DataLine(lines: seq<string>, event: Option<string>, data: seq<string>, text: string)
    requires lines != [] && HasField(lines[0], "data:")
    ensures Yields(lines, event, data, text) <==> Yields(lines[1..], event, data + [TrimStart(lines[0][5..])], text)
  {
    var value, rest := TrimStart(lines[0][5..]), lines[1..];
    FieldsApart(lines[0]);
    OneMoreKnown(lines);
    assert [] + EventValues(rest) == EventValues(rest);
    assert data + ([value] + DataValues(rest)) == data + [value] + DataValues(rest);
  }

  lemma OtherLine(lines: seq<string>, event: Option<string>, data: seq<string>, text: string)
    requires lines != [] && !HasField(lines[0], "event:") && !HasField(lines[0], "data:")
    ensures Yields(lines, event, data, text) <==> IsKnown(lines[0]) && Yields(lines[1..], event, data, text)
  {
    OneMoreKnown(lines);
    assert [] + EventValues(lines[1..]) == EventValues(lines[1..]) && [] + DataValues(lines[1..]) == DataValues(lines[1..]);
  }

  lemma {:induction false} ScanAcceptsExactly(lines: seq<string>, event: Option<string>, data: seq<string>, text: string)
    ensures ScanLines(lines, event, data) == Ok(text) <==> Yields(lines, event, data, text)
    decreases lines
  {
    if lines == [] {
      NoLines(event, data, text);
    } else {
      var line, rest := lines[0], lines[1..];
      FieldsApart(line);
      if HasField(line, "event:") {
        EventLine(lines, event, data, text);
        ScanAcceptsExactly(rest, Some(Trim(line[6..])), data, text);
      } else if HasField(line, "data:") {
        DataLine(lines, event, data, text);
        ScanAcceptsExactly(rest, event, data + [TrimStart(line[5..])], text);
      } else {
        BlankWhenTrimmed(line);
        OtherLine(lines, event, data, text);
        ScanAcceptsExactly(rest, event, data, text);
      }
    }
  }

  // A block is handed over exactly if it is within the bound, every line of it is a comment, blank, an
  // event or a data line, the only event is a delivery, and there is one data line; and then that is what
  // is handed over.
  lemma BlockAcceptedExactly(block: string, text: string)
    ensures HandleBlock(block) == Ok(text) <==>
      && ByteLength(block) <= 65536
      && (forall i :: 0 <= i < |SplitLines(block)| ==> IsKnown(SplitLines(block)[i]))
      && EventValues(SplitLines(block)) == ["delivery"]
      && DataValues(SplitLines(block)) == [text]
  {
    var lines := SplitLines(block);
    ScanAcceptsExactly(lines, None, [], text);
    assert [] + EventValues(lines) == EventValues(lines) && [] + DataValues(lines) == DataValues(lines);
  }

  // ---- Streams that go wrong ----

  lemma DrainWhole(texts: seq<string>)
    requires Sendable(texts)
    ensures Drain(Fresh.(buffer := EncodeAll(texts))) == Progress(Received(texts), "", None)
  {
    assert EncodeAll(texts) + "" == EncodeAll(texts);
    var m := DrainEncoded(Fresh.(buffer := EncodeAll(texts)), texts, "");
    var whole := Drain(Fresh.(buffer := EncodeAll(texts)));
    assert whole.buffer + "" == whole.buffer;
    NothingLeft(whole.buffer, texts[m..]);
    assert texts[..m] == texts && [] + Received(texts) == Received(texts);
  }

  // A malformed event stops the stream with its error: everything before it has been handed over, and
  // nothing after it is.
  lemma MalformedEventStops(texts: seq<string>, block: string, more: string)
    requires Sendable(texts) && block != ""
    requires FindEventBoundary(block + "\n\n") == Some(Boundary(|block|, 2)) && HandleBlock(block).Err?
    ensures Drain(Fresh.(buffer := EncodeAll(texts) + (block + "\n\n" + more)))
         == Progress(Received(texts), more, Some(HandleBlock(block).error))
  {
    var rest := block + "\n\n" + more;
    DrainInTwoParts(Fresh.(buffer := EncodeAll(texts)), rest);
    DrainWhole(texts);
    assert "" + rest == rest;
    BoundaryIsStable(block + "\n\n", more);
    assert rest[..|block|] == block && rest[|block| + 2..] == more;
  }

  // A stream cut off inside a message ends with an error, after what came before it.
  lemma CutOffMessageIsIncomplete(texts: seq<string>, text: string, k: nat)
    requires Sendable(texts + [text]) && 0 < k < |EncodeSse(text)|
    ensures Finished(Drain(Fresh.(buffer := EncodeAll(texts) + EncodeSse(text)[..k])))
         == Progress(Received(texts), EncodeSse(text)[..k], Some(Incomplete))
  {
    var part, e := EncodeSse(text)[..k], EncodeSse(text);
    assert (texts + [text])[|texts|] == text;
    assert forall t :: t in texts ==> t in texts + [text];
    DrainInTwoParts(Fresh.(buffer := EncodeAll(texts)), part);
    DrainWhole(texts);
    assert "" + part == part;
    var one := [text];
    assert one[1..] == [] && EncodeAll(one) == e + "" == e && part + e[k..] == e;
    DrainPartialMessage(Progress(Received(texts), part, None), one, e[k..]);
    BlankWhenTrimmed(part);
    assert part[0] == 'e';
  }

  // ---- The loops ----

  method HandleSseBlock(block: string) returns (r: Result<string, FramingError>)
    ensures r == HandleBlock(block)
  {
    if ByteLength(block) > MAX_RENDERER_STREAM_MESSAGE_BYTES { return Err(MessageExceeded); }
    var lines := SplitLines(block);
    var event: Option<string> := None;
    var data: seq<string> := [];
    for i := 0 to |lines|
      invariant ScanLines(lines, None, []) == ScanLines(lines[i..], event, data)
    {
      var line := lines[i];
      assert lines[i..][0] == line && lines[i..][1..] == lines[i + 1..];
      if StartsWith(line, ":") { continue; }
      if StartsWith(line, "event:") {
        if event.Some? { return Err(RepeatedEvent); }
        event := Some(Trim(line[6..]));
        continue;
      }
      if StartsWith(line, "data:") {
        data := data + [TrimStart(line[5..])];
        continue;
      }
      if Trim(line) != [] { return Err(UnsupportedField); }
    }
    if event != Some("delivery") || |data| != 1 { return Err(ContractMismatch); }
    r := Ok(data[0]);
  }

  method ConsumeStream(chunks: seq<string>) returns (p: Progress)
    ensures p == Finished(FeedAll(Fresh, chunks))
  {
    var handed: seq<string>, buffer, error := [], "", None;
    var k := 0;
    while k < |chunks| && error.None?
      invariant k <= |chunks|
      invariant FeedAll(Fresh, chunks) == FeedAll(Progress(handed, buffer, error), chunks[k..])
    {
      ghost var before := Progress(handed, buffer, error);
      assert chunks[k..][1..] == chunks[k + 1..];
      buffer := buffer + chunks[k];
      if ByteLength(buffer) > MAX_RENDERER_STREAM_MESSAGE_BYTES * 2 {
        error := Some(BufferExceeded);
      } else {
        var boundary := FindEventBoundary(buffer);
        while boundary.Some? && error.None?
          invariant boundary == FindEventBoundary(buffer)
          invariant Drain(Progress(handed, buffer, error)) == Feed(before, chunks[k])
          decreases |buffer|
        {
          FirstBoundaryIsFirst(buffer);
          var block := buffer[..boundary.value.index];
          buffer := buffer[boundary.value.index + boundary.value.length..];
          if block != [] {
            var handled := HandleSseBlock(block);
            match handled {
              case Ok(text) => handed := handed + [text];
              case Err(e) => error := Some(e);
            }
          }
          boundary := FindEventBoundary(buffer);
        }
      }
      k := k + 1;
    }
    if error.Some? { AfterError(Progress(handed, buffer, error), chunks[k..]); }
    if error.None? && Trim(buffer) != [] { error := Some(Incomplete); }
    p := Progress(handed, buffer, error);
  }
}
