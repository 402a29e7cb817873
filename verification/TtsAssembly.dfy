// Assembling a synthesized audio stream: the callback that admits messages one by one, the consistency
// check of the whole, and the concatenation of its bytes.
module TtsAssemblies {
  import opened Results
  import opened Sequences

  const MAX_PCM_BYTES := 12 * 1024 * 1024
  const MAX_PCM_FRAMES := MAX_PCM_BYTES / 4
  const MAX_CHUNK_FRAMES := 4096
  const MAX_CHUNKS := 4096

  datatype Model = Model(engine: nat, id: nat, version: nat, runtime: nat, determinism: nat)

  // The segment hashes of the admitted synthesis plan, in order.
  datatype Plan = Plan(textHash: nat, segments: seq<nat>)

  datatype Begin = Begin(normalizedTextHash: nat, segmentCount: nat, sampleRate: nat, model: Model)

  datatype Chunk = Chunk(
    sequence: nat, index: nat, segment: nat, segmentHash: nat, final: bool, sampleRate: nat,
    frames: nat, bytes: seq<Byte>)

  datatype End = End(
    sequence: nat, segmentsSynthesized: nat, totalFrames: nat, totalBytes: nat, sampleRate: nat,
    audioHash: nat, model: Model)

  // Foreign stands for everything of another request or basis, and for control results.
  datatype Message = AudioBegin(begin: Begin) | AudioChunk(chunk: Chunk) | AudioEnd(end: End) | Foreign

  // What the message schema admits.
  predicate WellFormedChunk(c: Chunk) {
    && 1 <= c.frames <= MAX_CHUNK_FRAMES && |c.bytes| == 4 * c.frames
    && c.sequence == c.index + 1 && c.index < MAX_CHUNKS
  }

  predicate WellFormed(m: Message) {
    match m
    case AudioChunk(c) => WellFormedChunk(c)
    case AudioEnd(e) => 0 < e.totalFrames <= MAX_PCM_FRAMES && e.totalBytes == 4 * e.totalFrames
    case _ => true
  }

  function TotalFrames(chunks: seq<Chunk>): nat {
    if chunks == [] then 0 else chunks[0].frames + TotalFrames(chunks[1..])
  }

  function Joined(chunks: seq<Chunk>): seq<Byte> {
    if chunks == [] then [] else chunks[0].bytes + Joined(chunks[1..])
  }

  // ---- The callback ----

  datatype Assembly = Assembly(
    begin: Option<Begin>, chunks: seq<Chunk>, end: Option<End>, totalBytes: nat, totalFrames: nat)

  const EmptyAssembly := Assembly(None, [], None, 0, 0)

  // None is a thrown error, which ends the synthesis.
  function Receive(a: Assembly, plan: Plan, m: Message): Option<Assembly> {
    if !WellFormed(m) then None
    else
      match m
      case Foreign => None
      case AudioBegin(begin) =>
        if a.begin.Some? || begin.normalizedTextHash != plan.textHash then None else Some(a.(begin := Some(begin)))
      case AudioChunk(c) =>
        if a.begin.None? || a.end.Some? then None
        else if c.sequence != |a.chunks| + 1 || c.index != |a.chunks| then None
        else if a.totalBytes + |c.bytes| > MAX_PCM_BYTES || a.totalFrames + c.frames > MAX_PCM_FRAMES then None
        else Some(a.(chunks := a.chunks + [c], totalBytes := a.totalBytes + |c.bytes|, totalFrames := a.totalFrames + c.frames))
      case AudioEnd(e) =>
        if a.begin.None? || a.end.Some? then None
        else if e.sequence != |a.chunks| + 1 || e.totalBytes != a.totalBytes || e.totalFrames != a.totalFrames then None
        else Some(a.(end := Some(e)))
  }

  function ReceiveAll(a: Assembly, plan: Plan, messages: seq<Message>): Option<Assembly>
    decreases messages
  {
    if messages == [] then Some(a)
    else
      var next := Receive(a, plan, messages[0]);
      if next.None? then None else ReceiveAll(next.value, plan, messages[1..])
  }

  // ---- The consistency check ----

  // The loop over the chunks from an expected segment on; the result is the segment expected after them.
  function Walk(chunks: seq<Chunk>, expected: nat, total: nat, rate: nat, plan: Plan): Option<nat>
    decreases chunks
  {
    if chunks == [] then Some(expected)
    else
      var c := chunks[0];
      if c.sampleRate != rate || c.segment != expected then None
      else if c.segment >= |plan.segments| || c.segmentHash != plan.segments[c.segment] then None
      else if total + c.frames > MAX_PCM_FRAMES then None
      else Walk(chunks[1..], if c.final then expected + 1 else expected, total + c.frames, rate, plan)
  }

  predicate Consistent(plan: Plan, rate: nat, begin: Begin, chunks: seq<Chunk>, end: End) {
    && begin.segmentCount == |plan.segments| == end.segmentsSynthesized
    && begin.sampleRate == rate == end.sampleRate
    && Walk(chunks, 0, 0, rate, plan) == Some(|plan.segments|)
    && TotalFrames(chunks) == end.totalFrames
  }

  type Hash = seq<Byte> -> nat

  // From the messages of a finished synthesis to its PCM; None is any refusal.
  function Assemble(messages: seq<Message>, plan: Plan, rate: nat, hash: Hash): Option<seq<Byte>> {
    var received := ReceiveAll(EmptyAssembly, plan, messages);
    if received.None? then None
    else
      var a := received.value;
      if a.begin.None? || a.end.None? || a.chunks == [] then None
      else if !Consistent(plan, rate, a.begin.value, a.chunks, a.end.value) then None
      else if a.begin.value.model != a.end.value.model then None
      else
        var pcm := Joined(a.chunks);
        if |pcm| != a.end.value.totalBytes || |pcm| == 0 || |pcm| > MAX_PCM_BYTES then None
        else if hash(pcm) != a.end.value.audioHash then None
        else Some(pcm)
  }

  // ---- What an admitted stream is ----

  function Flatten(groups: seq<seq<Chunk>>): seq<Chunk> {
    if groups == [] then [] else groups[0] + Flatten(groups[1..])
  }

  // The chunks of one segment: at least one, all of that segment, the last and only the last final.
  predicate SegmentGroup(group: seq<Chunk>, segment: nat, rate: nat, plan: Plan) {
    && group != [] && segment < |plan.segments|
    && forall i :: 0 <= i < |group| ==>
         && group[i].segment == segment && group[i].segmentHash == plan.segments[segment]
         && group[i].sampleRate == rate && (group[i].final <==> i == |group| - 1)
  }

  // One group per remaining segment, in order.
  predicate Grouped(groups: seq<seq<Chunk>>, first: nat, rate: nat, plan: Plan) {
    && first + |groups| == |plan.segments|
    && forall g :: 0 <= g < |groups| ==> SegmentGroup(groups[g], first + g, rate, plan)
  }

  function Wrapped(chunks: seq<Chunk>): seq<Message> {
    if chunks == [] then [] else [AudioChunk(chunks[0])] + Wrapped(chunks[1..])
  }

  // Numbered without a gap, at most 4096 of them, each of 1 to 4096 frames of four bytes.
  predicate NumberedFrom(chunks: seq<Chunk>, n: nat) {
    forall i :: 0 <= i < |chunks| ==>
      && chunks[i].index == n + i < 4096 && chunks[i].sequence == n + i + 1
      && 1 <= chunks[i].frames <= 4096 && |chunks[i].bytes| == 4 * chunks[i].frames
  }

  // ---- The walk accepts exactly the grouped streams ----

  lemma GroupExtends(c: Chunk, groups: seq<seq<Chunk>>, first: nat, rate: nat, plan: Plan)
    requires Grouped(groups, first, rate, plan) && groups != []
    requires c.segment == first && c.segmentHash == plan.segments[first] && c.sampleRate == rate && !c.final
    ensures Grouped([[c] + groups[0]] + groups[1..], first, rate, plan)
  {
    var group, more := groups[0], [c] + groups[0];
    assert SegmentGroup(groups[0], first + 0, rate, plan);
    assert forall i :: 0 < i < |more| ==> more[i] == group[i - 1];
    var n := [more] + groups[1..];
    forall g | 0 <= g < |n| ensures SegmentGroup(n[g], first + g, rate, plan) {
      if g > 0 { assert n[g] == groups[g]; }
    }
  }

  lemma GroupPrepends(c: Chunk, groups: seq<seq<Chunk>>, first: nat, rate: nat, plan: Plan)
    requires Grouped(groups, first + 1, rate, plan)
    requires c.segment == first < |plan.segments| && c.segmentHash == plan.segments[first] && c.sampleRate == rate && c.final
    ensures Grouped([[c]] + groups, first, rate, plan)
  {
    var n := [[c]] + groups;
    forall g | 0 <= g < |n| ensures SegmentGroup(n[g], first + g, rate, plan) {
      if g > 0 { assert SegmentGroup(groups[g - 1], first + 1 + (g - 1), rate, plan); }
    }
  }

  lemma {:induction false} WalkedIsGrouped(chunks: seq<Chunk>, first: nat, total: nat, rate: nat, plan: Plan)
    returns (groups: seq<seq<Chunk>>)
    requires Walk(chunks, first, total, rate, plan) == Some(|plan.segments|)
    ensures Grouped(groups, first, rate, plan) && Flatten(groups) == chunks
    decreases chunks
  {
    if chunks == [] {
      groups := [];
    } else {
      var c, rest := chunks[0], chunks[1..];
      if c.final {
        var later := WalkedIsGrouped(rest, first + 1, total + c.frames, rate, plan);
        groups := [[c]] + later;
        GroupPrepends(c, later, first, rate, plan);
        assert groups[1..] == later;
      } else {
        var same := WalkedIsGrouped(rest, first, total + c.frames, rate, plan);
        groups := [[c] + same[0]] + same[1..];
        GroupExtends(c, same, first, rate, plan);
        assert groups[1..] == same[1..];
        assert [c] + same[0] + Flatten(same[1..]) == [c] + (same[0] + Flatten(same[1..]));
      }
    }
  }

  lemma TailIsGrouped(groups: seq<seq<Chunk>>, first: nat, rate: nat, plan: Plan)
    requires Grouped(groups, first, rate, plan) && groups != []
    ensures SegmentGroup(groups[0], first, rate, plan)
    ensures Grouped(groups[1..], first + 1, rate, plan)
    ensures |groups[0]| > 1 ==> Grouped([groups[0][1..]] + groups[1..], first, rate, plan)
  {
    assert SegmentGroup(groups[0], first + 0, rate, plan);
    forall g | 0 <= g < |groups| - 1 ensures SegmentGroup(groups[1..][g], first + 1 + g, rate, plan) {
      assert SegmentGroup(groups[g + 1], first + (g + 1), rate, plan);
    }
  }

  lemma {:induction false} GroupedIsWalked(groups: seq<seq<Chunk>>, first: nat, total: nat, rate: nat, plan: Plan)
    requires Grouped(groups, first, rate, plan) && total + TotalFrames(Flatten(groups)) <= MAX_PCM_FRAMES
    ensures Walk(Flatten(groups), first, total, rate, plan) == Some(|plan.segments|)
    decreases |Flatten(groups)|
  {
    if groups != [] {
      TailIsGrouped(groups, first, rate, plan);
      var c, group := groups[0][0], groups[0];
      if |group| == 1 {
        assert group == [c];
        assert Flatten(groups)[1..] == Flatten(groups[1..]);
        GroupedIsWalked(groups[1..], first + 1, total + c.frames, rate, plan);
      } else {
        var shorter := [group[1..]] + groups[1..];
        assert shorter[1..] == groups[1..];
        assert Flatten(groups)[1..] == Flatten(shorter);
        GroupedIsWalked(shorter, first, total + c.frames, rate, plan);
      }
    }
  }

  lemma {:induction false} WalkBoundsFrames(chunks: seq<Chunk>, first: nat, total: nat, rate: nat, plan: Plan)
    requires Walk(chunks, first, total, rate, plan).Some? && total <= MAX_PCM_FRAMES
    ensures total + TotalFrames(chunks) <= MAX_PCM_FRAMES
    decreases chunks
  {
    if chunks != [] {
      var c := chunks[0];
      WalkBoundsFrames(chunks[1..], if c.final then first + 1 else first, total + c.frames, rate, plan);
    }
  }

  // ---- The callback admits exactly one begin, numbered chunks and one matching end ----

  lemma {:induction false} JoinedLength(chunks: seq<Chunk>)
    requires forall i :: 0 <= i < |chunks| ==> WellFormedChunk(chunks[i])
    ensures |Joined(chunks)| == 4 * TotalFrames(chunks)
  {
    if chunks != [] { JoinedLength(chunks[1..]); }
  }

  function WithChunks(a: Assembly, chunks: seq<Chunk>): Assembly {
    a.(chunks := a.chunks + chunks, totalBytes := a.totalBytes + 4 * TotalFrames(chunks),
       totalFrames := a.totalFrames + TotalFrames(chunks))
  }

  lemma OneChunk(a: Assembly, plan: Plan, c: Chunk)
    requires a.begin.Some? && a.end.None? && a.totalBytes == 4 * a.totalFrames
    requires WellFormedChunk(c) && c.index == |a.chunks| && a.totalFrames + c.frames <= MAX_PCM_FRAMES
    ensures TotalFrames([c]) == c.frames
    ensures Receive(a, plan, AudioChunk(c)) == Some(WithChunks(a, [c]))
  {
    assert [c][1..] == [];
  }

  lemma WithChunksTwice(a: Assembly, c: Chunk, rest: seq<Chunk>)
    ensures WithChunks(WithChunks(a, [c]), rest) == WithChunks(a, [c] + rest)
  {
    assert ([c] + rest)[1..] == rest;
    assert TotalFrames([c] + rest) == c.frames + TotalFrames(rest);
    assert [c][1..] == [] && TotalFrames([c]) == c.frames;
    assert a.chunks + [c] + rest == a.chunks + ([c] + rest);
  }

  lemma {:induction false} ReceiveChunks(a: Assembly, plan: Plan, chunks: seq<Chunk>, later: seq<Message>)
    requires a.begin.Some? && a.end.None? && a.totalBytes == 4 * a.totalFrames
    requires NumberedFrom(chunks, |a.chunks|) && a.totalFrames + TotalFrames(chunks) <= MAX_PCM_FRAMES
    ensures ReceiveAll(a, plan, Wrapped(chunks) + later) == ReceiveAll(WithChunks(a, chunks), plan, later)
    decreases chunks
  {
    if chunks == [] {
      assert Wrapped(chunks) + later == later && a.chunks + chunks == a.chunks;
    } else {
      var c, rest := chunks[0], chunks[1..];
      var messages := Wrapped(chunks) + later;
      assert WellFormedChunk(c) && messages[0] == AudioChunk(c);
      assert messages[1..] == Wrapped(rest) + later;
      OneChunk(a, plan, c);
      assert NumberedFrom(rest, |a.chunks| + 1);
      ReceiveChunks(WithChunks(a, [c]), plan, rest, later);
      WithChunksTwice(a, c, rest);
      assert chunks == [c] + rest;
    }
  }

  // Reading back what an accepted callback sequence was.
  lemma {:induction false} ReceivedIsChunksThenEnd(a: Assembly, plan: Plan, messages: seq<Message>)
    returns (chunks: seq<Chunk>)
    requires a.begin.Some? && a.end.None? && a.totalBytes == 4 * a.totalFrames && a.totalFrames <= MAX_PCM_FRAMES
    requires ReceiveAll(a, plan, messages).Some? && ReceiveAll(a, plan, messages).value.end.Some?
    ensures NumberedFrom(chunks, |a.chunks|) && a.totalFrames + TotalFrames(chunks) <= MAX_PCM_FRAMES
    ensures var received := ReceiveAll(a, plan, messages).value;
            && messages == Wrapped(chunks) + [AudioEnd(received.end.value)]
            && received == WithChunks(a, chunks).(end := received.end)
            && received.end.value.sequence == |received.chunks| + 1
            && received.end.value.totalFrames == received.totalFrames
    decreases messages
  {
    var next := Receive(a, plan, messages[0]).value;
    if messages[0].AudioEnd? {
      assert messages[1..] == [];
      chunks := [];
      assert a.chunks + chunks == a.chunks;
      assert messages == [] + [messages[0]];
    } else {
      var c := messages[0].chunk;
      var rest := ReceivedIsChunksThenEnd(next, plan, messages[1..]);
      chunks := [c] + rest;
      assert chunks[1..] == rest;
      assert a.chunks + [c] + rest == a.chunks + chunks;
      assert messages == [messages[0]] + messages[1..];
      forall i | 0 <= i < |chunks| ensures WellFormedChunk(chunks[i]) && chunks[i].index == |a.chunks| + i {
        if i > 0 { assert chunks[i] == rest[i - 1]; }
      }
    }
  }

  // ---- Main result ----

  // An admitted stream: one begin, then the chunks of every planned segment in order, numbered without
  // gaps, then an end that states their totals and the hash of their bytes.
  ghost predicate Stream(messages: seq<Message>, begin: Begin, groups: seq<seq<Chunk>>, end: End,
                         plan: Plan, rate: nat, hash: Hash) {
    var chunks := Flatten(groups);
    && messages == [AudioBegin(begin)] + Wrapped(chunks) + [AudioEnd(end)]
    && begin.normalizedTextHash == plan.textHash && begin.model == end.model
    && begin.segmentCount == |plan.segments| == end.segmentsSynthesized && begin.sampleRate == rate == end.sampleRate
    && chunks != [] && NumberedFrom(chunks, 0) && Grouped(groups, 0, rate, plan)
    && end.sequence == |chunks| + 1
    && end.totalFrames == TotalFrames(chunks) <= MAX_PCM_FRAMES && end.totalBytes == 4 * end.totalFrames
    && end.audioHash == hash(Joined(chunks))
  }

  // Every accepted synthesis is such a stream, and its PCM is the concatenation of the chunks' bytes,
  // as long as the end declared.
  lemma AcceptedIsStream(messages: seq<Message>, plan: Plan, rate: nat, hash: Hash)
    returns (begin: Begin, groups: seq<seq<Chunk>>, end: End)
    requires Assemble(messages, plan, rate, hash).Some?
    ensures Stream(messages, begin, groups, end, plan, rate, hash)
    ensures Assemble(messages, plan, rate, hash).value == Joined(Flatten(groups))
    ensures |Joined(Flatten(groups))| == end.totalBytes
  {
    var a := ReceiveAll(EmptyAssembly, plan, messages).value;
    assert messages[0].AudioBegin?;
    begin := messages[0].begin;
    var first := EmptyAssembly.(begin := Some(begin));
    assert Receive(EmptyAssembly, plan, messages[0]) == Some(first);
    var chunks := ReceivedIsChunksThenEnd(first, plan, messages[1..]);
    end := a.end.value;
    assert messages == [messages[0]] + messages[1..];
    assert messages == [AudioBegin(begin)] + Wrapped(chunks) + [AudioEnd(end)];
    assert [] + chunks == chunks;
    groups := WalkedIsGrouped(chunks, 0, 0, rate, plan);
    JoinedLength(chunks);
  }

  // And every such stream is accepted.
  lemma StreamIsAccepted(messages: seq<Message>, begin: Begin, groups: seq<seq<Chunk>>, end: End,
                         plan: Plan, rate: nat, hash: Hash)
    requires Stream(messages, begin, groups, end, plan, rate, hash)
    ensures Assemble(messages, plan, rate, hash) == Some(Joined(Flatten(groups)))
  {
    var chunks := Flatten(groups);
    var first := EmptyAssembly.(begin := Some(begin));
    assert messages[1..] == Wrapped(chunks) + [AudioEnd(end)];
    assert Receive(EmptyAssembly, plan, messages[0]) == Some(first);
    ReceiveChunks(first, plan, chunks, [AudioEnd(end)]);
    assert [] + chunks == chunks;
    var full := WithChunks(first, chunks);
    JoinedLength(chunks);
    assert chunks[0].frames >= 1 && TotalFrames(chunks) >= 1;
    assert Receive(full, plan, AudioEnd(end)) == Some(full.(end := Some(end)));
    assert [AudioEnd(end)][1..] == [];
    assert ReceiveAll(full, plan, [AudioEnd(end)]) == Some(full.(end := Some(end)));
    GroupedIsWalked(groups, 0, 0, rate, plan);
  }

  // ---- The loops ----

  class TtsAssembly {
    var begin: Option<Begin>
    var chunks: seq<Chunk>
    var end: Option<End>
    var totalChunkBytes: nat
    var totalChunkFrames: nat

    function Value(): Assembly
      reads this
    {
      Assembly(begin, chunks, end, totalChunkBytes, totalChunkFrames)
    }

    constructor ()
      ensures Value() == EmptyAssembly
    {
      begin, chunks, end, totalChunkBytes, totalChunkFrames := None, [], None, 0, 0;
    }

    // The synthesis callback; false is its throw.
    method OnMessage(plan: Plan, message: Message) returns (ok: bool)
      modifies this
      ensures var next := Receive(old(Value()), plan, message);
              ok == next.Some? && Value() == if ok then next.value else old(Value())
    {
      if !WellFormed(message) || message.Foreign? { return false; }
      if message.AudioBegin? {
        if begin.Some? || message.begin.normalizedTextHash != plan.textHash { return false; }
        begin := Some(message.begin);
        return true;
      }
      if message.AudioChunk? {
        if begin.None? || end.Some? { return false; }
        var chunk := message.chunk;
        if chunk.sequence != |chunks| + 1 || chunk.index != |chunks| { return false; }
        var nextBytes := totalChunkBytes + |chunk.bytes|;
        var nextFrames := totalChunkFrames + chunk.frames;
        if nextBytes > MAX_PCM_BYTES || nextFrames > MAX_PCM_FRAMES { return false; }
        totalChunkBytes := nextBytes;
        totalChunkFrames := nextFrames;
        chunks := chunks + [chunk];
        return true;
      }
      if begin.None? || end.Some? { return false; }
      if || message.end.sequence != |chunks| + 1 || message.end.totalBytes != totalChunkBytes
         || message.end.totalFrames != totalChunkFrames {
        return false;
      }
      end := Some(message.end);
      ok := true;
    }
  }

  // validateTtsAssemblyConsistency; false is its throw.
  method ValidateConsistency(plan: Plan, rate: nat, begin: Begin, chunks: seq<Chunk>, end: End) returns (ok: bool)
    ensures ok <==> Consistent(plan, rate, begin, chunks, end)
  {
    if || begin.segmentCount != |plan.segments| || begin.sampleRate != rate || end.sampleRate != rate
       || end.segmentsSynthesized != |plan.segments| {
      return false;
    }
    var expectedSegment: nat, totalFrames: nat := 0, 0;
    var i := 0;
    assert chunks[0..] == chunks;
    while i < |chunks|
      invariant 0 <= i <= |chunks|
      invariant Walk(chunks[i..], expectedSegment, totalFrames, rate, plan) == Walk(chunks, 0, 0, rate, plan)
      invariant totalFrames + TotalFrames(chunks[i..]) == TotalFrames(chunks)
    {
      assert chunks[i..][0] == chunks[i] && chunks[i..][1..] == chunks[i + 1..];
      var chunk := chunks[i];
      if chunk.sampleRate != rate || chunk.segment != expectedSegment { return false; }
      if chunk.segment >= |plan.segments| || chunk.segmentHash != plan.segments[chunk.segment] { return false; }
      totalFrames := totalFrames + chunk.frames;
      if totalFrames > MAX_PCM_FRAMES { return false; }
      if chunk.final { expectedSegment := expectedSegment + 1; }
      i := i + 1;
    }
    ok := expectedSegment == |plan.segments| && totalFrames == end.totalFrames;
  }

  // concatenateTtsPcm: an output array filled by offset; None is its throw.
  method ConcatenatePcm(chunks: seq<Chunk>, expectedBytes: nat) returns (r: Option<array<Byte>>)
    ensures r.Some? <==> 0 < expectedBytes <= MAX_PCM_BYTES && |Joined(chunks)| == expectedBytes
    ensures r.Some? ==> fresh(r.value) && r.value[..] == Joined(chunks)
  {
    if expectedBytes == 0 || expectedBytes > MAX_PCM_BYTES { return None; }
    var output := new Byte[expectedBytes](i => 0);
    var offset := 0;
    var i := 0;
    assert chunks[0..] == chunks;
    while i < |chunks|
      invariant 0 <= i <= |chunks| && 0 <= offset <= output.Length
      invariant output[..offset] + Joined(chunks[i..]) == Joined(chunks)
    {
      var bytes := chunks[i].bytes;
      assert chunks[i..][1..] == chunks[i + 1..];
      if offset + |bytes| > output.Length { return None; }
      ghost var filled := output[..offset];
      forall k | 0 <= k < |bytes| { output[offset + k] := bytes[k]; }
      assert output[..offset + |bytes|] == filled + bytes;
      Reassociate(filled, bytes, Joined(chunks[i + 1..]));
      offset := offset + |bytes|;
      i := i + 1;
    }
    assert output[..offset] == Joined(chunks);
    if offset != output.Length { return None; }
    assert output[..] == output[..offset];
    r := Some(output);
  }
}
