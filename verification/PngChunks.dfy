// The chunk loop of the vision runtime's PNG decoder, and the decoder from bytes to unfiltered scanlines.
// The checksum and the inflater are uninterpreted functions.
module PngChunks {
  import opened Results
  import opened Sequences
  import opened PngRows

  const MAX_PNG_BYTES := 2 * 1024 * 1024
  const MAX_IMAGE_DIMENSION := 4096
  const MAX_IMAGE_PIXELS := 8 * 1024 * 1024
  const SIGNATURE: seq<Byte> := [0x89, 0x50, 0x4E, 0x47, 0x0D, 0x0A, 0x1A, 0x0A]
  const IHDR: seq<Byte> := [0x49, 0x48, 0x44, 0x52]
  const IDAT: seq<Byte> := [0x49, 0x44, 0x41, 0x54]
  const IEND: seq<Byte> := [0x49, 0x45, 0x4E, 0x44]
  const TWO_TO_THE_32 := 0x1_0000_0000

  type Checksum = seq<Byte> -> nat

  datatype Chunk = Chunk(kind: seq<Byte>, payload: seq<Byte>)

  datatype Header = Header(width: nat, height: nat, colorType: Byte)

  datatype Image = Image(header: Header, idat: seq<Byte>)

  // ---- Big-endian 32-bit integers ----

  function U32(bytes: seq<Byte>): (n: nat)
    requires |bytes| == 4
    ensures n < TWO_TO_THE_32
  {
    ((bytes[0] as int * 256 + bytes[1] as int) * 256 + bytes[2] as int) * 256 + bytes[3] as int
  }

  function BigEndian(n: nat): (bytes: seq<Byte>)
    requires n < TWO_TO_THE_32
    ensures |bytes| == 4
  {
    [n / 256 / 256 / 256, n / 256 / 256 % 256, n / 256 % 256, n % 256]
  }

  lemma U32OfBigEndian(n: nat)
    requires n < TWO_TO_THE_32
    ensures U32(BigEndian(n)) == n
  {
    var bytes := BigEndian(n);
    assert bytes[0] as int * 256 + bytes[1] as int == n / 256 / 256;
    assert n / 256 / 256 * 256 + bytes[2] as int == n / 256;
  }

  lemma BigEndianOfU32(bytes: seq<Byte>)
    requires |bytes| == 4
    ensures BigEndian(U32(bytes)) == bytes
  {
    var n := U32(bytes);
    assert n / 256 == (bytes[0] as int * 256 + bytes[1] as int) * 256 + bytes[2] as int;
    assert n / 256 / 256 == bytes[0] as int * 256 + bytes[1] as int;
  }

  // ---- Printing ----

  function PrintChunk(chunk: Chunk, crc: Checksum): seq<Byte>
    requires |chunk.payload| <= MAX_PNG_BYTES
  {
    BigEndian(|chunk.payload|) + chunk.kind + chunk.payload + BigEndian(crc(chunk.kind + chunk.payload) % TWO_TO_THE_32)
  }

  predicate Printable(chunks: seq<Chunk>) {
    forall chunk :: chunk in chunks ==> |chunk.kind| == 4 && |chunk.payload| <= MAX_PNG_BYTES
  }

  function Print(chunks: seq<Chunk>, crc: Checksum): seq<Byte>
    requires Printable(chunks)
  {
    if chunks == [] then [] else PrintChunk(chunks[0], crc) + Print(chunks[1..], crc)
  }

  // ---- What a well-formed chunk list is ----

  function HeaderFields(payload: seq<Byte>): Option<Header>
    requires |payload| == 13
  {
    var width, height := U32(payload[0..4]), U32(payload[4..8]);
    if || width < 1 || height < 1 || width > MAX_IMAGE_DIMENSION || height > MAX_IMAGE_DIMENSION
       || width * height > MAX_IMAGE_PIXELS || payload[8] != 8 || payload[9] !in {0, 2, 4, 6}
       || payload[10] != 0 || payload[11] != 0 || payload[12] != 0
    then None
    else Some(Header(width, height, payload[9]))
  }

  function IdatPart(chunk: Chunk): seq<Byte> {
    if chunk.kind == IDAT then chunk.payload else []
  }

  function IdatBytes(chunks: seq<Chunk>): seq<Byte> {
    if chunks == [] then []
    else IdatPart(chunks[0]) + IdatBytes(chunks[1..])
  }

  predicate Ends(chunks: seq<Chunk>) {
    && chunks != []
    && chunks[|chunks| - 1] == Chunk(IEND, [])
    && forall i :: 0 <= i < |chunks| - 1 ==> chunks[i].kind != IEND
  }

  predicate NoHeader(chunks: seq<Chunk>) {
    forall i :: 0 <= i < |chunks| ==> chunks[i].kind != IHDR
  }

  // The only IHDR stands at h, holds acceptable fields, and precedes every IDAT.
  predicate HeaderAt(chunks: seq<Chunk>, h: nat, header: Header) {
    && h < |chunks|
    && chunks[h].kind == IHDR && |chunks[h].payload| == 13 && HeaderFields(chunks[h].payload) == Some(header)
    && (forall i :: 0 <= i < |chunks| && i != h ==> chunks[i].kind != IHDR)
    && (forall i :: 0 <= i < h ==> chunks[i].kind != IDAT)
  }

  ghost predicate Describes(chunks: seq<Chunk>, image: Image) {
    && Printable(chunks)
    && Ends(chunks)
    && (exists h :: HeaderAt(chunks, h, image.header))
    && image.idat == IdatBytes(chunks)
    && 0 < |image.idat| <= MAX_PNG_BYTES
  }

  // The header payload of section 11.2.1 of the W3C PNG Specification: bit depth 8, no interlacing.
  function HeaderBytes(header: Header): seq<Byte>
    requires header.width < TWO_TO_THE_32 && header.height < TWO_TO_THE_32
  {
    BigEndian(header.width) + BigEndian(header.height) + [8, header.colorType, 0, 0, 0]
  }

  predicate Decodable(header: Header) {
    && 1 <= header.width <= 4096 && 1 <= header.height <= 4096 && header.width * header.height <= 8388608
    && (header.colorType == 0 || header.colorType == 2 || header.colorType == 4 || header.colorType == 6)
  }

  // A header is read back as written, and exactly the printings of decodable headers are accepted.
  lemma HeaderAcceptedExactly(payload: seq<Byte>, header: Header)
    requires |payload| == 13
    ensures HeaderFields(payload) == Some(header) <==> Decodable(header) && payload == HeaderBytes(header)
  {
    BigEndianOfU32(payload[0..4]);
    BigEndianOfU32(payload[4..8]);
    assert payload == payload[0..4] + payload[4..8] + payload[8..];
    if Decodable(header) && payload == HeaderBytes(header) {
      U32OfBigEndian(header.width);
      U32OfBigEndian(header.height);
      assert payload[0..4] == BigEndian(header.width) && payload[4..8] == BigEndian(header.height);
    }
    if HeaderFields(payload) == Some(header) {
      assert payload[8..] == [8, header.colorType, 0, 0, 0];
    }
  }

  // ---- The decoder's loop ----

  function ChunkLength(data: seq<Byte>): nat
    requires |data| >= 12
  {
    U32(data[0..4])
  }

  // One pass over the head of the loop: the chunk at the front of the data, unless its length or its
  // checksum is refused.
  function FirstChunk(data: seq<Byte>, crc: Checksum): Option<Chunk>
    requires |data| >= 12
  {
    var length := ChunkLength(data);
    if length > MAX_PNG_BYTES || 8 + length + 4 > |data| then None
    else
      var kind, payload := data[4..8], data[8..8 + length];
      if crc(kind + payload) % TWO_TO_THE_32 != U32(data[8 + length..12 + length]) then None
      else Some(Chunk(kind, payload))
  }

  // What the loop has gathered, and how it goes on after one more chunk.
  datatype Gathered = Gathered(header: Option<Header>, idat: seq<Byte>)

  function Absorb(g: Gathered, chunk: Chunk): Option<Gathered> {
    if chunk.kind == IHDR then
      if g.header.Some? || |chunk.payload| != 13 || HeaderFields(chunk.payload).None? then None
      else Some(g.(header := HeaderFields(chunk.payload)))
    else if chunk.kind == IDAT then
      if g.header.None? || |g.idat| + |chunk.payload| > MAX_PNG_BYTES then None
      else Some(g.(idat := g.idat + chunk.payload))
    else if chunk.kind == IEND then
      if chunk.payload != [] then None else Some(g)
    else Some(g)
  }

  function Finish(g: Gathered): Option<Image> {
    if g.header.None? || g.idat == [] then None else Some(Image(g.header.value, g.idat))
  }

  function Scan(data: seq<Byte>, g: Gathered, crc: Checksum): Option<Image>
    decreases |data|
  {
    if |data| < 12 || FirstChunk(data, crc).None? then None
    else
      var chunk := FirstChunk(data, crc).value;
      var rest := data[12 + |chunk.payload|..];
      var next := Absorb(g, chunk);
      if next.None? then None
      else if chunk.kind == IEND then if rest == [] then Finish(next.value) else None
      else Scan(rest, next.value, crc)
  }

  function ParseChunks(data: seq<Byte>, crc: Checksum): Option<Image> {
    if |data| > MAX_PNG_BYTES || |data| < 8 || data[..8] != SIGNATURE then None
    else Scan(data[8..], Gathered(None, []), crc)
  }

  // ---- The parser undoes the printer ----

  lemma FirstPrinted(chunk: Chunk, rest: seq<Byte>, crc: Checksum)
    requires |chunk.kind| == 4 && |chunk.payload| <= MAX_PNG_BYTES
    ensures |PrintChunk(chunk, crc)| == 12 + |chunk.payload|
    ensures FirstChunk(PrintChunk(chunk, crc) + rest, crc) == Some(chunk)
    ensures (PrintChunk(chunk, crc) + rest)[12 + |chunk.payload|..] == rest
  {
    var data, length := PrintChunk(chunk, crc) + rest, |chunk.payload|;
    var sum := crc(chunk.kind + chunk.payload) % TWO_TO_THE_32;
    assert data[0..4] == BigEndian(length) && data[4..8] == chunk.kind && data[8..8 + length] == chunk.payload;
    assert data[8 + length..12 + length] == BigEndian(sum);
    U32OfBigEndian(length);
    U32OfBigEndian(sum);
  }

  lemma FirstIsPrinted(data: seq<Byte>, crc: Checksum)
    requires |data| >= 12 && FirstChunk(data, crc).Some?
    ensures var chunk := FirstChunk(data, crc).value;
            && |chunk.kind| == 4 && |chunk.payload| <= MAX_PNG_BYTES && 12 + |chunk.payload| <= |data|
            && data == PrintChunk(chunk, crc) + data[12 + |chunk.payload|..]
  {
    var chunk := FirstChunk(data, crc).value;
    var length := |chunk.payload|;
    BigEndianOfU32(data[0..4]);
    BigEndianOfU32(data[8 + length..12 + length]);
    assert data == data[0..4] + data[4..8] + data[8..8 + length] + data[8 + length..12 + length] + data[12 + length..];
  }

  // The verdict on a chunk list, without bytes.
  function Judge(chunks: seq<Chunk>, g: Gathered): Option<Image> {
    if chunks == [] || Absorb(g, chunks[0]).None? then None
    else if chunks[0].kind == IEND then if |chunks| == 1 then Finish(g) else None
    else Judge(chunks[1..], Absorb(g, chunks[0]).value)
  }

  lemma PrintsNothing(chunks: seq<Chunk>, crc: Checksum)
    requires Printable(chunks)
    ensures Print(chunks, crc) == [] <==> chunks == []
  {
    if chunks != [] {
      assert chunks[0] in chunks;
      assert |PrintChunk(chunks[0], crc)| >= 12;
    }
  }

  // How the scan goes on behind a printed chunk.
  lemma ScanOne(chunk: Chunk, rest: seq<Byte>, g: Gathered, crc: Checksum)
    requires |chunk.kind| == 4 && |chunk.payload| <= MAX_PNG_BYTES
    ensures var next := Absorb(g, chunk);
            Scan(PrintChunk(chunk, crc) + rest, g, crc)
            == if next.None? then None
               else if chunk.kind == IEND then if rest == [] then Finish(next.value) else None
               else Scan(rest, next.value, crc)
  {
    FirstPrinted(chunk, rest, crc);
  }

  lemma {:induction false} ScanJudges(chunks: seq<Chunk>, g: Gathered, crc: Checksum)
    requires Printable(chunks)
    ensures Scan(Print(chunks, crc), g, crc) == Judge(chunks, g)
    decreases chunks
  {
    if chunks != [] {
      assert chunks[0] in chunks && Printable(chunks[1..]);
      ScanOne(chunks[0], Print(chunks[1..], crc), g, crc);
      PrintsNothing(chunks[1..], crc);
      if Absorb(g, chunks[0]).Some? {
        ScanJudges(chunks[1..], Absorb(g, chunks[0]).value, crc);
      }
    }
  }

  // Everything accepted was printed from a chunk list: the loop skips no byte and reads none twice.
  lemma {:induction false} ScannedIsPrinted(data: seq<Byte>, g: Gathered, crc: Checksum) returns (chunks: seq<Chunk>)
    requires Scan(data, g, crc).Some?
    ensures Printable(chunks) && data == Print(chunks, crc)
    decreases |data|
  {
    FirstIsPrinted(data, crc);
    var chunk := FirstChunk(data, crc).value;
    var rest := data[12 + |chunk.payload|..];
    if chunk.kind == IEND {
      chunks := [chunk];
      assert Print(chunks[1..], crc) == [];
    } else {
      var others := ScannedIsPrinted(rest, Absorb(g, chunk).value, crc);
      chunks := [chunk] + others;
      assert chunks[1..] == others;
    }
  }

  // ---- The verdict is well-formedness ----

  lemma TailEnds(chunks: seq<Chunk>)
    requires |chunks| > 1 && chunks[0].kind != IEND
    ensures Ends(chunks) <==> Ends(chunks[1..])
    ensures NoHeader(chunks) <==> chunks[0].kind != IHDR && NoHeader(chunks[1..])
  {
    var rest := chunks[1..];
    assert forall i :: 0 <= i < |rest| ==> rest[i] == chunks[i + 1];
    assert forall i :: 0 < i < |chunks| ==> chunks[i] == rest[i - 1];
  }

  predicate Completes(chunks: seq<Chunk>, idat: seq<Byte>) {
    Ends(chunks) && NoHeader(chunks) && 0 < |idat| + |IdatBytes(chunks)| <= MAX_PNG_BYTES
  }

  lemma OneChunkCompletes(chunk: Chunk, header: Header, idat: seq<Byte>)
    requires |idat| <= MAX_PNG_BYTES
    ensures Judge([chunk], Gathered(Some(header), idat))
         == if Completes([chunk], idat) then Some(Image(header, idat + IdatBytes([chunk]))) else None
  {
    var chunks := [chunk];
    assert IdatBytes(chunks[1..]) == [] && idat + [] == idat;
    assert Ends(chunks) <==> chunk == Chunk(IEND, []);
    assert chunk.kind == IEND ==> IdatBytes(chunks) == [];
  }

  // With more chunks to come, completing does not depend on where the data is cut.
  lemma CompletesLater(chunks: seq<Chunk>, idat: seq<Byte>)
    requires |chunks| > 1
    ensures idat + IdatBytes(chunks) == idat + IdatPart(chunks[0]) + IdatBytes(chunks[1..])
    ensures Completes(chunks, idat)
       <==> chunks[0].kind != IEND && chunks[0].kind != IHDR && Completes(chunks[1..], idat + IdatPart(chunks[0]))
  {
    var part, rest := IdatPart(chunks[0]), IdatBytes(chunks[1..]);
    assert IdatBytes(chunks) == part + rest;
    Reassociate(idat, part, rest);
    if chunks[0].kind == IEND {
      assert !Ends(chunks);
    } else {
      TailEnds(chunks);
    }
  }

  lemma {:induction false} JudgeAfterHeader(chunks: seq<Chunk>, header: Header, idat: seq<Byte>)
    requires |idat| <= MAX_PNG_BYTES
    ensures Judge(chunks, Gathered(Some(header), idat))
         == if Completes(chunks, idat) then Some(Image(header, idat + IdatBytes(chunks))) else None
    decreases chunks
  {
    if |chunks| == 1 {
      assert chunks == [chunks[0]];
      OneChunkCompletes(chunks[0], header, idat);
    } else if |chunks| > 1 {
      var chunk := chunks[0];
      var more := IdatPart(chunk);
      CompletesLater(chunks, idat);
      if chunk.kind != IHDR && chunk.kind != IEND && |idat + more| <= MAX_PNG_BYTES {
        assert chunk.kind != IDAT ==> idat + more == idat;
        assert Absorb(Gathered(Some(header), idat), chunk) == Some(Gathered(Some(header), idat + more));
        JudgeAfterHeader(chunks[1..], header, idat + more);
      }
    }
  }

  lemma HeaderInTail(chunks: seq<Chunk>, h: nat, header: Header)
    requires |chunks| > 1 && chunks[0].kind != IHDR && chunks[0].kind != IDAT
    ensures HeaderAt(chunks[1..], h, header) <==> HeaderAt(chunks, h + 1, header)
  {
    var rest := chunks[1..];
    assert forall i :: 0 <= i < |rest| ==> rest[i] == chunks[i + 1];
    assert forall i :: 0 < i < |chunks| ==> chunks[i] == rest[i - 1];
  }

  lemma HeaderFirst(chunks: seq<Chunk>, header: Header)
    requires chunks != [] && chunks[0].kind == IHDR
    ensures HeaderAt(chunks, 0, header)
       <==> NoHeader(chunks[1..]) && |chunks[0].payload| == 13 && HeaderFields(chunks[0].payload) == Some(header)
  {
    var rest := chunks[1..];
    assert forall i :: 0 <= i < |rest| ==> rest[i] == chunks[i + 1];
    assert forall i :: 0 < i < |chunks| ==> chunks[i] == rest[i - 1];
  }

  lemma {:induction false} JudgeSound(chunks: seq<Chunk>, image: Image) returns (h: nat)
    requires Judge(chunks, Gathered(None, [])) == Some(image)
    ensures Ends(chunks) && HeaderAt(chunks, h, image.header)
    ensures image.idat == IdatBytes(chunks) && 0 < |image.idat| <= MAX_PNG_BYTES
    decreases chunks
  {
    var chunk := chunks[0];
    assert |chunks| > 1;
    TailEnds(chunks);
    if chunk.kind == IHDR {
      JudgeAfterHeader(chunks[1..], HeaderFields(chunk.payload).value, []);
      assert [] + IdatBytes(chunks[1..]) == IdatBytes(chunks);
      h := 0;
      HeaderFirst(chunks, image.header);
    } else {
      var k := JudgeSound(chunks[1..], image);
      h := k + 1;
      HeaderInTail(chunks, k, image.header);
      assert [] + IdatBytes(chunks[1..]) == IdatBytes(chunks);
    }
  }

  lemma JudgeFromHeader(chunks: seq<Chunk>, header: Header)
    requires |chunks| > 1 && chunks[0].kind == IHDR && |chunks[0].payload| == 13
    requires HeaderFields(chunks[0].payload) == Some(header)
    ensures Judge(chunks, Gathered(None, [])) == Judge(chunks[1..], Gathered(Some(header), []))
  {
    assert IHDR != IEND && IHDR != IDAT;
  }

  lemma JudgeSkips(chunks: seq<Chunk>)
    requires |chunks| > 1 && chunks[0].kind != IHDR && chunks[0].kind != IDAT && chunks[0].kind != IEND
    ensures Judge(chunks, Gathered(None, [])) == Judge(chunks[1..], Gathered(None, []))
  {
  }

  lemma NoIdatFirst(chunks: seq<Chunk>)
    requires chunks != [] && chunks[0].kind != IDAT
    ensures IdatBytes(chunks) == IdatBytes(chunks[1..])
  {
    assert [] + IdatBytes(chunks[1..]) == IdatBytes(chunks[1..]);
  }

  lemma {:induction false} JudgeComplete(chunks: seq<Chunk>, h: nat, image: Image)
    requires Ends(chunks) && HeaderAt(chunks, h, image.header)
    requires image.idat == IdatBytes(chunks) && 0 < |image.idat| <= MAX_PNG_BYTES
    ensures Judge(chunks, Gathered(None, [])) == Some(image)
    decreases chunks
  {
    assert |chunks| > 1 && chunks[0].kind != IEND && chunks[0].kind != IDAT;
    TailEnds(chunks);
    NoIdatFirst(chunks);
    if h == 0 {
      HeaderFirst(chunks, image.header);
      JudgeFromHeader(chunks, image.header);
      JudgeAfterHeader(chunks[1..], image.header, []);
      assert [] + IdatBytes(chunks[1..]) == IdatBytes(chunks[1..]);
    } else {
      HeaderInTail(chunks, h - 1, image.header);
      JudgeComplete(chunks[1..], h - 1, image);
      JudgeSkips(chunks);
    }
  }

  // ---- Main results ----

  // Parsing undoes printing: the header is recovered and the collected data is the concatenation of the
  // IDAT payloads, however they were split and whatever other chunks stand between them.
  lemma ParsePrinted(chunks: seq<Chunk>, image: Image, crc: Checksum)
    requires Describes(chunks, image) && 8 + |Print(chunks, crc)| <= MAX_PNG_BYTES
    ensures ParseChunks(SIGNATURE + Print(chunks, crc), crc) == Some(image)
  {
    var h :| HeaderAt(chunks, h, image.header);
    var data := SIGNATURE + Print(chunks, crc);
    assert data[..8] == SIGNATURE && data[8..] == Print(chunks, crc);
    ScanJudges(chunks, Gathered(None, []), crc);
    JudgeComplete(chunks, h, image);
  }

  // And nothing else is accepted: an accepted file is, byte for byte, the signature and the printing of
  // a well-formed chunk list describing the returned image.
  lemma AcceptedIsWellFormed(data: seq<Byte>, crc: Checksum) returns (chunks: seq<Chunk>)
    requires ParseChunks(data, crc).Some?
    ensures Describes(chunks, ParseChunks(data, crc).value)
    ensures data == SIGNATURE + Print(chunks, crc) && |data| <= MAX_PNG_BYTES
  {
    chunks := ScannedIsPrinted(data[8..], Gathered(None, []), crc);
    ScanJudges(chunks, Gathered(None, []), crc);
    var h := JudgeSound(chunks, ParseChunks(data, crc).value);
    assert data == data[..8] + data[8..];
  }

  // One turn of the loop with the cursor at a chunk that fits: it is refused, or it ends the scan, or the
  // scan goes on behind it with what it adds.
  lemma ScanAt(data: seq<Byte>, cursor: nat, g: Gathered, crc: Checksum, kind: seq<Byte>, payload: seq<Byte>, end: nat)
    requires cursor + 12 <= |data| && end == cursor + 12 + U32(data[cursor..cursor + 4]) <= |data|
    requires kind == data[cursor + 4..cursor + 8] && payload == data[cursor + 8..end - 4]
    requires |payload| <= MAX_PNG_BYTES && crc(kind + payload) % TWO_TO_THE_32 == U32(data[end - 4..end])
    ensures var next := Absorb(g, Chunk(kind, payload));
            Scan(data[cursor..], g, crc)
            == if next.None? then None
               else if kind == IEND then if end == |data| then Finish(next.value) else None
               else Scan(data[end..], next.value, crc)
  {
    FirstAt(data, cursor, crc, kind, payload, end);
    assert data[cursor..][end - cursor..] == data[end..];
    ScanUnfolds(data[cursor..], g, crc, Chunk(kind, payload));
  }

  lemma FirstAt(data: seq<Byte>, cursor: nat, crc: Checksum, kind: seq<Byte>, payload: seq<Byte>, end: nat)
    requires cursor + 12 <= |data| && end == cursor + 12 + U32(data[cursor..cursor + 4]) <= |data|
    requires kind == data[cursor + 4..cursor + 8] && payload == data[cursor + 8..end - 4]
    requires |payload| <= MAX_PNG_BYTES && crc(kind + payload) % TWO_TO_THE_32 == U32(data[end - 4..end])
    ensures FirstChunk(data[cursor..], crc) == Some(Chunk(kind, payload))
  {
    var n := end - cursor;
    SliceBehind(data, cursor, 0, 4);
    SliceBehind(data, cursor, 4, 8);
    SliceBehind(data, cursor, 8, n - 4);
    SliceBehind(data, cursor, n - 4, n);
  }

  lemma SliceBehind(data: seq<Byte>, cursor: nat, i: nat, j: nat)
    requires cursor + j <= |data| && i <= j
    ensures data[cursor..][i..j] == data[cursor + i..cursor + j]
  {
  }

  lemma ScanUnfolds(front: seq<Byte>, g: Gathered, crc: Checksum, chunk: Chunk)
    requires |front| >= 12 && FirstChunk(front, crc) == Some(chunk)
    ensures 12 + |chunk.payload| <= |front|
    ensures var next, rest := Absorb(g, chunk), front[12 + |chunk.payload|..];
            Scan(front, g, crc)
            == if next.None? then None
               else if chunk.kind == IEND then if rest == [] then Finish(next.value) else None
               else Scan(rest, next.value, crc)
  {
  }

  lemma ScanRefusesLength(data: seq<Byte>, cursor: nat, g: Gathered, crc: Checksum, length: nat)
    requires cursor + 12 <= |data| && length == U32(data[cursor..cursor + 4])
    requires length > MAX_PNG_BYTES || cursor + 12 + length > |data|
    ensures Scan(data[cursor..], g, crc) == None
  {
    SliceBehind(data, cursor, 0, 4);
    assert FirstChunk(data[cursor..], crc) == None;
  }

  lemma ScanRefusesSum(data: seq<Byte>, cursor: nat, g: Gathered, crc: Checksum, kind: seq<Byte>, payload: seq<Byte>, end: nat)
    requires cursor + 12 <= |data| && end == cursor + 12 + U32(data[cursor..cursor + 4]) <= |data|
    requires kind == data[cursor + 4..cursor + 8] && payload == data[cursor + 8..end - 4]
    requires crc(kind + payload) % TWO_TO_THE_32 != U32(data[end - 4..end])
    ensures Scan(data[cursor..], g, crc) == None
  {
    var n := end - cursor;
    SliceBehind(data, cursor, 0, 4);
    SliceBehind(data, cursor, 4, 8);
    SliceBehind(data, cursor, 8, n - 4);
    SliceBehind(data, cursor, n - 4, n);
    assert FirstChunk(data[cursor..], crc) == None;
  }

  // The cursor loop itself. It ends on arbitrary bytes, since every chunk moves the cursor by at least twelve.
  method ReadChunks(data: seq<Byte>, crc: Checksum) returns (r: Option<Image>)
    ensures r == ParseChunks(data, crc)
  {
    ghost var verdict := ParseChunks(data, crc);
    if data == [] || |data| > MAX_PNG_BYTES { return None; }
    if |data| < 8 || data[..8] != SIGNATURE { return None; }
    var cursor := 8;
    var header: Option<Header> := None;
    var idat: seq<Byte> := [];
    var sawIend := false;
    assert verdict == Scan(data[cursor..], Gathered(header, idat), crc);
    while cursor + 12 <= |data| && !sawIend
      invariant 8 <= cursor <= |data|
      invariant sawIend ==> verdict == if cursor == |data| then Finish(Gathered(header, idat)) else None
      invariant !sawIend ==> verdict == Scan(data[cursor..], Gathered(header, idat), crc)
      decreases |data| - cursor
    {
      ghost var start, g := cursor, Gathered(header, idat);
      var length := U32(data[cursor..cursor + 4]);
      var kind := data[cursor + 4..cursor + 8];
      cursor := cursor + 8;
      if length > MAX_PNG_BYTES || cursor + length + 4 > |data| {
        ScanRefusesLength(data, start, g, crc, length);
        return None;
      }
      var payload := data[cursor..cursor + length];
      if crc(kind + payload) % TWO_TO_THE_32 != U32(data[cursor + length..cursor + length + 4]) {
        ScanRefusesSum(data, start, g, crc, kind, payload, cursor + length + 4);
        return None;
      }
      cursor := cursor + length + 4;
      ScanAt(data, start, g, crc, kind, payload, cursor);
      ghost var next := Absorb(g, Chunk(kind, payload));
      if kind == IHDR {
        if header.Some? || length != 13 { return None; }
        header := HeaderFields(payload);
        if header.None? { return None; }
      } else if kind == IDAT {
        if header.None? || |idat| + |payload| > MAX_PNG_BYTES { return None; }
        idat := idat + payload;
      } else if kind == IEND {
        if length != 0 { return None; }
        sawIend := true;
      }
      assert next == Some(Gathered(header, idat));
    }
    if !sawIend || cursor != |data| || header.None? || idat == [] { return None; }
    r := Some(Image(header.value, idat));
  }

  // ---- From bytes to scanlines ----

  function Channels(colorType: Byte): nat {
    if colorType == 0 then 1 else if colorType == 2 then 3 else if colorType == 4 then 2 else 4
  }

  // A colour type is a sum of 2 for colour and 4 for alpha (section 11.2.1): colour means three samples a
  // pixel instead of one, alpha one more.
  lemma ChannelsByStandard(colorType: Byte)
    requires colorType == 0 || colorType == 2 || colorType == 4 || colorType == 6
    ensures Channels(colorType) == (if colorType / 2 % 2 == 1 then 3 else 1) + (if colorType / 4 % 2 == 1 then 1 else 0)
  {
  }

  // The inflater answers with exactly the number of bytes it was asked for, or refuses.
  type Inflater = (seq<Byte>, nat) -> Option<seq<Byte>>

  ghost predicate Bounded(inflate: Inflater) {
    forall idat, expected :: inflate(idat, expected).Some? ==> |inflate(idat, expected).value| == expected
  }

  function Stride(header: Header): nat {
    header.width * Channels(header.colorType)
  }

  function Expected(header: Header): nat {
    RawLength(header.height, Stride(header))
  }

  ghost function DecodePng(data: seq<Byte>, crc: Checksum, inflate: Inflater): Option<seq<seq<Byte>>>
    requires Bounded(inflate)
  {
    var image := ParseChunks(data, crc);
    if image.None? then None
    else
      var header := image.value.header;
      var raw := inflate(image.value.idat, Expected(header));
      if raw.None? then None
      else DecodeRows(raw.value, header.height, Stride(header), ZeroRow(Stride(header)), Channels(header.colorType))
  }

  // End to end: for every image, every choice of row filters and every way of splitting its compressed
  // scanlines into a well-formed chunk list, decoding the printed file gives the image back.
  lemma PngRoundTrip(rows: seq<seq<Byte>>, filters: seq<Byte>, chunks: seq<Chunk>, image: Image,
                     crc: Checksum, inflate: Inflater)
    requires Bounded(inflate) && Describes(chunks, image) && 8 + |Print(chunks, crc)| <= MAX_PNG_BYTES
    requires |rows| == image.header.height == |filters| && Rectangular(rows, Stride(image.header))
    requires KnownFilters(filters)
    requires inflate(image.idat, Expected(image.header))
          == Some(EncodeRows(rows, filters, ZeroRow(Stride(image.header)), Channels(image.header.colorType)))
    ensures DecodePng(SIGNATURE + Print(chunks, crc), crc, inflate) == Some(rows)
  {
    ParsePrinted(chunks, image, crc);
    ImageRoundTrip(rows, filters, Stride(image.header), ZeroRow(Stride(image.header)),
                   Channels(image.header.colorType));
  }
}
