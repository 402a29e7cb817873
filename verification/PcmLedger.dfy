// The bounded ledger of admitted PCM frames behind a finalized utterance's audio basis.
module PcmLedgers {
  import opened Results
  import opened Sequences

  const MAX_BUFFERED_BYTES := 12 * 1024 * 1024
  const MAX_SAFE_INTEGER := 9007199254740991
  const TOLERANCE_MS := 0.001

  datatype Frame = Frame(sequence: nat, timestampMs: real, sampleRate: nat, samples: nat, bytes: seq<Byte>)

  datatype Basis = Basis(
    streamId: nat, first: nat, last: nat, startMs: real, endMs: real,
    sampleRate: nat, sampleCount: nat, pcmHash: nat)

  // SHA-256, uninterpreted.
  type Hash = seq<Byte> -> nat

  // ---- Totals over frames ----

  function TotalBytes(frames: seq<Frame>): nat {
    if frames == [] then 0 else |frames[0].bytes| + TotalBytes(frames[1..])
  }

  function TotalSamples(frames: seq<Frame>): nat {
    if frames == [] then 0 else frames[0].samples + TotalSamples(frames[1..])
  }

  function Joined(frames: seq<Frame>): seq<Byte> {
    if frames == [] then [] else frames[0].bytes + Joined(frames[1..])
  }

  lemma {:induction false} TotalsAppend(a: seq<Frame>, b: seq<Frame>)
    ensures TotalBytes(a + b) == TotalBytes(a) + TotalBytes(b)
    ensures TotalSamples(a + b) == TotalSamples(a) + TotalSamples(b)
    ensures Joined(a + b) == Joined(a) + Joined(b)
    decreases a
  {
    if a == [] {
      assert a + b == b;
    } else {
      TotalsAppend(a[1..], b);
      assert (a + b)[1..] == a[1..] + b;
      Reassociate(a[0].bytes, Joined(a[1..]), Joined(b));
    }
  }

  // ---- The bounded suffix ----

  // The longest suffix within the byte bound.
  function BoundedSuffix(frames: seq<Frame>): seq<Frame> {
    if TotalBytes(frames) <= MAX_BUFFERED_BYTES then frames else BoundedSuffix(frames[1..])
  }

  lemma {:induction false} BoundedSuffixIsSuffix(frames: seq<Frame>)
    ensures var kept := BoundedSuffix(frames);
            TotalBytes(kept) <= MAX_BUFFERED_BYTES && |kept| <= |frames| && kept == frames[|frames| - |kept|..]
  {
    if TotalBytes(frames) > MAX_BUFFERED_BYTES { BoundedSuffixIsSuffix(frames[1..]); }
  }

  lemma {:induction false} SuffixTotals(frames: seq<Frame>, k: nat)
    requires k <= |frames|
    ensures TotalBytes(frames[k..]) <= TotalBytes(frames)
  {
    assert frames == frames[..k] + frames[k..];
    TotalsAppend(frames[..k], frames[k..]);
  }

  // It is the longest: a suffix is within the bound exactly when it is no longer.
  lemma {:induction false} BoundedSuffixIsLongest(frames: seq<Frame>, k: nat)
    requires k <= |frames|
    ensures TotalBytes(frames[k..]) <= MAX_BUFFERED_BYTES <==> |frames| - k <= |BoundedSuffix(frames)|
    decreases frames
  {
    if TotalBytes(frames) <= MAX_BUFFERED_BYTES {
      SuffixTotals(frames, k);
    } else if k > 0 {
      BoundedSuffixIsLongest(frames[1..], k - 1);
      assert frames[1..][k - 1..] == frames[k..];
    } else {
      assert frames[0..] == frames;
      BoundedSuffixIsSuffix(frames[1..]);
    }
  }

  // Bounding after every frame keeps the same frames as bounding once over all of them.
  lemma {:induction false} BoundingAsWeGo(frames: seq<Frame>, next: Frame)
    ensures BoundedSuffix(BoundedSuffix(frames) + [next]) == BoundedSuffix(frames + [next])
    decreases frames
  {
    if TotalBytes(frames) > MAX_BUFFERED_BYTES {
      BoundingAsWeGo(frames[1..], next);
      TotalsAppend(frames, [next]);
      assert (frames + [next])[1..] == frames[1..] + [next];
    }
  }

  // ---- The ledger over a stream ----

  predicate Numbered(frames: seq<Frame>) {
    forall i :: 0 <= i < |frames| ==> frames[i].sequence == i
  }

  // Of all frames admitted to the stream, the ledger keeps those since the last finalization, as far
  // back as the bound allows.
  ghost predicate Tracks(ledger: seq<Frame>, admitted: seq<Frame>, since: nat) {
    && Numbered(admitted) && since <= |admitted|
    && ledger == BoundedSuffix(admitted[since..])
  }

  lemma LedgerIsConsecutiveSuffix(ledger: seq<Frame>, admitted: seq<Frame>, since: nat)
    requires Tracks(ledger, admitted, since)
    ensures |ledger| <= |admitted| - since
    ensures ledger == admitted[|admitted| - |ledger|..]
    ensures forall i :: 0 <= i < |ledger| ==> ledger[i].sequence == |admitted| - |ledger| + i
    ensures TotalBytes(ledger) <= MAX_BUFFERED_BYTES
  {
    var recent := admitted[since..];
    BoundedSuffixIsSuffix(recent);
    assert recent[|recent| - |ledger|..] == admitted[|admitted| - |ledger|..];
  }

  lemma AdmittingKeepsTracking(ledger: seq<Frame>, admitted: seq<Frame>, since: nat, frame: Frame)
    requires Tracks(ledger, admitted, since) && frame.sequence == |admitted|
    ensures Tracks(BoundedSuffix(ledger + [frame]), admitted + [frame], since)
  {
    BoundingAsWeGo(admitted[since..], frame);
    assert (admitted + [frame])[since..] == admitted[since..] + [frame];
  }

  lemma PushedTotal(ledger: seq<Frame>, frame: Frame)
    ensures TotalBytes(ledger + [frame]) == TotalBytes(ledger) + |frame.bytes|
  {
    TotalsAppend(ledger, [frame]);
    assert [frame][1..] == [];
  }

  // A frame that fits the bound by itself is never dropped to make room for itself.
  lemma LatestIsKept(ledger: seq<Frame>, frame: Frame)
    requires |frame.bytes| <= MAX_BUFFERED_BYTES
    ensures var kept := BoundedSuffix(ledger + [frame]);
            kept != [] && kept[|kept| - 1] == frame
  {
    var pushed := ledger + [frame];
    assert pushed[|pushed| - 1..] == [frame];
    PushedTotal([], frame);
    assert [] + [frame] == [frame];
    BoundedSuffixIsLongest(pushed, |pushed| - 1);
    BoundedSuffixIsSuffix(pushed);
  }

  // ---- Audio bases ----

  function Picked(frame: Frame, basis: Basis): seq<Frame> {
    if basis.first <= frame.sequence <= basis.last then [frame] else []
  }

  // The ledger's frames whose sequence the basis covers.
  function Covered(ledger: seq<Frame>, basis: Basis): seq<Frame> {
    if ledger == [] then []
    else Picked(ledger[0], basis) + Covered(ledger[1..], basis)
  }

  function Distance(x: real, y: real): real {
    if x < y then y - x else x - y
  }

  function EndOf(frame: Frame): real
    requires frame.sampleRate > 0
  {
    frame.timestampMs + frame.samples as real / frame.sampleRate as real * 1000.0
  }

  // What a basis states about the frames it names.
  predicate Describes(frames: seq<Frame>, basis: Basis, hash: Hash) {
    && frames != []
    && (forall i :: 0 <= i < |frames| ==> frames[i].sampleRate == basis.sampleRate)
    && basis.sampleRate > 0
    && TotalSamples(frames) == basis.sampleCount <= MAX_SAFE_INTEGER
    && frames[0].timestampMs == basis.startMs
    && Distance(EndOf(frames[|frames| - 1]), basis.endMs) <= TOLERANCE_MS
    && hash(Joined(frames)) == basis.pcmHash
  }

  // The end of a basis in numbers: it is, within a thousandth of a millisecond, where its last frame ends,
  // the sample rate being samples a second.
  lemma EndExactly(last: Frame, endMs: real)
    requires last.sampleRate > 0
    ensures var rate := last.sampleRate as real;
      var difference := (last.timestampMs - endMs) * rate + last.samples as real * 1000.0;
      Distance(EndOf(last), endMs) <= TOLERANCE_MS <==> difference <= 0.001 * rate && -difference <= 0.001 * rate
  {
    EndInNumbers(last);
    TimesInNumbers(last.timestampMs, EndOf(last), last.samples as real, last.sampleRate as real, endMs);
  }

  lemma EndInNumbers(frame: Frame)
    requires frame.sampleRate > 0
    ensures (EndOf(frame) - frame.timestampMs) * frame.sampleRate as real == frame.samples as real * 1000.0
  {
    var samples, rate := frame.samples as real, frame.sampleRate as real;
    assert samples / rate * rate == samples;
    assert samples / rate * 1000.0 * rate == samples / rate * rate * 1000.0;
  }

  lemma TimesInNumbers(begin: real, end: real, samples: real, rate: real, endMs: real)
    requires rate > 0.0 && (end - begin) * rate == samples * 1000.0
    ensures var difference := (begin - endMs) * rate + samples * 1000.0;
      Distance(end, endMs) <= TOLERANCE_MS <==> difference <= 0.001 * rate && -difference <= 0.001 * rate
  {
    var x, difference := end - endMs, (begin - endMs) * rate + samples * 1000.0;
    DistributesOver(begin - endMs, end - begin, rate);
    assert (begin - endMs) + (end - begin) == x;
    assert x * rate == difference;
    assert (-x) * rate == -difference;
    OneSide(x, rate);
    OneSide(-x, rate);
  }

  lemma DistributesOver(x: real, y: real, rate: real)
    ensures (x + y) * rate == x * rate + y * rate
  {
  }

  lemma OneSide(x: real, rate: real)
    requires rate > 0.0
    ensures x <= 0.001 <==> x * rate <= 0.001 * rate
  {
    if x > 0.001 {
      assert (x - 0.001) * rate > 0.0;
    } else {
      assert (0.001 - x) * rate >= 0.0;
    }
  }

  // Exactly the frames first..last, in order, and described truly.
  predicate Vouched(ledger: seq<Frame>, basis: Basis, hash: Hash) {
    var frames := Covered(ledger, basis);
    && basis.first <= basis.last
    && |frames| == basis.last - basis.first + 1
    && (forall i :: 0 <= i < |frames| ==> frames[i].sequence == basis.first + i)
    && Describes(frames, basis, hash)
  }

  lemma {:induction false} CoveredSplits(a: seq<Frame>, b: seq<Frame>, basis: Basis)
    ensures Covered(a + b, basis) == Covered(a, basis) + Covered(b, basis)
    decreases a
  {
    if a == [] {
      assert a + b == b;
    } else {
      CoveredSplits(a[1..], b, basis);
      assert (a + b)[1..] == a[1..] + b;
      Reassociate(Picked(a[0], basis), Covered(a[1..], basis), Covered(b, basis));
    }
  }

  lemma {:induction false} CoveredAll(frames: seq<Frame>, basis: Basis)
    requires forall i :: 0 <= i < |frames| ==> basis.first <= frames[i].sequence <= basis.last
    ensures Covered(frames, basis) == frames
  {
    if frames != [] { CoveredAll(frames[1..], basis); }
  }

  lemma {:induction false} CoveredNone(frames: seq<Frame>, basis: Basis)
    requires forall i :: 0 <= i < |frames| ==> !(basis.first <= frames[i].sequence <= basis.last)
    ensures Covered(frames, basis) == []
  {
    if frames != [] { CoveredNone(frames[1..], basis); }
  }

  lemma CoveredMiddle(before: seq<Frame>, middle: seq<Frame>, after: seq<Frame>, basis: Basis)
    requires forall i :: 0 <= i < |before| ==> before[i].sequence < basis.first
    requires forall i :: 0 <= i < |middle| ==> basis.first <= middle[i].sequence <= basis.last
    requires forall i :: 0 <= i < |after| ==> after[i].sequence > basis.last
    ensures Covered(before + middle + after, basis) == middle
  {
    CoveredNone(before, basis);
    CoveredAll(middle, basis);
    CoveredNone(after, basis);
    CoveredSplits(before, middle, basis);
    CoveredSplits(before + middle, after, basis);
  }

  // On frames numbered consecutively from start, a range inside the ledger is covered as a slice of it.
  lemma CoveredIsSlice(ledger: seq<Frame>, start: nat, basis: Basis)
    requires forall i :: 0 <= i < |ledger| ==> ledger[i].sequence == start + i
    requires start <= basis.first <= basis.last < start + |ledger|
    ensures Covered(ledger, basis) == ledger[basis.first - start..basis.last + 1 - start]
  {
    var low, high := basis.first - start, basis.last + 1 - start;
    CoveredMiddle(ledger[..low], ledger[low..high], ledger[high..], basis);
    assert ledger == ledger[..low] + ledger[low..high] + ledger[high..];
  }

  // A range that begins before the ledger is not covered by enough frames.
  lemma {:induction false} TooFewCovered(ledger: seq<Frame>, start: nat, basis: Basis)
    requires forall i :: 0 <= i < |ledger| ==> ledger[i].sequence == start + i
    requires basis.first < start && basis.first <= basis.last
    ensures |Covered(ledger, basis)| < basis.last - basis.first + 1
    decreases ledger
  {
    if ledger != [] {
      if start <= basis.last {
        TooFewCovered(ledger[1..], start + 1, basis.(first := basis.first + 1));
        SameCovered(ledger[1..], basis, basis.(first := basis.first + 1));
      } else {
        CoveredNone(ledger, basis);
      }
    }
  }

  lemma {:induction false} SameCovered(frames: seq<Frame>, a: Basis, b: Basis)
    requires forall i :: 0 <= i < |frames| ==> (a.first <= frames[i].sequence <= a.last <==> b.first <= frames[i].sequence <= b.last)
    ensures Covered(frames, a) == Covered(frames, b)
  {
    if frames != [] { SameCovered(frames[1..], a, b); }
  }

  // What the ledger still holds: everything since the last finalization whose bytes, with all that
  // followed, fit the bound.
  lemma RetainedExactly(ledger: seq<Frame>, admitted: seq<Frame>, since: nat, first: nat)
    requires Tracks(ledger, admitted, since) && first < |admitted|
    ensures |admitted| - |ledger| <= first
       <==> since <= first && TotalBytes(admitted[first..]) <= MAX_BUFFERED_BYTES
  {
    LedgerIsConsecutiveSuffix(ledger, admitted, since);
    if since <= first {
      BoundedSuffixIsLongest(admitted[since..], first - since);
      assert admitted[since..][first - since..] == admitted[first..];
    }
  }

  // The exact meaning of an accepted basis, over every admitted stream: it names frames admitted since
  // the last finalization and still within the byte bound, and its hash is the hash of exactly their
  // concatenated bytes.
  lemma VouchedExactly(ledger: seq<Frame>, admitted: seq<Frame>, since: nat, basis: Basis, hash: Hash)
    requires Tracks(ledger, admitted, since) && basis.first <= basis.last < |admitted|
    ensures Vouched(ledger, basis, hash)
       <==> && since <= basis.first
            && TotalBytes(admitted[basis.first..]) <= MAX_BUFFERED_BYTES
            && Describes(admitted[basis.first..basis.last + 1], basis, hash)
  {
    LedgerIsConsecutiveSuffix(ledger, admitted, since);
    RetainedExactly(ledger, admitted, since, basis.first);
    var start := |admitted| - |ledger|;
    if start <= basis.first {
      CoveredIsSlice(ledger, start, basis);
      assert ledger[basis.first - start..basis.last + 1 - start] == admitted[basis.first..basis.last + 1];
    } else {
      TooFewCovered(ledger, start, basis);
    }
  }

  // ---- The stream's ledger as an object ----

  class VoiceStreamLedger {
    const streamId: nat
    const sampleRate: nat
    var expectedSequence: nat
    var pcmLedger: seq<Frame>
    var pcmLedgerBytes: int
    var finalizedBasis: Option<Basis>
    ghost var admitted: seq<Frame>
    ghost var since: nat

    ghost predicate Valid()
      reads this
    {
      && expectedSequence == |admitted|
      && Tracks(pcmLedger, admitted, since)
      && pcmLedgerBytes == TotalBytes(pcmLedger)
    }

    constructor (streamId: nat, sampleRate: nat)
      ensures Valid() && admitted == [] && since == 0 && finalizedBasis == None
      ensures this.streamId == streamId && this.sampleRate == sampleRate
    {
      this.streamId, this.sampleRate, expectedSequence := streamId, sampleRate, 0;
      pcmLedger, pcmLedgerBytes, finalizedBasis := [], 0, None;
      admitted, since := [], 0;
    }

    // recordAdmittedPcmFrame.
    method RecordAdmittedFrame(frame: Frame)
      requires pcmLedgerBytes == TotalBytes(pcmLedger)
      modifies `pcmLedger, `pcmLedgerBytes
      ensures pcmLedger == BoundedSuffix(old(pcmLedger) + [frame])
      ensures pcmLedgerBytes == TotalBytes(pcmLedger) <= MAX_BUFFERED_BYTES
    {
      PushedTotal(pcmLedger, frame);
      pcmLedger := pcmLedger + [frame];
      pcmLedgerBytes := pcmLedgerBytes + |frame.bytes|;
      ghost var pushed := pcmLedger;
      while pcmLedgerBytes > MAX_BUFFERED_BYTES && |pcmLedger| > 0
        invariant pcmLedgerBytes == TotalBytes(pcmLedger)
        invariant BoundedSuffix(pcmLedger) == BoundedSuffix(pushed)
        decreases |pcmLedger|
      {
        var removed := pcmLedger[0];
        pcmLedger := pcmLedger[1..];
        pcmLedgerBytes := pcmLedgerBytes - |removed.bytes|;
      }
      if pcmLedgerBytes < 0 || pcmLedgerBytes > MAX_BUFFERED_BYTES { assert false; }
    }

    // snapshotAdmittedPcmFrame's guards and, once the worker has taken the frame, its recording.
    method AdmitFrame(frame: Frame) returns (ok: bool)
      requires Valid()
      modifies this
      ensures Valid() && since == old(since) && finalizedBasis == old(finalizedBasis)
      ensures ok <==> frame.sampleRate == sampleRate && frame.sequence == old(expectedSequence)
                      && |frame.bytes| <= MAX_BUFFERED_BYTES
      ensures admitted == if ok then old(admitted) + [frame] else old(admitted)
      ensures ok ==> pcmLedger != [] && pcmLedger[|pcmLedger| - 1] == frame
    {
      if frame.sampleRate != sampleRate || frame.sequence != expectedSequence || |frame.bytes| > MAX_BUFFERED_BYTES {
        return false;
      }
      AdmittingKeepsTracking(pcmLedger, admitted, since, frame);
      LatestIsKept(pcmLedger, frame);
      RecordAdmittedFrame(frame);
      expectedSequence := expectedSequence + 1;
      admitted := admitted + [frame];
      ok := true;
    }

    method CoveredFrames(basis: Basis) returns (frames: seq<Frame>)
      ensures frames == Covered(pcmLedger, basis)
    {
      frames := [];
      var i := 0;
      while i < |pcmLedger|
        invariant 0 <= i <= |pcmLedger|
        invariant frames == Covered(pcmLedger[..i], basis)
      {
        var frame := pcmLedger[i];
        CoveredSplits(pcmLedger[..i], [frame], basis);
        assert pcmLedger[..i] + [frame] == pcmLedger[..i + 1];
        assert Covered([frame][1..], basis) == [];
        if frame.sequence >= basis.first && frame.sequence <= basis.last { frames := frames + [frame]; }
        i := i + 1;
      }
      assert pcmLedger[..i] == pcmLedger;
    }

    // validateFinalizedAudioBasis.
    method ValidateBasis(basis: Basis, hash: Hash) returns (ok: bool)
      requires basis.first <= basis.last && basis.sampleRate > 0
      ensures ok <==> Vouched(pcmLedger, basis, hash)
    {
      var frames := CoveredFrames(basis);
      if |frames| != basis.last - basis.first + 1 || |frames| == 0 { return false; }
      var bytes: seq<Byte> := [];
      var sampleCount := 0;
      var k := 0;
      while k < |frames|
        invariant 0 <= k <= |frames|
        invariant NamedBelow(frames, k, basis)
        invariant sampleCount == TotalSamples(frames[..k]) <= MAX_SAFE_INTEGER
        invariant bytes == Joined(frames[..k])
      {
        var frame := frames[k];
        if frame.sequence != basis.first + k || frame.sampleRate != basis.sampleRate {
          NotVouchedAt(pcmLedger, basis, hash, k);
          return false;
        }
        NamedNext(frames, k, basis);
        TotalsOfPrefix(frames, k);
        sampleCount := sampleCount + frame.samples;
        if sampleCount > MAX_SAFE_INTEGER {
          SamplesGrow(frames, k + 1);
          TooManySamples(pcmLedger, basis, hash);
          return false;
        }
        bytes := bytes + frame.bytes;
        k := k + 1;
      }
      assert frames[..k] == frames;
      VouchedByTotals(pcmLedger, basis, hash);
      ok := && sampleCount == basis.sampleCount && frames[0].timestampMs == basis.startMs
            && Distance(EndOf(frames[|frames| - 1]), basis.endMs) <= TOLERANCE_MS && hash(bytes) == basis.pcmHash;
    }

    // The UTTERANCE_FINALIZED branch of applyEvents.
    method Finalize(basis: Basis, hash: Hash) returns (ok: bool)
      requires Valid() && basis.first <= basis.last && basis.sampleRate > 0
      modifies this
      ensures Valid() && admitted == old(admitted)
      ensures ok <==> && basis.streamId == streamId && basis.sampleRate == sampleRate && basis.last < |admitted|
                      && old(since) <= basis.first
                      && TotalBytes(admitted[basis.first..]) <= MAX_BUFFERED_BYTES
                      && Describes(admitted[basis.first..basis.last + 1], basis, hash)
      ensures ok ==> since == |admitted| && pcmLedger == [] && finalizedBasis == Some(basis)
      ensures !ok ==> since == old(since) && pcmLedger == old(pcmLedger) && finalizedBasis == old(finalizedBasis)
    {
      if basis.streamId != streamId || basis.sampleRate != sampleRate || basis.last >= expectedSequence { return false; }
      VouchedExactly(pcmLedger, admitted, since, basis, hash);
      var matches := ValidateBasis(basis, hash);
      if !matches { return false; }
      finalizedBasis := Some(basis);
      pcmLedger, pcmLedgerBytes := [], 0;
      since := |admitted|;
      ok := true;
    }
  }

  // The frame at position j is the one the basis names there.
  predicate IsNamed(frame: Frame, j: nat, basis: Basis) {
    frame.sequence == basis.first + j && frame.sampleRate == basis.sampleRate
  }

  predicate NamedBelow(frames: seq<Frame>, k: nat, basis: Basis)
    requires k <= |frames|
  {
    forall j :: 0 <= j < k ==> IsNamed(frames[j], j, basis)
  }

  lemma NamedNext(frames: seq<Frame>, k: nat, basis: Basis)
    requires k < |frames| && NamedBelow(frames, k, basis) && IsNamed(frames[k], k, basis)
    ensures NamedBelow(frames, k + 1, basis)
  {
  }

  lemma NotVouchedAt(ledger: seq<Frame>, basis: Basis, hash: Hash, k: nat)
    requires var frames := Covered(ledger, basis);
             k < |frames| && !IsNamed(frames[k], k, basis)
    ensures !Vouched(ledger, basis, hash)
  {
  }

  lemma TooManySamples(ledger: seq<Frame>, basis: Basis, hash: Hash)
    requires TotalSamples(Covered(ledger, basis)) > MAX_SAFE_INTEGER
    ensures !Vouched(ledger, basis, hash)
  {
  }

  // What is left to compare once the frames are known to be the ones named.
  lemma VouchedByTotals(ledger: seq<Frame>, basis: Basis, hash: Hash)
    requires basis.first <= basis.last && basis.sampleRate > 0
    requires var frames := Covered(ledger, basis);
             && |frames| == basis.last - basis.first + 1
             && NamedBelow(frames, |frames|, basis)
             && TotalSamples(frames) <= MAX_SAFE_INTEGER
    ensures var frames := Covered(ledger, basis);
            Vouched(ledger, basis, hash) <==>
            && TotalSamples(frames) == basis.sampleCount && frames[0].timestampMs == basis.startMs
            && Distance(EndOf(frames[|frames| - 1]), basis.endMs) <= TOLERANCE_MS && hash(Joined(frames)) == basis.pcmHash
  {
  }

  lemma TotalsOfPrefix(frames: seq<Frame>, k: nat)
    requires k < |frames|
    ensures TotalSamples(frames[..k + 1]) == TotalSamples(frames[..k]) + frames[k].samples
    ensures Joined(frames[..k + 1]) == Joined(frames[..k]) + frames[k].bytes
  {
    var last := [frames[k]];
    TotalsAppend(frames[..k], last);
    assert frames[..k + 1] == frames[..k] + last;
    assert last[1..] == [];
    assert frames[k].bytes + Joined([]) == frames[k].bytes;
  }

  lemma SamplesGrow(frames: seq<Frame>, k: nat)
    requires k <= |frames|
    ensures TotalSamples(frames[..k]) <= TotalSamples(frames)
  {
    TotalsAppend(frames[..k], frames[k..]);
    assert frames == frames[..k] + frames[k..];
  }
}
