// The speech worker's table of voice-activity streams: at most 64 live ones, the least recently used
// pushed out first, with tombstones so that a stream pushed out is refused rather than restarted.
module VadTables {
  import opened Results
  import opened Sequences
  import opened VadStream

  type StreamId = nat

  datatype Entry = Entry(silero: Silero, rate: Option<bool>)

  // `live` and `evicted` are the insertion orders of the source's two ordered dictionaries; the
  // sample rate is recorded as "is 48 kHz".
  datatype Table = Table(live: seq<StreamId>, entries: map<StreamId, Entry>, evicted: seq<StreamId>)

  datatype VadError = StateEvicted | SampleRateChanged

  datatype Request = Request(id: StreamId, at48k: bool, samples: seq<real>)

  datatype Reply = Reply(table: Table, result: Result<real, VadError>)

  // The two eviction loops.
  function EvictLive(t: Table): Table
    decreases |t.live|
  {
    if |t.live| <= MAX_VAD_STREAMS then t
    else EvictLive(Table(t.live[1..], t.entries - {t.live[0]}, Without(t.evicted, t.live[0]) + [t.live[0]]))
  }

  function TrimTombstones(t: Table): Table
    decreases |t.evicted|
  {
    if |t.evicted| <= MAX_TOMBSTONES then t else TrimTombstones(t.(evicted := t.evicted[1..]))
  }

  function Serve(model: Model, t: Table, r: Request): Reply
    requires forall id :: id in t.entries ==> |t.entries[id].silero.core.context| == CONTEXT
  {
    if r.id !in t.entries && r.id in t.evicted then Reply(t, Err(StateEvicted))
    else
      var entry := if r.id in t.entries then t.entries[r.id] else Entry(FreshSilero, None);
      var popped := Table(Without(t.live, r.id), t.entries - {r.id}, t.evicted);
      if entry.rate.Some? && entry.rate.value != r.at48k then Reply(popped, Err(SampleRateChanged))
      else
        var scored := Score(model, entry.silero, r.samples, r.at48k);
        var inserted := Table(popped.live + [r.id], popped.entries[r.id := Entry(scored, Some(r.at48k))], popped.evicted);
        Reply(TrimTombstones(EvictLive(inserted)), Ok(scored.core.probability))
  }

  ghost predicate ValidTable(t: Table) {
    && Distinct(t.live) && Distinct(t.evicted)
    && (forall id :: id in t.live <==> id in t.entries)
    && (forall id :: id in t.evicted ==> id !in t.live)
    && |t.live| <= MAX_VAD_STREAMS && |t.evicted| <= MAX_TOMBSTONES
    && (forall id :: id in t.entries ==> |t.entries[id].silero.core.context| == CONTEXT && t.entries[id].rate.Some?)
  }

  const EmptyTable := Table([], map[], [])

  lemma HeadDropped(ids: seq<StreamId>)
    requires Distinct(ids) && ids != []
    ensures Distinct(ids[1..])
    ensures forall o :: o in ids[1..] <==> o in ids && o != ids[0]
  {
    forall o
      ensures o in ids[1..] <==> o in ids && o != ids[0]
    {
      assert o in ids <==> o == ids[0] || o in ids[1..];
    }
  }

  lemma Appended(ids: seq<StreamId>, id: StreamId)
    requires Distinct(ids) && id !in ids
    ensures Distinct(ids + [id])
    ensures forall o :: o in ids + [id] <==> o in ids || o == id
  {
  }

  function Pushed(evicted: seq<StreamId>, id: StreamId): seq<StreamId> {
    if |evicted| < MAX_TOMBSTONES then evicted + [id] else evicted[1..] + [id]
  }

  lemma PushedMembers(evicted: seq<StreamId>, id: StreamId)
    requires Distinct(evicted) && id !in evicted && |evicted| <= MAX_TOMBSTONES
    ensures var n := Pushed(evicted, id);
      && Distinct(n) && |n| <= MAX_TOMBSTONES && id in n
      && (forall o :: o in n ==> o in evicted || o == id)
  {
    if |evicted| == MAX_TOMBSTONES {
      HeadDropped(evicted);
      Appended(evicted[1..], id);
    } else {
      Appended(evicted, id);
    }
  }

  // The two eviction loops run at most once each.
  lemma EvictionsUnrolled(t: Table)
    requires Distinct(t.evicted) && |t.evicted| <= MAX_TOMBSTONES && |t.live| <= MAX_VAD_STREAMS + 1
    requires |t.live| > MAX_VAD_STREAMS ==> t.live[0] !in t.evicted
    ensures TrimTombstones(EvictLive(t)) ==
      if |t.live| <= MAX_VAD_STREAMS then t
      else Table(t.live[1..], t.entries - {t.live[0]}, Pushed(t.evicted, t.live[0]))
  {
    if |t.live| > MAX_VAD_STREAMS {
      var id := t.live[0];
      WithoutMembers(t.evicted, id);
      var once := Table(t.live[1..], t.entries - {id}, t.evicted + [id]);
      assert EvictLive(t) == EvictLive(once) == once;
      if |t.evicted| == MAX_TOMBSTONES {
        assert once.evicted[1..] == t.evicted[1..] + [id];
        assert TrimTombstones(once) == TrimTombstones(once.(evicted := once.evicted[1..]));
      }
    }
  }

  lemma InsertKeepsValid(popped: Table, id: StreamId, entry: Entry)
    requires ValidTable(popped) && id !in popped.live && id !in popped.evicted
    requires |entry.silero.core.context| == CONTEXT && entry.rate.Some?
    requires |popped.live| < MAX_VAD_STREAMS
    ensures ValidTable(Table(popped.live + [id], popped.entries[id := entry], popped.evicted))
  {
    Appended(popped.live, id);
  }

  lemma InsertEvictsOldest(popped: Table, id: StreamId, entry: Entry)
    requires ValidTable(popped) && id !in popped.live && id !in popped.evicted
    requires |entry.silero.core.context| == CONTEXT && entry.rate.Some?
    requires |popped.live| == MAX_VAD_STREAMS
    ensures var live := popped.live + [id];
      ValidTable(Table(live[1..], popped.entries[id := entry] - {live[0]}, Pushed(popped.evicted, live[0])))
  {
    var live := popped.live + [id];
    Appended(popped.live, id);
    HeadDropped(live);
    assert live[0] == popped.live[0] && live[0] in popped.live && live[0] in popped.entries;
    PushedMembers(popped.evicted, live[0]);
  }

  // The table a request's state is inserted into.
  function Popped(t: Table, id: StreamId): Table {
    Table(Without(t.live, id), t.entries - {id}, t.evicted)
  }

  lemma PoppedIsValid(t: Table, id: StreamId)
    requires ValidTable(t)
    ensures ValidTable(Popped(t, id)) && id !in Popped(t, id).live
    ensures |Popped(t, id).live| == if id in t.live then |t.live| - 1 else |t.live|
  {
    WithoutMembers(t.live, id);
  }

  function EntryOf(t: Table, id: StreamId): Entry {
    if id in t.entries then t.entries[id] else Entry(FreshSilero, None)
  }

  // One request, eviction loops unrolled.
  lemma ServeUnrolled(model: Model, t: Table, r: Request)
    requires ValidTable(t)
    ensures var reply := Serve(model, t, r);
      var entry := EntryOf(t, r.id);
      if r.id in t.evicted then reply == Reply(t, Err(StateEvicted))
      else if entry.rate.Some? && entry.rate.value != r.at48k then reply == Reply(Popped(t, r.id), Err(SampleRateChanged))
      else
        var scored := Score(model, entry.silero, r.samples, r.at48k);
        var live := Popped(t, r.id).live + [r.id];
        var entries := t.entries[r.id := Entry(scored, Some(r.at48k))];
        && |scored.core.context| == CONTEXT
        && reply == Reply(
             if |live| <= MAX_VAD_STREAMS then Table(live, entries, t.evicted)
             else Table(live[1..], entries - {live[0]}, Pushed(t.evicted, live[0])),
             Ok(scored.core.probability))
  {
    PoppedIsValid(t, r.id);
    var popped, entry := Popped(t, r.id), EntryOf(t, r.id);
    if r.id !in t.evicted && (entry.rate.None? || entry.rate.value == r.at48k) {
      var source := if r.at48k then Decimate(entry.silero.pending48k + r.samples) else r.samples;
      RunKeepsContext(model, entry.silero.core, entry.silero.pending + source);
      var scored := Entry(Score(model, entry.silero, r.samples, r.at48k), Some(r.at48k));
      assert popped.entries[r.id := scored] == t.entries[r.id := scored];
      var inserted := Table(popped.live + [r.id], t.entries[r.id := scored], t.evicted);
      if |inserted.live| > MAX_VAD_STREAMS { assert inserted.live[0] in popped.live; }
      EvictionsUnrolled(inserted);
    }
  }

  lemma ServeKeepsValid(model: Model, t: Table, r: Request)
    requires ValidTable(t)
    ensures ValidTable(Serve(model, t, r).table)
  {
    ServeUnrolled(model, t, r);
    PoppedIsValid(t, r.id);
    var popped, entry := Popped(t, r.id), EntryOf(t, r.id);
    if r.id !in t.evicted && (entry.rate.None? || entry.rate.value == r.at48k) {
      var scored := Entry(Score(model, entry.silero, r.samples, r.at48k), Some(r.at48k));
      assert popped.entries[r.id := scored] == t.entries[r.id := scored];
      if |popped.live| < MAX_VAD_STREAMS {
        InsertKeepsValid(popped, r.id, scored);
      } else {
        InsertEvictsOldest(popped, r.id, scored);
      }
    }
  }

  // ---- Whole runs ----

  ghost function ServeAll(model: Model, t: Table, requests: seq<Request>): Table
    requires ValidTable(t)
    decreases requests
  {
    if requests == [] then t
    else
      ServeKeepsValid(model, t, requests[0]);
      ServeAll(model, Serve(model, t, requests[0]).table, requests[1..])
  }

  // Over every request sequence the table stays within its bounds and its two halves disjoint.
  lemma {:induction false} RunsKeepValid(model: Model, t: Table, requests: seq<Request>)
    requires ValidTable(t)
    ensures ValidTable(ServeAll(model, t, requests))
    decreases requests
  {
    if requests != [] {
      ServeKeepsValid(model, t, requests[0]);
      RunsKeepValid(model, Serve(model, t, requests[0]).table, requests[1..]);
    }
  }

  predicate Refused(t: Table, r: Request) {
    || r.id in t.evicted
    || (EntryOf(t, r.id).rate.Some? && EntryOf(t, r.id).rate.value != r.at48k)
  }

  // The stream whose state a request pushes out, if any.
  function Victim(t: Table, r: Request): Option<StreamId> {
    if !Refused(t, r) && r.id !in t.live && |t.live| == MAX_VAD_STREAMS then Some(t.live[0]) else None
  }

  lemma EvictionEffect(model: Model, t: Table, r: Request)
    requires ValidTable(t)
    ensures var n := Serve(model, t, r).table;
      && n.evicted == (if Victim(t, r).None? then t.evicted else Pushed(t.evicted, Victim(t, r).value))
      && (forall id :: id != r.id && Some(id) != Victim(t, r) ==>
            (id in n.entries <==> id in t.entries) && EntryOf(n, id) == EntryOf(t, id))
  {
    ServeUnrolled(model, t, r);
    PoppedIsValid(t, r.id);
    WithoutMembers(t.live, r.id);
    if Victim(t, r).Some? { assert (Popped(t, r.id).live + [r.id])[0] == t.live[0]; }
  }

  // How many tombstones are younger than id's.
  function Age(evicted: seq<StreamId>, id: StreamId): nat
    requires id in evicted
  {
    var last := |evicted| - 1;
    if evicted[last] == id then 0
    else
      assert id in evicted[..last];
      1 + Age(evicted[..last], id)
  }

  lemma {:induction false} AgeBound(evicted: seq<StreamId>, id: StreamId)
    requires id in evicted
    ensures Age(evicted, id) < |evicted|
    ensures evicted[|evicted| - 1 - Age(evicted, id)] == id
  {
    var last := |evicted| - 1;
    if evicted[last] != id {
      assert id in evicted[..last];
      AgeBound(evicted[..last], id);
    }
  }

  lemma {:induction false} AgeOfTail(evicted: seq<StreamId>, id: StreamId)
    requires id in evicted && Age(evicted, id) < |evicted| - 1
    ensures id in evicted[1..] && Age(evicted[1..], id) == Age(evicted, id)
    decreases evicted
  {
    AgeBound(evicted, id);
    var last := |evicted| - 1;
    assert evicted[1..][last - 1 - Age(evicted, id)] == id;
    if evicted[last] != id {
      assert id in evicted[..last];
      AgeOfTail(evicted[..last], id);
      assert evicted[1..][..last - 1] == evicted[..last][1..];
    }
  }

  // A tombstone ages by one with each further eviction and disappears at the age of 4096.
  lemma TombstoneAges(model: Model, t: Table, r: Request, id: StreamId)
    requires ValidTable(t) && id in t.evicted
    ensures var n := Serve(model, t, r).table;
      var age := Age(t.evicted, id) + if Victim(t, r).Some? then 1 else 0;
      if age < MAX_TOMBSTONES then id in n.evicted && Age(n.evicted, id) == age
      else id !in n.evicted && id !in n.live
  {
    EvictionEffect(model, t, r);
    AgeBound(t.evicted, id);
    if Victim(t, r).Some? {
      var victim := t.live[0];
      assert victim in t.live;
      var age := Age(t.evicted, id);
      if |t.evicted| < MAX_TOMBSTONES {
        assert (t.evicted + [victim])[..|t.evicted|] == t.evicted;
        assert id in (t.evicted + [victim])[..|t.evicted|];
        assert id in t.evicted + [victim];
      } else if age < |t.evicted| - 1 {
        AgeOfTail(t.evicted, id);
        var rest := t.evicted[1..];
        assert (rest + [victim])[..|rest|] == rest;
        assert id in (rest + [victim])[..|rest|];
        assert id in rest + [victim];
      } else {
        HeadDropped(t.evicted);
        ServeUnrolled(model, t, r);
        WithoutMembers(t.live, r.id);
      }
    }
  }

  ghost function Evictions(model: Model, t: Table, requests: seq<Request>): nat
    requires ValidTable(t)
    decreases requests
  {
    if requests == [] then 0
    else
      ServeKeepsValid(model, t, requests[0]);
      (if Victim(t, requests[0]).Some? then 1 else 0)
        + Evictions(model, Serve(model, t, requests[0]).table, requests[1..])
  }

  // Over every request sequence: an evicted stream is refused, never silently restarted, for as long
  // as fewer than 4096 evictions have happened since its own.
  lemma {:induction false} EvictedStreamIsRefused(model: Model, t: Table, requests: seq<Request>, id: StreamId, r: Request)
    requires ValidTable(t) && id in t.evicted && r.id == id
    requires Age(t.evicted, id) + Evictions(model, t, requests) < MAX_TOMBSTONES
    ensures ValidTable(ServeAll(model, t, requests))
    ensures var n := ServeAll(model, t, requests);
      && id in n.evicted && Age(n.evicted, id) == Age(t.evicted, id) + Evictions(model, t, requests)
      && Serve(model, n, r) == Reply(n, Err(StateEvicted))
    decreases requests
  {
    if requests == [] {
      ServeUnrolled(model, t, r);
    } else {
      TombstoneAges(model, t, requests[0], id);
      ServeKeepsValid(model, t, requests[0]);
      EvictedStreamIsRefused(model, Serve(model, t, requests[0]).table, requests[1..], id, r);
    }
  }

  // The request that pushes a stream out starts its tombstone at age 0.
  lemma VictimGetsTombstone(model: Model, t: Table, r: Request)
    requires ValidTable(t) && Victim(t, r).Some?
    ensures var n := Serve(model, t, r).table;
      Victim(t, r).value in n.evicted && Age(n.evicted, Victim(t, r).value) == 0
  {
    EvictionEffect(model, t, r);
  }

  function SamplesOf(requests: seq<Request>, id: StreamId): seq<seq<real>> {
    if requests == [] then []
    else (if requests[0].id == id then [requests[0].samples] else []) + SamplesOf(requests[1..], id)
  }

  // Nothing in the run disturbs the stream: one sample rate, and it is never the one evicted.
  ghost predicate Undisturbed(model: Model, t: Table, requests: seq<Request>, id: StreamId, at48k: bool)
    requires ValidTable(t)
    decreases requests
  {
    requests == [] ||
    (ServeKeepsValid(model, t, requests[0]);
     && (requests[0].id == id ==> requests[0].at48k == at48k)
     && Victim(t, requests[0]) != Some(id)
     && Undisturbed(model, Serve(model, t, requests[0]).table, requests[1..], id, at48k))
  }

  // Whatever requests of other streams come in between, a stream's state is that of its own samples.
  lemma {:induction false} StreamsDoNotInterfere(model: Model, t: Table, requests: seq<Request>, id: StreamId, at48k: bool)
    requires ValidTable(t) && id !in t.evicted && Undisturbed(model, t, requests, id, at48k)
    requires EntryOf(t, id).rate == None || EntryOf(t, id).rate == Some(at48k)
    ensures |EntryOf(t, id).silero.core.context| == CONTEXT
    ensures id !in ServeAll(model, t, requests).evicted
    ensures EntryOf(ServeAll(model, t, requests), id).rate == None || EntryOf(ServeAll(model, t, requests), id).rate == Some(at48k)
    ensures EntryOf(ServeAll(model, t, requests), id).silero
      == ScoreAll(model, EntryOf(t, id).silero, SamplesOf(requests, id), at48k)
    decreases requests
  {
    if requests != [] {
      var r := requests[0];
      var n := Serve(model, t, r).table;
      ServeKeepsValid(model, t, r);
      EvictionEffect(model, t, r);
      ServeUnrolled(model, t, r);
      if Victim(t, r).Some? { PushedHasNo(t.evicted, Victim(t, r).value, id); }
      if r.id == id { OwnRequest(model, t, r); }
      StreamsDoNotInterfere(model, n, requests[1..], id, at48k);
      if r.id == id {
        var samples := SamplesOf(requests, id);
        assert samples[0] == r.samples && samples[1..] == SamplesOf(requests[1..], id);
      } else {
        assert [] + SamplesOf(requests[1..], id) == SamplesOf(requests[1..], id);
      }
    }
  }

  lemma PushedHasNo(evicted: seq<StreamId>, victim: StreamId, id: StreamId)
    requires id !in evicted && id != victim
    ensures id !in Pushed(evicted, victim)
  {
  }

  lemma OwnRequest(model: Model, t: Table, r: Request)
    requires ValidTable(t) && !Refused(t, r)
    ensures var entry := EntryOf(t, r.id);
      |entry.silero.core.context| == CONTEXT
      && EntryOf(Serve(model, t, r).table, r.id)
           == Entry(Score(model, entry.silero, r.samples, r.at48k), Some(r.at48k))
  {
    ServeUnrolled(model, t, r);
    PoppedIsValid(t, r.id);
    var live := Popped(t, r.id).live + [r.id];
    if |live| > MAX_VAD_STREAMS { assert live[0] in Popped(t, r.id).live; }
  }

  // End to end: after any requests of any streams, a stream that was new at first and undisturbed since is
  // answered for the whole sequence of its own samples, inferred window by window.
  lemma ReplyIsOfWholeStream(model: Model, t: Table, requests: seq<Request>, r: Request)
    requires ValidTable(t) && r.id !in t.live && r.id !in t.evicted && Undisturbed(model, t, requests, r.id, r.at48k)
    ensures ValidTable(ServeAll(model, t, requests))
    ensures var whole := Concat(SamplesOf(requests, r.id)) + r.samples;
      var score := Score(model, FreshSilero, whole, r.at48k);
      && Serve(model, ServeAll(model, t, requests), r).result == Ok(score.core.probability)
      && InfersWhole(model, score, whole, r.at48k)
  {
    var samples, n := SamplesOf(requests, r.id), ServeAll(model, t, requests);
    RunsKeepValid(model, t, requests);
    StreamsDoNotInterfere(model, t, requests, r.id, r.at48k);
    if samples != [] {
      ChunkingDoesNotMatter(model, FreshSilero, samples, r.at48k);
      ScoreInTwoParts(model, FreshSilero, Concat(samples), r.samples, r.at48k);
    } else {
      assert Concat(samples) + r.samples == r.samples;
    }
    ServeUnrolled(model, n, r);
    WholeStreamInferences(model, Concat(samples) + r.samples, r.at48k);
  }

  // A request at another sample rate is refused, but it also throws the stream's state away without a
  // tombstone: the next request, at either rate, silently starts from nothing.
  lemma RateChangeForgetsStream(model: Model, t: Table, r: Request, next: Request)
    requires ValidTable(t) && r.id in t.live && t.entries[r.id].rate != Some(r.at48k) && next.id == r.id
    ensures var n := Serve(model, t, r);
      && n.result == Err(SampleRateChanged) && ValidTable(n.table)
      && r.id !in n.table.live && r.id !in n.table.evicted
      && Serve(model, n.table, next).result == Ok(Score(model, FreshSilero, next.samples, next.at48k).core.probability)
  {
    ServeUnrolled(model, t, r);
    ServeKeepsValid(model, t, r);
    PoppedIsValid(t, r.id);
    ServeUnrolled(model, Popped(t, r.id), next);
  }

  // Nothing else does: after any request a live stream is live or has a tombstone, unless the request was
  // its own at another rate.
  lemma ForgottenExactly(model: Model, t: Table, r: Request, id: StreamId)
    requires ValidTable(t) && id in t.live
    ensures var n := Serve(model, t, r).table;
      id in n.live || id in n.evicted <==> !(r.id == id && t.entries[id].rate != Some(r.at48k))
  {
    ServeKeepsValid(model, t, r);
    EvictionEffect(model, t, r);
    if r.id == id && t.entries[id].rate != Some(r.at48k) {
      RateChangeForgetsStream(model, t, r, r);
    } else if r.id == id {
      OwnRequest(model, t, r);
    } else if Victim(t, r) == Some(id) {
      VictimGetsTombstone(model, t, r);
    }
  }

  // ---- The worker as an object ----

  class SpeechRuntime {
    const model: Model
    var live: seq<StreamId>
    var entries: map<StreamId, Entry>
    var evicted: seq<StreamId>

    function State(): Table
      reads this
    {
      Table(live, entries, evicted)
    }

    constructor (model: Model)
      ensures this.model == model && State() == EmptyTable && ValidTable(State())
    {
      this.model := model;
      live, entries, evicted := [], map[], [];
    }

    // The inference loop over one stream's pending samples.
    method InferPending(start: Core, samples: seq<real>) returns (core: Core, pending: seq<real>)
      requires |start.context| == CONTEXT
      ensures (core, pending) == RunWindows(model, start, samples)
    {
      core, pending := start, samples;
      while |pending| >= WINDOW
        invariant |core.context| == CONTEXT
        invariant RunWindows(model, start, samples) == RunWindows(model, core, pending)
        decreases |pending|
      {
        core, pending := Infer(model, core, pending[..WINDOW]), pending[WINDOW..];
      }
    }

    method ScoreVad(r: Request) returns (result: Result<real, VadError>)
      requires ValidTable(State())
      modifies this
      ensures Reply(State(), result) == Serve(model, old(State()), r)
      ensures ValidTable(State())
    {
      ServeKeepsValid(model, State(), r);
      PoppedIsValid(State(), r.id);
      if r.id !in entries && r.id in evicted { return Err(StateEvicted); }
      var entry := if r.id in entries then entries[r.id] else Entry(FreshSilero, None);
      live, entries := Without(live, r.id), entries - {r.id};
      if entry.rate.Some? && entry.rate.value != r.at48k { return Err(SampleRateChanged); }
      var silero := entry.silero;
      var arrived := r.samples;
      if r.at48k {
        var source := silero.pending48k + r.samples;
        arrived := Decimate(source);
        silero := silero.(pending48k := Undecimated(source));
      }
      var core, pending := InferPending(silero.core, silero.pending + arrived);
      silero := Silero(core, pending, silero.pending48k);
      live, entries := live + [r.id], entries[r.id := Entry(silero, Some(r.at48k))];
      ghost var inserted := State();
      while |live| > MAX_VAD_STREAMS
        invariant EvictLive(State()) == EvictLive(inserted)
        decreases |live|
      {
        live, entries, evicted := live[1..], entries - {live[0]}, Without(evicted, live[0]) + [live[0]];
      }
      while |evicted| > MAX_TOMBSTONES
        invariant TrimTombstones(State()) == TrimTombstones(EvictLive(inserted))
        decreases |evicted|
      {
        evicted := evicted[1..];
      }
      result := Ok(core.probability);
    }
  }
}
