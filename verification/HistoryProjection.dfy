// The presentation history a session shows after a restart, projected from its event log.
module HistoryProjections {
  import opened Results
  import Ledger = DeliveryLedger

  type DeliveryId = nat

  datatype Content = Text(text: string) | Audio(text: string) | Whiteboard

  datatype LogEvent =
    | Queued(id: DeliveryId, generation: string, content: Content)
    | Moved(id: DeliveryId, status: Ledger.Status, byRenderer: bool)
    | TurnCommitted(turn: nat, text: string)
    | Unrelated

  datatype Entry =
    | Student(sequence: nat, turn: nat, text: string)
    | Interviewer(sequence: nat, id: DeliveryId, text: string, status: Ledger.Status)

  type Statuses = map<DeliveryId, Ledger.Status>

  // Event k of a log has sequence number k + 1.
  type Log = seq<LogEvent>

  // ---- Replay ----

  // The reducer's part that concerns delivery statuses; None is an event it throws on.
  function Reduce(s: Statuses, e: LogEvent): Option<Statuses> {
    match e
    case Queued(id, _, _) => Some(s[id := Ledger.Queued])
    case Moved(id, status, byRenderer) =>
      if id !in s || status == Ledger.Queued then None
      else if Ledger.Allowed(s[id], status)
              || (status == Ledger.Cancelled && s[id] == Ledger.Delivering && byRenderer)
      then Some(s[id := status])
      else None
    case TurnCommitted(_, _) => Some(s)
    case Unrelated => Some(s)
  }

  function Replay(log: Log, n: nat): Option<Statuses>
    requires n <= |log|
  {
    if n == 0 then Some(map[])
    else
      var before := Replay(log, n - 1);
      if before.None? then None else Reduce(before.value, log[n - 1])
  }

  // The event of the delivery ledger a move stands for.
  function DraftOf(e: LogEvent): Ledger.Draft
    requires e.Moved? && e.status != Ledger.Queued
  {
    match e.status
    case Delivering => Ledger.DeliveryStarted(e.id)
    case Exposed => Ledger.DeliveryExposed(e.id)
    case Completed => Ledger.DeliveryCompleted(e.id)
    case Cancelled => Ledger.DeliveryCancelled(e.id, if e.byRenderer then Ledger.Renderer else Ledger.Application)
    case PossiblyExposed => Ledger.DeliveryPossiblyExposed(e.id)
  }

  ghost predicate StatusesOf(s: Statuses, ledger: Ledger.Session) {
    s.Keys == ledger.deliveries.Keys && forall id :: id in s ==> s[id] == ledger.deliveries[id].status
  }

  // A move is accepted here exactly when the delivery ledger accepts it, with the same outcome.
  lemma MovesAsLedger(s: Statuses, ledger: Ledger.Session, e: LogEvent)
    requires StatusesOf(s, ledger) && e.Moved? && e.status != Ledger.Queued
    ensures Reduce(s, e).Some? <==> Ledger.Reduce(ledger, DraftOf(e)).Some?
    ensures Reduce(s, e).Some? ==> StatusesOf(Reduce(s, e).value, Ledger.Reduce(ledger, DraftOf(e)).value)
  {
    Ledger.ReducesExactly(ledger, DraftOf(e));
  }

  lemma QueuesAsLedger(s: Statuses, ledger: Ledger.Session, e: LogEvent, atom: Ledger.Atom)
    requires StatusesOf(s, ledger) && e.Queued?
    ensures Reduce(s, e).Some? && StatusesOf(Reduce(s, e).value, Ledger.Reduce(ledger, Ledger.DeliveryQueued(e.id, atom)).value)
  {
  }

  predicate IsExposed(s: Statuses, id: DeliveryId) {
    id in s && (s[id] == Ledger.Exposed || s[id] == Ledger.Completed)
  }

  predicate ExposedAt(log: Log, k: nat, id: DeliveryId) {
    k < |log| && log[k].Moved? && log[k].id == id && log[k].status == Ledger.Exposed
  }

  predicate QueuedAt(log: Log, k: nat, id: DeliveryId) {
    k < |log| && log[k].Queued? && log[k].id == id
  }

  // Exposed at k and not queued again before n.
  predicate LastsUntil(log: Log, k: nat, n: nat, id: DeliveryId) {
    k < n && ExposedAt(log, k, id) && forall j :: k < j < n ==> !QueuedAt(log, j, id)
  }

  // The exact meaning of the status check: a delivery ends up exposed or completed if and only if it was
  // physically exposed and never queued again since.
  lemma {:induction false} ExposedExactly(log: Log, n: nat, id: DeliveryId)
    requires n <= |log| && Replay(log, n).Some?
    ensures IsExposed(Replay(log, n).value, id) <==> exists k: nat :: LastsUntil(log, k, n, id)
  {
    if n > 0 {
      ExposedExactly(log, n - 1, id);
      var before, now, e := Replay(log, n - 1).value, Replay(log, n).value, log[n - 1];
      if ExposedAt(log, n - 1, id) {
        assert LastsUntil(log, n - 1, n, id);
      } else if IsExposed(before, id) && !QueuedAt(log, n - 1, id) {
        var k: nat :| LastsUntil(log, k, n - 1, id);
        assert LastsUntil(log, k, n, id);
      } else if k: nat :| LastsUntil(log, k, n, id) {
        assert k < n - 1;
        assert LastsUntil(log, k, n - 1, id);
      }
    }
  }

  // ---- Keys ----

  // semanticDeliveryKey.
  function Key(generation: string, text: string): string {
    generation + ['\0'] + text
  }

  predicate NulFree(s: string) {
    '\0' !in s
  }

  // Exactly when two different pairs share a key: the longer generation id continues the shorter one
  // with a NUL and the start of its text.
  lemma KeysCollideExactly(g: string, t: string, h: string, u: string)
    requires |g| <= |h|
    ensures Key(g, t) == Key(h, u)
       <==> (g == h && t == u) || exists x :: h == g + ['\0'] + x && t == x + ['\0'] + u
  {
    var a, b := Key(g, t), Key(h, u);
    forall x: string | h == g + ['\0'] + x && t == x + ['\0'] + u ensures a == b {}
    if a == b {
      assert a[..|g|] == g && b[..|g|] == h[..|g|];
      assert a[|g| + 1..] == t;
      if |g| < |h| {
        var x := h[|g| + 1..];
        assert h[|g|] == b[|g|] == a[|g|] == '\0';
        assert h == g + ['\0'] + x;
        assert b[|g| + 1..] == x + ['\0'] + u;
      } else {
        assert b[|g| + 1..] == u && h[..|g|] == h;
      }
    }
  }

  // Generation ids without NUL never collide.
  lemma KeysIdentifyPairs(g: string, t: string, h: string, u: string)
    requires NulFree(g) && NulFree(h)
    ensures Key(g, t) == Key(h, u) <==> g == h && t == u
  {
    if |g| <= |h| { KeysCollideExactly(g, t, h, u); } else { KeysCollideExactly(h, u, g, t); }
    assert forall x: string :: '\0' in g + ['\0'] + x && '\0' in h + ['\0'] + x;
  }

  // Two different pairs that do share a key.
  lemma KeysCanCollide()
    ensures Key(['g'], ['x', '\0', 'u']) == Key(['g', '\0', 'x'], ['u'])
  {
    KeysCollideExactly(['g'], ['x', '\0', 'u'], ['g', '\0', 'x'], ['u']);
    assert ['g', '\0', 'x'] == ['g'] + ['\0'] + ['x'] && ['x', '\0', 'u'] == ['x'] + ['\0'] + ['u'];
  }

  // ---- The projection, by definition ----

  // The text and generation last queued for a delivery as text or audio. A whiteboard queueing in between
  // leaves them in place.
  function ContentsBefore(log: Log, n: nat): map<DeliveryId, (string, string)>
    requires n <= |log|
  {
    if n == 0 then map[]
    else
      var before, e := ContentsBefore(log, n - 1), log[n - 1];
      if e.Queued? && !e.content.Whiteboard? then before[e.id := (e.generation, e.content.text)] else before
  }

  // What the exposure at k made visible: a (generation, text) pair.
  function VisibleAt(log: Log, k: nat, final: Statuses): Option<(string, string)>
    requires k < |log|
  {
    if !log[k].Moved? || log[k].status != Ledger.Exposed || !IsExposed(final, log[k].id) then None
    else
      var contents := ContentsBefore(log, k);
      if log[k].id in contents then Some(contents[log[k].id]) else None
  }

  function KeyAt(log: Log, k: nat, final: Statuses): Option<string>
    requires k < |log|
  {
    var visible := VisibleAt(log, k, final);
    if visible.None? then None else Some(Key(visible.value.0, visible.value.1))
  }

  predicate FirstVisible(log: Log, k: nat, final: Statuses)
    requires k < |log|
  {
    && KeyAt(log, k, final).Some?
    && forall j :: 0 <= j < k ==> KeyAt(log, j, final) != KeyAt(log, k, final)
  }

  predicate Shown(log: Log, k: nat, final: Statuses)
    requires k < |log|
  {
    log[k].TurnCommitted? || FirstVisible(log, k, final)
  }

  function EntryAt(log: Log, k: nat, final: Statuses): Entry
    requires k < |log| && Shown(log, k, final)
  {
    if log[k].TurnCommitted? then Student(k + 1, log[k].turn, log[k].text)
    else Interviewer(k + 1, log[k].id, VisibleAt(log, k, final).value.1, final[log[k].id])
  }

  function History(log: Log, n: nat, final: Statuses): seq<Entry>
    requires n <= |log|
  {
    if n == 0 then []
    else History(log, n - 1, final) + if Shown(log, n - 1, final) then [EntryAt(log, n - 1, final)] else []
  }

  // ---- Main results ----

  // Every entry shows the event its sequence number names.
  ghost predicate Faithful(log: Log, n: nat, final: Statuses, history: seq<Entry>)
    requires n <= |log|
  {
    forall i :: 0 <= i < |history| ==>
      && 1 <= history[i].sequence <= n && Shown(log, history[i].sequence - 1, final)
      && history[i] == EntryAt(log, history[i].sequence - 1, final)
  }

  predicate Increasing(history: seq<Entry>) {
    forall i, j :: 0 <= i < j < |history| ==> history[i].sequence < history[j].sequence
  }

  lemma {:induction false} HistoryIsFaithful(log: Log, n: nat, final: Statuses)
    requires n <= |log|
    ensures Faithful(log, n, final, History(log, n, final)) && Increasing(History(log, n, final))
  {
    if n > 0 {
      HistoryIsFaithful(log, n - 1, final);
      var before := History(log, n - 1, final);
      if Shown(log, n - 1, final) {
        assert History(log, n, final) == before + [EntryAt(log, n - 1, final)];
      } else {
        assert History(log, n, final) == before;
      }
    }
  }

  lemma {:induction false} ShownIsInHistory(log: Log, n: nat, final: Statuses, k: nat)
    requires k < n <= |log| && Shown(log, k, final)
    ensures EntryAt(log, k, final) in History(log, n, final)
  {
    if k < n - 1 {
      ShownIsInHistory(log, n - 1, final, k);
    } else {
      assert History(log, n, final)[|History(log, n - 1, final)|] == EntryAt(log, k, final);
    }
  }

  // The history shows exactly the events that are to be shown, in strictly increasing order.
  lemma {:induction false} HistoryShowsExactly(log: Log, n: nat, final: Statuses)
    requires n <= |log|
    ensures Faithful(log, n, final, History(log, n, final)) && Increasing(History(log, n, final))
    ensures forall k :: 0 <= k < n && Shown(log, k, final) ==> EntryAt(log, k, final) in History(log, n, final)
  {
    HistoryIsFaithful(log, n, final);
    forall k | 0 <= k < n && Shown(log, k, final) ensures EntryAt(log, k, final) in History(log, n, final) {
      ShownIsInHistory(log, n, final, k);
    }
  }

  // The last queueing of id before n, and the last one as text or audio.
  predicate LastQueued(log: Log, q: nat, n: nat, id: DeliveryId) {
    q < n && QueuedAt(log, q, id) && forall j :: q < j < n ==> !QueuedAt(log, j, id)
  }

  predicate SpokenAt(log: Log, q: nat, id: DeliveryId) {
    QueuedAt(log, q, id) && !log[q].content.Whiteboard?
  }

  predicate LastSpoken(log: Log, q: nat, n: nat, id: DeliveryId) {
    q < n && SpokenAt(log, q, id) && forall j :: q < j < n ==> !SpokenAt(log, j, id)
  }

  // Every committed turn has exactly one entry, with its own sequence number, turn and text.
  lemma EachTurnOnce(log: Log, final: Statuses, k: nat) returns (i: nat)
    requires k < |log| && log[k].TurnCommitted?
    ensures i < |History(log, |log|, final)|
    ensures History(log, |log|, final)[i] == Student(k + 1, log[k].turn, log[k].text)
    ensures forall j :: 0 <= j < |History(log, |log|, final)| && History(log, |log|, final)[j].sequence == k + 1 ==> j == i
  {
    HistoryShowsExactly(log, |log|, final);
    ShownIsInHistory(log, |log|, final, k);
    i :| i < |History(log, |log|, final)| && History(log, |log|, final)[i] == EntryAt(log, k, final);
  }

  // And every student entry is one of those.
  lemma TurnsWereCommitted(log: Log, final: Statuses, i: nat)
    requires i < |History(log, |log|, final)| && History(log, |log|, final)[i].Student?
    ensures var e := History(log, |log|, final)[i];
            && 1 <= e.sequence <= |log| && log[e.sequence - 1].TurnCommitted?
            && e.turn == log[e.sequence - 1].turn && e.text == log[e.sequence - 1].text
  {
    HistoryShowsExactly(log, |log|, final);
  }

  // An interviewer entry shows a delivery that was physically exposed at that very event and is exposed
  // or completed now, with the text last queued for it as text or audio.
  lemma EntriesWereExposed(log: Log, final: Statuses, i: nat)
    requires Replay(log, |log|) == Some(final)
    requires i < |History(log, |log|, final)| && History(log, |log|, final)[i].Interviewer?
    ensures var e := History(log, |log|, final)[i];
            && 1 <= e.sequence <= |log| && ExposedAt(log, e.sequence - 1, e.id)
            && IsExposed(final, e.id) && e.status == final[e.id]
            && exists q: nat :: LastSpoken(log, q, e.sequence - 1, e.id) && log[q].content.text == e.text
  {
    HistoryShowsExactly(log, |log|, final);
    var e := History(log, |log|, final)[i];
    var q := ContentWasQueued(log, e.sequence - 1, e.id);
  }

  lemma {:induction false} ContentWasQueued(log: Log, n: nat, id: DeliveryId) returns (q: nat)
    requires n <= |log| && id in ContentsBefore(log, n)
    ensures LastSpoken(log, q, n, id)
    ensures ContentsBefore(log, n)[id] == (log[q].generation, log[q].content.text)
  {
    if QueuedAt(log, n - 1, id) && !log[n - 1].content.Whiteboard? {
      q := n - 1;
    } else {
      q := ContentWasQueued(log, n - 1, id);
    }
  }

  lemma {:induction false} LatestOf(log: Log, n: nat, id: DeliveryId, k: nat) returns (q: nat)
    requires k < n <= |log| && QueuedAt(log, k, id)
    ensures k <= q && LastQueued(log, q, n, id)
  {
    if QueuedAt(log, n - 1, id) {
      q := n - 1;
    } else {
      q := LatestOf(log, n - 1, id, k);
    }
  }

  // The queueing that says what the delivery is carries this generation and text.
  predicate Carries(e: LogEvent, visible: (string, string)) {
    e.Queued? && !e.content.Whiteboard? && visible == (e.generation, e.content.text)
  }

  // An exposure shows what its delivery held if and only if that was text or audio: after a last queueing
  // as a whiteboard action, text of an earlier queueing is shown for it.
  lemma ShowsCurrentExactly(log: Log, final: Statuses, k: nat) returns (latest: nat)
    requires Replay(log, |log|) == Some(final) && k < |log| && VisibleAt(log, k, final).Some?
    ensures LastQueued(log, latest, k, log[k].id)
    ensures Carries(log[latest], VisibleAt(log, k, final).value) <==> !log[latest].content.Whiteboard?
  {
    var id := log[k].id;
    var spoken := ContentWasQueued(log, k, id);
    latest := LatestOf(log, k, id, spoken);
    assert !log[latest].content.Whiteboard? ==> SpokenAt(log, latest, id);
  }

  predicate HasText(content: Content, text: string) {
    !content.Whiteboard? && content.text == text
  }

  // The same of the entries.
  lemma EntriesAreCurrentExactly(log: Log, final: Statuses, i: nat) returns (latest: nat)
    requires Replay(log, |log|) == Some(final)
    requires i < |History(log, |log|, final)| && History(log, |log|, final)[i].Interviewer?
    ensures var e := History(log, |log|, final)[i];
            && 1 <= e.sequence <= |log| && LastQueued(log, latest, e.sequence - 1, e.id)
            && (HasText(log[latest].content, e.text) <==> !log[latest].content.Whiteboard?)
  {
    HistoryShowsExactly(log, |log|, final);
    latest := ShowsCurrentExactly(log, final, History(log, |log|, final)[i].sequence - 1);
  }

  predicate FreshIds(log: Log) {
    forall i, j :: 0 <= i < j < |log| && log[i].Queued? && log[j].Queued? ==> log[i].id != log[j].id
  }

  // So when no delivery id is queued twice, an entry shows the one content its delivery ever had.
  lemma FreshEntriesAreCurrent(log: Log, final: Statuses, i: nat) returns (q: nat)
    requires Replay(log, |log|) == Some(final) && FreshIds(log)
    requires i < |History(log, |log|, final)| && History(log, |log|, final)[i].Interviewer?
    ensures var e := History(log, |log|, final)[i];
            && SpokenAt(log, q, e.id) && log[q].content.text == e.text && q < e.sequence - 1
            && forall j: nat :: QueuedAt(log, j, e.id) ==> j == q
  {
    HistoryShowsExactly(log, |log|, final);
    var e := History(log, |log|, final)[i];
    q := ContentWasQueued(log, e.sequence - 1, e.id);
    forall j: nat | QueuedAt(log, j, e.id) ensures j == q {
      assert log[j].id == log[q].id;
    }
  }

  // The other case does arise: an exposed whiteboard action for which stale text is shown.
  lemma StaleTextIsShown() returns (log: Log, final: Statuses)
    ensures Replay(log, |log|) == Some(final) && |log| == 4
    ensures LastQueued(log, 1, 3, 0) && log[1].content.Whiteboard?
    ensures History(log, 4, final) == [Interviewer(4, 0, "a", Ledger.Exposed)]
  {
    var e0, e1 := Queued(0, "g", Text("a")), Queued(0, "g", Whiteboard);
    var e2, e3 := Moved(0, Ledger.Delivering, false), Moved(0, Ledger.Exposed, false);
    log := [e0, e1, e2, e3];
    var queued, started: Statuses := map[0 := Ledger.Queued], map[0 := Ledger.Delivering];
    final := map[0 := Ledger.Exposed];
    assert queued[0 := Ledger.Queued] == queued && queued[0 := Ledger.Delivering] == started;
    assert started[0 := Ledger.Exposed] == final;
    assert Replay(log, 0) == Some(map[]);
    assert Replay(log, 1) == Some(queued);
    assert Replay(log, 2) == Some(queued);
    assert Replay(log, 3) == Some(started);
    assert Replay(log, 4) == Some(final);
    assert ContentsBefore(log, 0) == map[];
    assert ContentsBefore(log, 1) == map[0 := ("g", "a")] == ContentsBefore(log, 2) == ContentsBefore(log, 3);
    assert VisibleAt(log, 3, final) == Some(("g", "a"));
    assert History(log, 0, final) == [] == History(log, 1, final) == History(log, 2, final) == History(log, 3, final);
    assert EntryAt(log, 3, final) == Interviewer(4, 0, "a", Ledger.Exposed);
  }

  lemma {:induction false} FirstOf(log: Log, k: nat, final: Statuses) returns (first: nat)
    requires k < |log| && KeyAt(log, k, final).Some?
    ensures first <= k && FirstVisible(log, first, final) && KeyAt(log, first, final) == KeyAt(log, k, final)
  {
    if j :| 0 <= j < k && KeyAt(log, j, final) == KeyAt(log, k, final) {
      first := FirstOf(log, j, final);
    } else {
      first := k;
    }
  }

  // Every visible key has exactly one entry, the one of its first exposure.
  lemma EachKeyOnce(log: Log, final: Statuses, k: nat) returns (first: nat)
    requires k < |log| && KeyAt(log, k, final).Some?
    ensures first <= k && Shown(log, first, final) && KeyAt(log, first, final) == KeyAt(log, k, final)
    ensures EntryAt(log, first, final) in History(log, |log|, final)
    ensures forall j :: 0 <= j < |log| && KeyAt(log, j, final) == KeyAt(log, k, final) ==>
              first <= j && (FirstVisible(log, j, final) <==> j == first)
  {
    first := FirstOf(log, k, final);
    assert !log[first].TurnCommitted?;
    ShownIsInHistory(log, |log|, final, first);
  }

  predicate CleanGenerations(log: Log) {
    forall k :: 0 <= k < |log| && log[k].Queued? ==> NulFree(log[k].generation)
  }

  lemma KeysArePairs(log: Log, final: Statuses, j: nat, k: nat)
    requires CleanGenerations(log) && j < |log| && k < |log|
    ensures KeyAt(log, j, final) == KeyAt(log, k, final) <==> VisibleAt(log, j, final) == VisibleAt(log, k, final)
  {
    if VisibleAt(log, j, final).Some? && VisibleAt(log, k, final).Some? {
      var p := ContentWasQueued(log, j, log[j].id);
      var q := ContentWasQueued(log, k, log[k].id);
      var a, b := VisibleAt(log, j, final).value, VisibleAt(log, k, final).value;
      KeysIdentifyPairs(a.0, a.1, b.0, b.1);
    }
  }

  // Complete and free of duplicates: with generation ids free of NUL, every visible (generation, text)
  // pair has exactly one entry, the one of its first exposure.
  lemma EachPairOnce(log: Log, final: Statuses, k: nat) returns (first: nat)
    requires CleanGenerations(log) && k < |log| && VisibleAt(log, k, final).Some?
    ensures first <= k && Shown(log, first, final) && VisibleAt(log, first, final) == VisibleAt(log, k, final)
    ensures EntryAt(log, first, final) in History(log, |log|, final)
    ensures forall j :: 0 <= j < |log| && VisibleAt(log, j, final) == VisibleAt(log, k, final) ==>
              first <= j && (FirstVisible(log, j, final) <==> j == first)
  {
    first := EachKeyOnce(log, final, k);
    KeysArePairs(log, final, first, k);
    forall j | 0 <= j < |log| && VisibleAt(log, j, final) == VisibleAt(log, k, final)
      ensures KeyAt(log, j, final) == KeyAt(log, k, final)
    {
      KeysArePairs(log, final, j, k);
    }
  }

  // Which exposures are visible at all: those of text or audio content whose delivery was exposed for
  // good, that is, exposed at some point and not queued again since.
  lemma VisibleExactly(log: Log, final: Statuses, k: nat)
    requires Replay(log, |log|) == Some(final) && k < |log|
    ensures VisibleAt(log, k, final).Some?
       <==> && log[k].Moved? && log[k].status == Ledger.Exposed
            && log[k].id in ContentsBefore(log, k)
            && exists m: nat :: LastsUntil(log, m, |log|, log[k].id)
  {
    if log[k].Moved? { ExposedExactly(log, |log|, log[k].id); }
  }

  // So when no delivery id is queued twice, every exposure of text or audio is visible.
  lemma FreshIdsShowEverything(log: Log, final: Statuses, k: nat)
    requires Replay(log, |log|) == Some(final)
    requires FreshIds(log)
    requires k < |log| && log[k].Moved? && log[k].status == Ledger.Exposed && log[k].id in ContentsBefore(log, k)
    ensures VisibleAt(log, k, final) == Some(ContentsBefore(log, k)[log[k].id])
  {
    var q := ContentWasQueued(log, k, log[k].id);
    assert LastsUntil(log, k, |log|, log[k].id);
    VisibleExactly(log, final, k);
  }

  // Queueing an id again can hide what was shown: a concrete log.
  lemma RequeueingHides() returns (log: Log, final: Statuses)
    ensures Replay(log, |log|) == Some(final) && |log| == 4
    ensures ExposedAt(log, 2, 0) && 0 in ContentsBefore(log, 2) && VisibleAt(log, 2, final) == None
  {
    var e0, e1 := Queued(0, "g", Text("a")), Moved(0, Ledger.Delivering, false);
    var e2, e3 := Moved(0, Ledger.Exposed, false), Queued(0, "g", Text("b"));
    log := [e0, e1, e2, e3];
    final := map[0 := Ledger.Queued];
    assert Replay(log, 0) == Some(map[]);
    assert Replay(log, 1) == Some(map[0 := Ledger.Queued]);
    var started, exposed := map[0 := Ledger.Delivering], map[0 := Ledger.Exposed];
    assert map[0 := Ledger.Queued][0 := Ledger.Delivering] == started && started[0 := Ledger.Exposed] == exposed;
    assert Replay(log, 2) == Some(started);
    assert Replay(log, 3) == Some(exposed);
    assert exposed[0 := Ledger.Queued] == final;
    assert Replay(log, 4) == Some(final);
    assert ContentsBefore(log, 0) == map[];
    assert ContentsBefore(log, 1) == map[0 := ("g", "a")];
    assert ContentsBefore(log, 2) == map[0 := ("g", "a")];
  }

  // ---- getHistory ----

  // The keys of everything visible before n.
  ghost predicate KeysBefore(log: Log, n: nat, final: Statuses, keys: set<string>)
    requires n <= |log|
  {
    forall key :: key in keys <==> exists j :: 0 <= j < n && KeyAt(log, j, final) == Some(key)
  }

  method GetHistory(log: Log, final: Statuses) returns (history: seq<Entry>)
    requires Replay(log, |log|) == Some(final)
    ensures history == History(log, |log|, final)
  {
    var queued: map<DeliveryId, (string, string)> := map[];
    var keys: set<string> := {};
    history := [];
    var k := 0;
    while k < |log|
      invariant 0 <= k <= |log|
      invariant queued == ContentsBefore(log, k)
      invariant KeysBefore(log, k, final, keys)
      invariant history == History(log, k, final)
    {
      var event := log[k];
      if event.Queued? {
        if !event.content.Whiteboard? { queued := queued[event.id := (event.generation, event.content.text)]; }
      } else if event.TurnCommitted? {
        history := history + [Student(k + 1, event.turn, event.text)];
      } else if event.Moved? && event.status == Ledger.Exposed {
        if event.id in queued && event.id in final
           && (final[event.id] == Ledger.Exposed || final[event.id] == Ledger.Completed) {
          var content := queued[event.id];
          var key := Key(content.0, content.1);
          assert KeyAt(log, k, final) == Some(key);
          if key !in keys {
            keys := keys + {key};
            history := history + [Interviewer(k + 1, event.id, content.1, final[event.id])];
          }
        }
      }
      k := k + 1;
    }
  }
}
