// The guards of the vision runtime's greedy decoding loop against degenerate repetition.
module DecodeGuards {
  import opened Results

  type Token = nat

  const BOS: Token := 1
  const EOS: Token := 2
  const MAX_TOKEN_COUNT := 512
  const REPETITION_CUTOFF := 8
  const MAX_PERIOD := 16
  const MIN_COUNT := 6

  // ---- Repetition, independently of any loop ----

  // Starting at i, a block of p tokens stands six times in a row.
  predicate SixfoldAt(s: seq<Token>, i: nat, p: nat) {
    && i + MIN_COUNT * p <= |s|
    && forall j :: i <= j < i + (MIN_COUNT - 1) * p ==> s[j] == s[j + p]
  }

  // Starting at i, eight tokens in a row are equal.
  predicate RunAt(s: seq<Token>, i: nat) {
    && i + REPETITION_CUTOFF <= |s|
    && forall j :: i <= j < i + REPETITION_CUTOFF ==> s[j] == s[i]
  }

  predicate EndsInCycle(s: seq<Token>, p: nat) {
    MIN_COUNT * p <= |s| && SixfoldAt(s, |s| - MIN_COUNT * p, p)
  }

  ghost predicate HasCycle(s: seq<Token>) {
    exists p :: 2 <= p <= MAX_PERIOD && EndsInCycle(s, p)
  }

  // Nowhere a run of eight, the start token included, and nowhere a sixfold block of 2..16 tokens.
  ghost predicate Guarded(t: seq<Token>) {
    && (forall i :: !RunAt([BOS] + t, i))
    && (forall i, p :: 2 <= p <= MAX_PERIOD ==> !SixfoldAt(t, i, p))
  }

  // ---- The cycle detector ----

  predicate IsBlockStart(index: nat, p: nat) {
    index == 0 || index == p || index == 2 * p || index == 3 * p || index == 4 * p || index == 5 * p
  }

  // In a sixfold repetition every block equals the last.
  lemma {:induction false} BlocksAreLast(suffix: seq<Token>, p: nat, index: nat)
    requires p > 0 && |suffix| == MIN_COUNT * p && SixfoldAt(suffix, 0, p) && IsBlockStart(index, p)
    ensures suffix[index..index + p] == suffix[|suffix| - p..]
    decreases |suffix| - index
  {
    if index < 5 * p {
      BlocksAreLast(suffix, p, index + p);
      var block, after := suffix[index..index + p], suffix[index + p..index + p + p];
      forall k | 0 <= k < p ensures block[k] == after[k] {
        assert suffix[index + k] == suffix[index + k + p];
      }
      assert block == after;
    }
  }

  lemma SuffixCycle(s: seq<Token>, p: nat)
    requires MIN_COUNT * p <= |s|
    ensures EndsInCycle(s, p) <==> SixfoldAt(s[|s| - MIN_COUNT * p..], 0, p)
  {
    var start := |s| - MIN_COUNT * p;
    assert forall j :: 0 <= j < MIN_COUNT * p ==> s[start..][j] == s[start + j];
    assert forall j :: start <= j < |s| ==> s[j] == s[start..][j - start];
  }

  // _has_repeated_token_cycle.
  method HasRepeatedTokenCycle(ids: seq<Token>) returns (r: bool)
    ensures r <==> HasCycle(ids)
  {
    var longest := if |ids| / MIN_COUNT < MAX_PERIOD then |ids| / MIN_COUNT else MAX_PERIOD;
    var period := 2;
    while period <= longest
      invariant 2 <= period
      invariant forall p :: 2 <= p < period && p <= longest ==> !EndsInCycle(ids, p)
    {
      SuffixCycle(ids, period);
      var repeats := BlocksEqualLast(ids[|ids| - period * MIN_COUNT..], period);
      if repeats { return true; }
      period := period + 1;
    }
    assert forall p :: 2 <= p <= MAX_PERIOD && MIN_COUNT * p <= |ids| ==> p <= longest;
    r := false;
  }

  // Two equal neighbouring blocks extend the repetition.
  lemma BlockExtends(suffix: seq<Token>, p: nat, index: nat, pattern: seq<Token>)
    requires p > 0 && |pattern| == p && index + p <= |suffix|
    requires suffix[index..index + p] == pattern
    requires index > 0 ==> index >= p && suffix[index - p..index] == pattern
    requires forall j :: 0 <= j < index - p ==> suffix[j] == suffix[j + p]
    ensures forall j :: 0 <= j < index ==> suffix[j] == suffix[j + p]
  {
    forall j | 0 <= j < index ensures suffix[j] == suffix[j + p] {
      if j >= index - p {
        var k := j - (index - p);
        assert suffix[j] == suffix[index - p..index][k];
        assert suffix[j + p] == suffix[index..index + p][k];
      }
    }
  }

  // One period of its loop: the blocks of the suffix against its last one.
  method BlocksEqualLast(suffix: seq<Token>, period: nat) returns (all: bool)
    requires period > 0 && |suffix| == MIN_COUNT * period
    ensures all <==> SixfoldAt(suffix, 0, period)
  {
    var pattern := suffix[|suffix| - period..];
    var index := 0;
    while index < |suffix|
      invariant index == |suffix| || IsBlockStart(index, period)
      invariant index > 0 ==> index >= period && suffix[index - period..index] == pattern
      invariant forall j :: 0 <= j < index - period ==> suffix[j] == suffix[j + period]
    {
      if suffix[index..index + period] != pattern {
        if SixfoldAt(suffix, 0, period) { BlocksAreLast(suffix, period, index); }
        return false;
      }
      BlockExtends(suffix, period, index, pattern);
      index := index + period;
    }
    all := true;
  }

  // ---- The decoding loop ----

  // `next` is the decoder's greedy choice and `expired` whether the deadline has passed, by iteration.
  type Decoder = seq<Token> -> Token
  type Deadline = nat -> bool

  // How many equal tokens end the sequence.
  function TrailingRun(s: seq<Token>): nat {
    if |s| <= 1 then |s|
    else if s[|s| - 1] == s[|s| - 2] then TrailingRun(s[..|s| - 1]) + 1
    else 1
  }

  lemma {:induction false} TrailingRunIsLongest(s: seq<Token>, n: nat)
    requires 1 <= n <= |s|
    ensures n <= TrailingRun(s) <==> forall j :: |s| - n <= j < |s| ==> s[j] == s[|s| - n]
    decreases s
  {
    var last := |s| - 1;
    if n > 1 {
      TrailingRunIsLongest(s[..last], n - 1);
      var start := |s| - n;
      assert s[..last][last - 1] == s[last - 1];
      assert forall j :: start <= j < last ==> s[..last][j] == s[j];
      if s[last] == s[last - 1] && n <= TrailingRun(s) {
        assert s[last - 1] == s[..last][start];
      }
    } else if |s| > 1 {
      assert TrailingRun(s) >= 1;
    }
  }

  // What every prefix has to pass.
  ghost predicate Passes(t: seq<Token>) {
    TrailingRun([BOS] + t) < REPETITION_CUTOFF && !HasCycle(t)
  }

  lemma {:induction false} TrailingIsAtMostLength(s: seq<Token>)
    ensures TrailingRun(s) <= |s|
  {
    if |s| > 1 { TrailingIsAtMostLength(s[..|s| - 1]); }
  }

  lemma TrailingExtends(s: seq<Token>, token: Token)
    requires s != []
    ensures TrailingRun(s + [token]) == if token == s[|s| - 1] then TrailingRun(s) + 1 else 1
  {
    assert (s + [token])[..|s|] == s;
  }

  lemma RefusedIsUnguarded(t: seq<Token>, n: nat)
    requires n <= |t| && !Passes(t[..n])
    ensures !Guarded(t)
  {
    if HasCycle(t[..n]) {
      var p :| 2 <= p <= MAX_PERIOD && EndsInCycle(t[..n], p);
      assert SixfoldAt(t, n - MIN_COUNT * p, p);
    } else {
      var s := [BOS] + t[..n];
      TrailingIsAtMostLength(s);
      TrailingRunIsLongest(s, REPETITION_CUTOFF);
      assert forall j :: 0 <= j < |s| ==> s[j] == ([BOS] + t)[j];
      assert RunAt([BOS] + t, |s| - REPETITION_CUTOFF);
    }
  }

  lemma RunIsRefused(t: seq<Token>, i: nat) returns (n: nat)
    requires RunAt([BOS] + t, i)
    ensures n <= |t| && !Passes(t[..n])
  {
    n := i + REPETITION_CUTOFF - 1;
    var s := [BOS] + t[..n];
    assert forall j :: 0 <= j < |s| ==> s[j] == ([BOS] + t)[j];
    TrailingRunIsLongest(s, REPETITION_CUTOFF);
  }

  lemma SixfoldIsRefused(t: seq<Token>, i: nat, p: nat) returns (n: nat)
    requires 2 <= p <= MAX_PERIOD && SixfoldAt(t, i, p)
    ensures n <= |t| && !Passes(t[..n])
  {
    n := i + MIN_COUNT * p;
    assert EndsInCycle(t[..n], p);
  }

  // Checking the end of every prefix guards everywhere, and refuses nothing else.
  lemma PassesIsGuarded(t: seq<Token>)
    ensures (forall n :: 0 <= n <= |t| ==> Passes(t[..n])) <==> Guarded(t)
  {
    if n :| 0 <= n <= |t| && !Passes(t[..n]) {
      RefusedIsUnguarded(t, n);
    } else if !Guarded(t) {
      UnguardedIsRefused(t);
    }
  }

  lemma UnguardedIsRefused(t: seq<Token>)
    requires !Guarded(t)
    ensures exists n :: 0 <= n <= |t| && !Passes(t[..n])
  {
    if i :| RunAt([BOS] + t, i) {
      var n := RunIsRefused(t, i);
    } else {
      var i, p :| 2 <= p <= MAX_PERIOD && SixfoldAt(t, i, p);
      var n := SixfoldIsRefused(t, i, p);
    }
  }

  predicate SevenStartTokens(t: seq<Token>) {
    |t| >= REPETITION_CUTOFF - 1 && forall j :: 0 <= j < REPETITION_CUTOFF - 1 ==> t[j] == BOS
  }

  // The start token counts towards the run of eight: what is refused is a run of eight or a sixfold block
  // among the tokens themselves, and besides these exactly the sequences that begin with seven start tokens.
  lemma RefusedExactly(t: seq<Token>)
    ensures Guarded(t) <==>
      && (forall i :: !RunAt(t, i))
      && (forall i, p :: 2 <= p <= MAX_PERIOD ==> !SixfoldAt(t, i, p))
      && !SevenStartTokens(t)
  {
    forall i: nat ensures RunAt([BOS] + t, i + 1) <==> RunAt(t, i) { RunBehindStart(t, i); }
    assert RunAt([BOS] + t, 0) <==> SevenStartTokens(t) by {
      if SevenStartTokens(t) { assert forall j :: 0 < j < REPETITION_CUTOFF ==> ([BOS] + t)[j] == t[j - 1]; }
      if RunAt([BOS] + t, 0) { assert forall j :: 0 <= j < REPETITION_CUTOFF - 1 ==> t[j] == ([BOS] + t)[j + 1]; }
    }
    if i: nat :| RunAt([BOS] + t, i) {
      if i > 0 { assert RunAt(t, i - 1); }
    }
  }

  lemma RunBehindStart(t: seq<Token>, i: nat)
    ensures RunAt([BOS] + t, i + 1) <==> RunAt(t, i)
  {
    var s := [BOS] + t;
    assert forall j :: 0 <= j < |t| ==> s[j + 1] == t[j];
    if RunAt(s, i + 1) {
      forall j | i <= j < i + REPETITION_CUTOFF ensures t[j] == t[i] { assert s[j + 1] == s[i + 1]; }
    }
  }

  // So seven start tokens are refused, although neither a run of eight nor a sixfold block stands among them.
  lemma SevenAreRefused()
    ensures var t := [BOS, BOS, BOS, BOS, BOS, BOS, BOS];
      && !Guarded(t) && (forall i :: !RunAt(t, i))
      && (forall i, p :: 2 <= p <= MAX_PERIOD ==> !SixfoldAt(t, i, p))
  {
    var t := [BOS, BOS, BOS, BOS, BOS, BOS, BOS];
    RefusedExactly(t);
    assert SevenStartTokens(t);
  }

  predicate Chosen(t: seq<Token>, i: nat, next: Decoder, expired: Deadline) {
    i < |t| && t[i] == next([BOS] + t[..i]) && t[i] != EOS && !expired(i)
  }

  predicate OwnChoices(t: seq<Token>, next: Decoder, expired: Deadline) {
    forall i :: 0 <= i < |t| ==> Chosen(t, i, next, expired)
  }

  // The tokens are the decoder's own greedy choices, all made in time, and then it ended them.
  predicate Greedy(t: seq<Token>, next: Decoder, expired: Deadline) {
    OwnChoices(t, next, expired) && next([BOS] + t) == EOS && !expired(|t|)
  }

  // As far as the loop has come.
  ghost predicate Follows(t: seq<Token>, next: Decoder, expired: Deadline) {
    OwnChoices(t, next, expired) && forall n :: 0 <= n <= |t| ==> Passes(t[..n])
  }

  lemma ChosenInPrefix(t: seq<Token>, more: seq<Token>, i: nat, next: Decoder, expired: Deadline)
    requires t <= more && i < |t|
    ensures Chosen(t, i, next, expired) <==> Chosen(more, i, next, expired)
  {
    assert more[..i] == t[..i];
  }

  lemma FollowsOneMore(t: seq<Token>, token: Token, next: Decoder, expired: Deadline)
    requires Follows(t, next, expired) && token == next([BOS] + t) != EOS && !expired(|t|) && Passes(t + [token])
    ensures Follows(t + [token], next, expired)
  {
    var more := t + [token];
    assert more[..|t|] == t && more[..|more|] == more;
    forall i | 0 <= i < |more| ensures Chosen(more, i, next, expired) {
      if i < |t| { ChosenInPrefix(t, more, i, next, expired); }
    }
    forall n | 0 <= n <= |more| ensures Passes(more[..n]) {
      if n <= |t| { assert more[..n] == t[..n]; }
    }
  }

  // The decoder's choices are determined, so a followed sequence is a prefix of any greedy one.
  lemma {:induction false} GreedyIsUnique(t: seq<Token>, u: seq<Token>, k: nat, next: Decoder, expired: Deadline)
    requires OwnChoices(t, next, expired) && Greedy(u, next, expired) && k <= |t|
    ensures k <= |u| && t[..k] == u[..k] && !expired(k)
  {
    if k < |u| { assert Chosen(u, k, next, expired); }
    if k > 0 {
      var n := k - 1;
      GreedyIsUnique(t, u, n, next, expired);
      assert Chosen(t, n, next, expired);
      assert u[..|u|] == u;
      if n < |u| {
        assert Chosen(u, n, next, expired);
        assert t[..k] == t[..n] + [t[n]] && u[..k] == u[..n] + [u[n]];
      }
    }
  }

  // The decoder ends the sequence by itself, within the limits, and it repeats nowhere.
  ghost predicate Acceptable(t: seq<Token>, next: Decoder, expired: Deadline) {
    Greedy(t, next, expired) && |t| < MAX_TOKEN_COUNT && Guarded(t)
  }

  function Latest(s: seq<Token>, n: nat): seq<Token> {
    if |s| <= n then s else s[|s| - n..]
  }

  // The loop of _recognize: None is an empty, unclean result.
  method DecodeTokens(next: Decoder, expired: Deadline) returns (r: Option<seq<Token>>)
    ensures r.Some? ==> Acceptable(r.value, next, expired)
    ensures r.None? ==> forall u :: !Acceptable(u, next, expired)
  {
    ghost var t: seq<Token> := [];
    var tokens: seq<Token> := [BOS];
    var repeated := 1;
    var ended := false;
    var iteration := 0;
    NothingPasses();
    while iteration < MAX_TOKEN_COUNT && !ended
      invariant 0 <= iteration <= MAX_TOKEN_COUNT
      invariant tokens == [BOS] + t
      invariant !ended ==> |t| == iteration
      invariant ended ==> |t| < iteration && Greedy(t, next, expired)
      invariant repeated == TrailingRun(tokens)
      invariant Follows(t, next, expired)
      decreases MAX_TOKEN_COUNT - iteration, !ended
    {
      if expired(iteration) {
        StoppedBy(t, next, expired);
        return None;
      }
      var window := Latest(tokens, MAX_TOKEN_COUNT);
      var token := next(window);
      if token == EOS {
        ended := true;
        GreedyWhenEnded(t, next, expired);
      } else {
        TrailingExtends(tokens, token);
        repeated := if token == tokens[|tokens| - 1] then repeated + 1 else 1;
        ghost var more := t + [token];
        BehindStart(t, token);
        tokens := tokens + [token];
        if repeated >= REPETITION_CUTOFF {
          RefusedAt(t, token, next, expired);
          return None;
        }
        var cycle := HasRepeatedTokenCycle(tokens[1..]);
        if cycle {
          RefusedAt(t, token, next, expired);
          return None;
        }
        FollowsOneMore(t, token, next, expired);
        t := more;
      }
      iteration := iteration + 1;
    }
    if !ended {
      TooLong(t, next, expired);
      return None;
    }
    PassesIsGuarded(t);
    BehindStart(t, EOS);
    r := Some(tokens[1..]);
  }

  lemma BehindStart(t: seq<Token>, token: Token)
    ensures [BOS] + t + [token] == [BOS] + (t + [token])
    ensures ([BOS] + t)[1..] == t && ([BOS] + (t + [token]))[1..] == t + [token]
  {
  }

  lemma NothingPasses()
    ensures Passes([])
  {
    assert [BOS] + [] == [BOS];
  }

  lemma GreedyWhenEnded(t: seq<Token>, next: Decoder, expired: Deadline)
    requires Follows(t, next, expired) && next([BOS] + t) == EOS && !expired(|t|)
    ensures Greedy(t, next, expired)
  {
  }

  lemma StoppedBy(t: seq<Token>, next: Decoder, expired: Deadline)
    requires OwnChoices(t, next, expired) && expired(|t|)
    ensures forall u :: !Acceptable(u, next, expired)
  {
    forall u ensures !Acceptable(u, next, expired) {
      if Greedy(u, next, expired) { GreedyIsUnique(t, u, |t|, next, expired); }
    }
  }

  lemma RefusedAt(t: seq<Token>, token: Token, next: Decoder, expired: Deadline)
    requires OwnChoices(t, next, expired) && token == next([BOS] + t) != EOS && !Passes(t + [token])
    ensures forall u :: !Acceptable(u, next, expired)
  {
    forall u ensures !Acceptable(u, next, expired) {
      if Greedy(u, next, expired) {
        GreedyGoesOn(t, token, u, next, expired);
        RefusedIsUnguarded(u, |t| + 1);
      }
    }
  }

  lemma GreedyGoesOn(t: seq<Token>, token: Token, u: seq<Token>, next: Decoder, expired: Deadline)
    requires OwnChoices(t, next, expired) && token == next([BOS] + t) != EOS && Greedy(u, next, expired)
    ensures |t| < |u| && u[..|t| + 1] == t + [token]
  {
    var n := |t|;
    GreedyIsUnique(t, u, n, next, expired);
    assert t[..n] == t && u[..|u|] == u;
    if n < |u| {
      assert Chosen(u, n, next, expired);
      assert u[..n + 1] == u[..n] + [u[n]];
    }
  }

  lemma TooLong(t: seq<Token>, next: Decoder, expired: Deadline)
    requires OwnChoices(t, next, expired) && |t| >= MAX_TOKEN_COUNT
    ensures forall u :: !Acceptable(u, next, expired)
  {
    forall u ensures !Acceptable(u, next, expired) {
      if Greedy(u, next, expired) { GreedyIsUnique(t, u, |t|, next, expired); }
    }
  }
}
