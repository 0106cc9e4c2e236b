/**
  The in-process credential pool of the back-office client: an array of
  tokens and a cursor walked round-robin, skipping tokens in cooldown. Each
  method runs as one atomic step (the source holds a mutex for its whole body).
 */
module LocalPool {
  import opened Wrappers
  import opened Errors
  import opened AuthTokens

  /** The pool's fields as a value: the token array and `nextIndex`. */
  datatype PoolState = PoolState(tokens: seq<AuthToken>, nextIndex: int)

  /** The cursor is an index into the array, or 0 for an empty pool. */
  predicate ValidState(s: PoolState) {
    0 <= s.nextIndex && (s.nextIndex < |s.tokens| || s.nextIndex == 0)
  }

  /** The index examined at step `i` of a scan that starts at `start`. */
  function ProbeIndex(n: nat, start: nat, i: nat): (k: nat)
    requires n > 0
    ensures k < n
  {
    (start + i) % n
  }

  /** A value in `[0, 2n)` reduced modulo `n`. */
  lemma ModOnce(x: int, n: int)
    requires n > 0 && 0 <= x < 2 * n
    ensures x % n == if x < n then x else x - n
  {
    if x < n {
      assert x == 0 * n + x;
    } else {
      assert x == 1 * n + (x - n);
    }
  }

  /** The scan step at which a scan starting at `start` examines index `j`. */
  function StepOf(n: nat, start: nat, j: nat): (i: nat)
    requires start < n && j < n
    ensures i < n && ProbeIndex(n, start, i) == j
  {
    ModOnce(start + (j - start), n);
    ModOnce(start + (j + n - start), n);
    if start <= j then j - start else j + n - start
  }

  /** Over `n` steps a scan examines every index, and each only once. */
  lemma ScanIsPermutation(n: nat, start: nat, i1: nat, i2: nat)
    requires start < n && i1 < n && i2 < n
    ensures ProbeIndex(n, start, i1) == ProbeIndex(n, start, i2) ==> i1 == i2
  {
    ModOnce(start + i1, n);
    ModOnce(start + i2, n);
  }

  /**
    The first scan step at or after `i` whose token is not rate-limited at
    `now`, or `|tokens|` when every remaining step finds one in cooldown.
   */
  function FirstFree(tokens: seq<AuthToken>, start: nat, now: int, i: nat): (k: nat)
    requires i <= |tokens|
    ensures i <= k <= |tokens|
    ensures k < |tokens| ==> !tokens[ProbeIndex(|tokens|, start, k)].IsRateLimited(now)
    ensures forall j :: i <= j < k ==> tokens[ProbeIndex(|tokens|, start, j)].IsRateLimited(now)
    decreases |tokens| - i
  {
    if i == |tokens| then i
    else if !tokens[ProbeIndex(|tokens|, start, i)].IsRateLimited(now) then i
    else FirstFree(tokens, start, now, i + 1)
  }

  /**
    `GetAuthToken` at `now`: the index handed out (if any) and the new state.
    The returned token is not rate-limited; only its `lastUsed` changes;
    strings, stamps and the array length are untouched; the cursor moves to
    just past the returned index; a nil result changes nothing.
   */
  function Acquire(s: PoolState, now: int): (r: (Option<nat>, PoolState))
    requires ValidState(s)
    ensures ValidState(r.1)
    ensures r.0.None? ==> r.1 == s
    ensures r.0.Some? ==> r.0.value < |s.tokens| && !s.tokens[r.0.value].IsRateLimited(now)
    ensures r.0.Some? ==> r.1.nextIndex == (r.0.value + 1) % |s.tokens|
    ensures |r.1.tokens| == |s.tokens|
    ensures r.0.Some? ==> r.1.tokens[r.0.value].lastUsed == Some(now)
    ensures forall j :: 0 <= j < |s.tokens| ==>
      r.1.tokens[j].token == s.tokens[j].token && r.1.tokens[j].rateLimitedAt == s.tokens[j].rateLimitedAt
    ensures forall j :: 0 <= j < |s.tokens| && r.0 != Some(j) ==> r.1.tokens[j] == s.tokens[j]
  {
    var n := |s.tokens|;
    var k := FirstFree(s.tokens, s.nextIndex, now, 0);
    if k == n then (None, s)
    else
      var idx := ProbeIndex(n, s.nextIndex, k);
      ModOnce(idx + 1, n);
      (Some(idx), PoolState(s.tokens[idx := s.tokens[idx].WithLastUsed(now)], (idx + 1) % n))
  }

  /** Nil exactly when the pool is empty or every token is rate-limited. */
  lemma AcquireNoneIff(s: PoolState, now: int)
    requires ValidState(s)
    ensures Acquire(s, now).0.None? <==> forall j :: 0 <= j < |s.tokens| ==> s.tokens[j].IsRateLimited(now)
  {
    var n := |s.tokens|;
    if Acquire(s, now).0.None? {
      forall j | 0 <= j < n ensures s.tokens[j].IsRateLimited(now) {
        var i := StepOf(n, s.nextIndex, j);
        assert s.tokens[ProbeIndex(n, s.nextIndex, i)].IsRateLimited(now);
      }
    }
  }

  /**
    The scan runs in cyclic order from the cursor: every index between the
    cursor and the returned one (cyclically) was rate-limited.
   */
  lemma AcquireSkipsOnlyRateLimited(s: PoolState, now: int)
    requires ValidState(s) && Acquire(s, now).0.Some?
    ensures var idx := Acquire(s, now).0.value;
      forall i :: 0 <= i < StepOf(|s.tokens|, s.nextIndex, idx) ==>
        s.tokens[ProbeIndex(|s.tokens|, s.nextIndex, i)].IsRateLimited(now)
  {
    var n := |s.tokens|;
    var k := FirstFree(s.tokens, s.nextIndex, now, 0);
    var idx := Acquire(s, now).0.value;
    assert idx == ProbeIndex(n, s.nextIndex, k);
    ScanIsPermutation(n, s.nextIndex, k, StepOf(n, s.nextIndex, idx));
  }

  /** The indices handed out by consecutive `GetAuthToken` calls at the given times. */
  function Run(s: PoolState, nows: seq<int>): (r: seq<Option<nat>>)
    requires ValidState(s)
    ensures |r| == |nows|
    decreases |nows|
  {
    if nows == [] then []
    else
      var (got, next) := Acquire(s, nows[0]);
      [got] + Run(next, nows[1..])
  }

  /** No token is in cooldown at any of the given times. */
  predicate NoneRateLimited(tokens: seq<AuthToken>, nows: seq<int>) {
    forall t, j :: 0 <= t < |nows| && 0 <= j < |tokens| ==> !tokens[j].IsRateLimited(nows[t])
  }

  /**
    Fairness: with no token in cooldown, call `t` of up to `n` consecutive
    calls returns index `(nextIndex + t) % n`, whatever the starting cursor.
   */
  lemma {:induction false} RoundRobinOrder(s: PoolState, nows: seq<int>)
    requires ValidState(s) && 0 < |s.tokens| && |nows| <= |s.tokens|
    requires NoneRateLimited(s.tokens, nows)
    ensures forall t :: 0 <= t < |nows| ==> Run(s, nows)[t] == Some(ProbeIndex(|s.tokens|, s.nextIndex, t))
    decreases |nows|
  {
    if nows != [] {
      var n := |s.tokens|;
      var (got, next) := Acquire(s, nows[0]);
      assert FirstFree(s.tokens, s.nextIndex, nows[0], 0) == 0;
      ModOnce(s.nextIndex, n);
      ModOnce(s.nextIndex + 1, n);
      assert got == Some(s.nextIndex);
      assert NoneRateLimited(next.tokens, nows[1..]) by {
        forall t, j | 0 <= t < |nows[1..]| && 0 <= j < |next.tokens|
          ensures !next.tokens[j].IsRateLimited(nows[1..][t])
        {
          assert next.tokens[j].rateLimitedAt == s.tokens[j].rateLimitedAt;
          assert !s.tokens[j].IsRateLimited(nows[t + 1]);
        }
      }
      RoundRobinOrder(next, nows[1..]);
      forall t | 0 <= t < |nows| ensures Run(s, nows)[t] == Some(ProbeIndex(n, s.nextIndex, t)) {
        if t > 0 {
          assert Run(s, nows)[t] == Run(next, nows[1..])[t - 1];
          ModOnce(next.nextIndex + (t - 1), n);
          ModOnce(s.nextIndex + t, n);
        } else {
          ModOnce(s.nextIndex + 0, n);
        }
      }
    }
  }

  /**
    Fairness over one full rotation: `n` consecutive calls with no token in
    cooldown return every index exactly once.
   */
  lemma RoundRobinFair(s: PoolState, nows: seq<int>)
    requires ValidState(s) && |s.tokens| > 0 && |nows| == |s.tokens|
    requires NoneRateLimited(s.tokens, nows)
    ensures forall j :: 0 <= j < |s.tokens| ==> Some(j) in Run(s, nows)
    ensures forall t1, t2 :: 0 <= t1 < t2 < |nows| ==> Run(s, nows)[t1] != Run(s, nows)[t2]
  {
    var n := |s.tokens|;
    RoundRobinOrder(s, nows);
    forall j | 0 <= j < n ensures Some(j) in Run(s, nows) {
      var t := StepOf(n, s.nextIndex, j);
      assert Run(s, nows)[t] == Some(j);
    }
    forall t1, t2 | 0 <= t1 < t2 < n ensures Run(s, nows)[t1] != Run(s, nows)[t2] {
      ScanIsPermutation(n, s.nextIndex, t1, t2);
    }
  }

  /**
    A fresh pool (cursor 0) hands out the lowest index not in cooldown, so
    index 0 when that token is usable.
   */
  lemma FreshPoolFirstCall(tokens: seq<AuthToken>, now: int)
    ensures ValidState(PoolState(tokens, 0))
    ensures var got := Acquire(PoolState(tokens, 0), now).0;
      got.Some? ==> forall j :: 0 <= j < got.value ==> tokens[j].IsRateLimited(now)
    ensures |tokens| > 0 && !tokens[0].IsRateLimited(now) ==> Acquire(PoolState(tokens, 0), now).0 == Some(0)
  {
    var s := PoolState(tokens, 0);
    var n := |tokens|;
    if Acquire(s, now).0.Some? {
      var k := FirstFree(tokens, 0, now, 0);
      ModOnce(k, n);
      assert Acquire(s, now).0.value == k;
      forall j | 0 <= j < k ensures tokens[j].IsRateLimited(now) {
        ModOnce(j, n);
        assert ProbeIndex(n, 0, j) == j;
      }
    }
    if n > 0 {
      ModOnce(0, n);
    }
  }

  /** The first index at or after `i` whose token has string `token`, or `|tokens|`. */
  function FirstMatch(tokens: seq<AuthToken>, token: string, i: nat): (k: nat)
    requires i <= |tokens|
    ensures i <= k <= |tokens|
    ensures k < |tokens| ==> tokens[k].String() == token
    ensures forall j :: i <= j < k ==> tokens[j].String() != token
    decreases |tokens| - i
  {
    if i == |tokens| then i
    else if tokens[i].String() == token then i
    else FirstMatch(tokens, token, i + 1)
  }

  /**
    `SetRateLimited(token)` at `now`: stamps the first token whose string is
    `token` and nothing else; an unknown token changes nothing.
   */
  function MarkRateLimited(s: PoolState, token: string, now: int): (r: PoolState)
    ensures r.nextIndex == s.nextIndex && |r.tokens| == |s.tokens|
    ensures ValidState(s) ==> ValidState(r)
    ensures forall j :: 0 <= j < |s.tokens| ==>
      r.tokens[j] == if j == FirstMatch(s.tokens, token, 0) then s.tokens[j].WithRateLimited(now) else s.tokens[j]
    ensures (forall j :: 0 <= j < |s.tokens| ==> s.tokens[j].String() != token) ==> r == s
  {
    var k := FirstMatch(s.tokens, token, 0);
    if k < |s.tokens| then s.(tokens := s.tokens[k := s.tokens[k].WithRateLimited(now)]) else s
  }

  /** A token stamped at `at` stays stamped, and is never handed out, through a run before `at + 4 minutes`. */
  lemma {:induction false} StampedTokenSkipped(s: PoolState, k: nat, at: int, nows: seq<int>)
    requires ValidState(s) && k < |s.tokens| && s.tokens[k].rateLimitedAt == Some(at)
    requires forall i :: 0 <= i < |nows| ==> nows[i] < at + RateLimitDuration
    ensures Some(k) !in Run(s, nows)
    decreases |nows|
  {
    if nows != [] {
      var (got, next) := Acquire(s, nows[0]);
      StampedTokenSkipped(next, k, at, nows[1..]);
      assert Run(s, nows) == [got] + Run(next, nows[1..]);
    }
  }

  /**
    Rate-limit exclusion: once a token is stamped at `at`, no call of a run of
    consecutive `GetAuthToken` calls before `at + 4 minutes` hands it out.
   */
  lemma MarkedTokenExcluded(s: PoolState, token: string, at: int, nows: seq<int>)
    requires ValidState(s) && FirstMatch(s.tokens, token, 0) < |s.tokens|
    requires forall i :: 0 <= i < |nows| ==> nows[i] < at + RateLimitDuration
    ensures Some(FirstMatch(s.tokens, token, 0)) !in Run(MarkRateLimited(s, token, at), nows)
  {
    StampedTokenSkipped(MarkRateLimited(s, token, at), FirstMatch(s.tokens, token, 0), at, nows);
  }

  /**
    The example run of the pool [A, B, C] starting at `t0`: acquire; mark A;
    acquire three times; then, once the cooldown has passed, acquire twice.
   */
  function ExampleTrace(t0: int): seq<Option<nat>> {
    var s0 := PoolState([NewAuthToken("A"), NewAuthToken("B"), NewAuthToken("C")], 0);
    var (g1, s1) := Acquire(s0, t0);
    var s2 := MarkRateLimited(s1, "A", t0);
    var (g2, s3) := Acquire(s2, t0);
    var (g3, s4) := Acquire(s3, t0);
    var (g4, s5) := Acquire(s4, t0);
    var (g5, s6) := Acquire(s5, t0 + RateLimitDuration);
    var (g6, s7) := Acquire(s6, t0 + RateLimitDuration);
    [g1, g2, g3, g4, g5, g6]
  }

  /**
    A, then B and C, then B again because A is in cooldown; after the cooldown
    the rotation goes on to C and comes back to A.
   */
  lemma ExampleRotation(t0: int)
    ensures ExampleTrace(t0) == [Some(0), Some(1), Some(2), Some(1), Some(2), Some(0)]
  {
    var s0 := PoolState([NewAuthToken("A"), NewAuthToken("B"), NewAuthToken("C")], 0);
    ModOnce(1, 3);
    ModOnce(2, 3);
    ModOnce(3, 3);
    ModOnce(4, 3);
    var (g1, s1) := Acquire(s0, t0);
    assert g1 == Some(0);
    var s2 := MarkRateLimited(s1, "A", t0);
    var (g2, s3) := Acquire(s2, t0);
    assert g2 == Some(1);
    var (g3, s4) := Acquire(s3, t0);
    assert g3 == Some(2);
    assert s4.nextIndex == 0;
    assert s4.tokens[0].IsRateLimited(t0) && !s4.tokens[1].IsRateLimited(t0);
    assert FirstFree(s4.tokens, 0, t0, 0) == 1;
    var (g4, s5) := Acquire(s4, t0);
    assert g4 == Some(1);
    var later := t0 + RateLimitDuration;
    var (g5, s6) := Acquire(s5, later);
    assert g5 == Some(2);
    var (g6, s7) := Acquire(s6, later);
    assert g6 == Some(0);
  }

  /** What `GetAuthToken` returns: the index and the token stored there, stamped. */
  datatype Handle = Handle(index: nat, token: AuthToken)

  class Pool {
    const authTokens: array<AuthToken>
    var nextIndex: int

    ghost function State(): PoolState
      reads this, authTokens
    {
      PoolState(authTokens[..], nextIndex)
    }

    ghost predicate Valid()
      reads this, authTokens
    {
      ValidState(State())
    }

    /** `New(authTokens...)`: the cursor starts at 0. */
    constructor (tokens: seq<AuthToken>)
      ensures Valid() && State() == PoolState(tokens, 0)
      ensures fresh(authTokens)
    {
      authTokens := new AuthToken[|tokens|](i requires 0 <= i < |tokens| => tokens[i]);
      nextIndex := 0;
      new;
      assert authTokens[..] == tokens;
    }

    /** `GetAuthToken`: the cyclic scan from the cursor. */
    method GetAuthToken(now: int) returns (r: Option<Handle>)
      requires Valid()
      modifies this, authTokens
      ensures Valid()
      ensures (if r.Some? then Some(r.value.index) else None, State()) == Acquire(old(State()), now)
      ensures r.Some? ==> r.value.token == State().tokens[r.value.index]
    {
      var n := authTokens.Length;
      var i := 0;
      while i < n
        invariant 0 <= i <= n
        invariant FirstFree(authTokens[..], nextIndex, now, i) == FirstFree(authTokens[..], nextIndex, now, 0)
      {
        var idx := (nextIndex + i) % n;
        if !authTokens[idx].IsRateLimited(now) {
          authTokens[idx] := authTokens[idx].WithLastUsed(now);
          nextIndex := (idx + 1) % n;
          return Some(Handle(idx, authTokens[idx]));
        }
        i := i + 1;
      }
      return None;
    }

    /** `SetRateLimited`: stamps the first token with this string; always succeeds. */
    method SetRateLimited(token: string, now: int) returns (err: Option<Error>)
      requires Valid()
      modifies authTokens
      ensures Valid()
      ensures State() == MarkRateLimited(old(State()), token, now)
      ensures err == None
    {
      var i := 0;
      while i < authTokens.Length
        invariant 0 <= i <= authTokens.Length
        invariant authTokens[..] == old(authTokens[..])
        invariant FirstMatch(authTokens[..], token, i) == FirstMatch(authTokens[..], token, 0)
      {
        if authTokens[i].String() == token {
          authTokens[i] := authTokens[i].WithRateLimited(now);
          break;
        }
        i := i + 1;
      }
      return None;
    }
  }
}
