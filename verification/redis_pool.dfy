/**
  The distributed credential pool: the token list and the cooldown markers
  live in a shared key-value store. A draw rotates the list one step per probe
  (last element to the front) and hands out the first probed token without a
  live marker; a rejection writes a marker that the store expires after the
  cooldown.
 */
module SharedPool {
  import opened Wrappers
  import opened Errors
  import opened AuthTokens

  /**
    The parts of the store the pool uses: lists by key, the expiry instant of
    every key written with a time-to-live, and whether commands that can fail
    reach the server.
   */
  datatype StoreState = StoreState(lists: map<string, seq<string>>, expiry: map<string, int>, reachable: bool)

  /** The error of a command that does not reach the server. */
  const ConnectionRefused: Error := Store("connection refused")

  /** `LLEN key`: a missing key is an empty list. */
  function ListLen(st: StoreState, key: string): (n: nat)
    ensures key in st.lists ==> n == |st.lists[key]|
    ensures key !in st.lists ==> n == 0
  {
    if key in st.lists then |st.lists[key]| else 0
  }

  /** `LMOVE key key RIGHT LEFT`: move the last element to the front and return it. */
  function MoveRightToLeft(st: StoreState, key: string): (r: (Result<string, Error>, StoreState))
    ensures r.0.Failure? ==> r.1 == st
    ensures r.0.Success? <==> st.reachable && ListLen(st, key) > 0
    ensures r.0.Success? ==>
      var list := st.lists[key];
      r.0.value == list[|list| - 1] && r.1 == st.(lists := st.lists[key := [list[|list| - 1]] + list[..|list| - 1]])
  {
    if !st.reachable then (Failure(ConnectionRefused), st)
    else if ListLen(st, key) == 0 then (Failure(Store("redis: nil")), st)
    else
      var list := st.lists[key];
      (Success(list[|list| - 1]), st.(lists := st.lists[key := [list[|list| - 1]] + list[..|list| - 1]]))
  }

  /** `EXISTS key` at `now`: the key was written and its time-to-live has not run out. */
  predicate Live(expiry: map<string, int>, key: string, now: int) {
    key in expiry && now < expiry[key]
  }

  /** The marker key of a token: `<key>:ratelimit:<token>`. */
  function MarkerKey(rateLimitKey: string, token: string): string {
    rateLimitKey + ":" + token
  }

  /** Distinct tokens have distinct markers, so marking one never hides another. */
  lemma MarkerKeyInjective(rateLimitKey: string, t1: string, t2: string)
    ensures MarkerKey(rateLimitKey, t1) == MarkerKey(rateLimitKey, t2) ==> t1 == t2
  {
    var prefix := rateLimitKey + ":";
    if MarkerKey(rateLimitKey, t1) == MarkerKey(rateLimitKey, t2) {
      assert t1 == MarkerKey(rateLimitKey, t1)[|prefix|..];
      assert t2 == MarkerKey(rateLimitKey, t2)[|prefix|..];
    }
  }

  /**
    Up to `remaining` probes: rotate, then look for the rotated token's marker.
    A failed rotation ends the draw with nothing.
   */
  function Probe(st: StoreState, key: string, rateLimitKey: string, now: int, remaining: nat): (r: (Option<string>, StoreState))
    ensures r.1.expiry == st.expiry && r.1.reachable == st.reachable
    ensures forall k :: k != key ==> (k in r.1.lists <==> k in st.lists)
    ensures forall k :: k in st.lists && k != key ==> r.1.lists[k] == st.lists[k]
    ensures key in r.1.lists <==> key in st.lists
    ensures key in st.lists ==> multiset(r.1.lists[key]) == multiset(st.lists[key])
    ensures r.0.Some? ==> !Live(st.expiry, MarkerKey(rateLimitKey, r.0.value), now)
    ensures r.0.Some? ==> key in st.lists && r.0.value in st.lists[key]
    decreases remaining
  {
    if remaining == 0 then (None, st)
    else
      var (moved, st1) := MoveRightToLeft(st, key);
      if moved.Failure? then (None, st1)
      else
        var list := st.lists[key];
        assert multiset(st1.lists[key]) == multiset(list) by {
          assert list == list[..|list| - 1] + [list[|list| - 1]];
        }
        if !Live(st1.expiry, MarkerKey(rateLimitKey, moved.value), now) then (Some(moved.value), st1)
        else Probe(st1, key, rateLimitKey, now, remaining - 1)
  }

  /** `GetAuthToken` at `now`: as many probes as the list is long. */
  function Acquire(st: StoreState, key: string, rateLimitKey: string, now: int): (r: (Option<string>, StoreState))
  {
    Probe(st, key, rateLimitKey, now, ListLen(st, key))
  }

  /** The returned token is in the list, its marker was not live, and the list only changed order. */
  lemma AcquireSound(st: StoreState, key: string, rateLimitKey: string, now: int)
    ensures var (got, st') := Acquire(st, key, rateLimitKey, now);
      && (got.Some? ==> key in st.lists && got.value in st.lists[key])
      && (got.Some? ==> !Live(st.expiry, MarkerKey(rateLimitKey, got.value), now))
      && st'.expiry == st.expiry
      && (key in st.lists ==> key in st'.lists && |st'.lists[key]| == |st.lists[key]|)
      && (key in st.lists ==> multiset(st'.lists[key]) == multiset(st.lists[key]))
  {
    var (got, st') := Acquire(st, key, rateLimitKey, now);
    if key in st.lists {
      assert |st'.lists[key]| == |multiset(st'.lists[key])|;
      assert |st.lists[key]| == |multiset(st.lists[key])|;
    }
  }

  /** The element probe `k` (counting from 1) examines: the `k`-th from the end. */
  function FromEnd(list: seq<string>, k: nat): string
    requires 1 <= k <= |list|
  {
    list[|list| - k]
  }

  /** The list after `k` probes: its last `k` elements moved, in order, to the front. */
  function Rotated(list: seq<string>, k: nat): (r: seq<string>)
    requires k <= |list|
    ensures |r| == |list|
  {
    list[|list| - k..] + list[..|list| - k]
  }

  /** One more rotation brings the next element from the end to the front. */
  lemma RotatedStep(list: seq<string>, k: nat)
    requires k < |list|
    ensures var cur := Rotated(list, k);
      cur[|cur| - 1] == FromEnd(list, k + 1) &&
      [cur[|cur| - 1]] + cur[..|cur| - 1] == Rotated(list, k + 1)
  {
    var n := |list|;
    var cur := Rotated(list, k);
    assert cur[n - 1] == list[..n - k][n - k - 1];
    assert cur[..n - 1] == list[n - k..] + list[..n - k - 1];
    assert list[n - k - 1..] == [list[n - k - 1]] + list[n - k..];
  }

  /**
    The probe (counting from 1, after the first `k`) that finds the first
    element without a live marker; `|list| + 1` when every one has one.
   */
  function FirstUnmarked(expiry: map<string, int>, rateLimitKey: string, now: int, list: seq<string>, k: nat): (f: nat)
    requires k <= |list|
    ensures k < f <= |list| + 1
    ensures f <= |list| ==> !Live(expiry, MarkerKey(rateLimitKey, FromEnd(list, f)), now)
    ensures forall j :: k < j < f ==> Live(expiry, MarkerKey(rateLimitKey, FromEnd(list, j)), now)
    decreases |list| - k
  {
    if k == |list| then k + 1
    else if !Live(expiry, MarkerKey(rateLimitKey, FromEnd(list, k + 1)), now) then k + 1
    else FirstUnmarked(expiry, rateLimitKey, now, list, k + 1)
  }

  /** The outcome of a draw that stopped at probe `f` (none when `f` is past the end). */
  function Drawn(st: StoreState, key: string, list: seq<string>, f: nat): (Option<string>, StoreState)
    requires 1 <= f <= |list| + 1
  {
    if f <= |list| then (Some(FromEnd(list, f)), st.(lists := st.lists[key := Rotated(list, f)]))
    else (None, st.(lists := st.lists[key := Rotated(list, |list|)]))
  }

  /** Rewriting the probed list does not change where a later draw leaves it. */
  lemma DrawnAfterRotation(st: StoreState, st1: StoreState, key: string, l: seq<string>, list: seq<string>, f: nat)
    requires 1 <= f <= |list| + 1
    requires st1 == st.(lists := st.lists[key := l])
    ensures Drawn(st1, key, list, f) == Drawn(st, key, list, f)
  {
    assert st1.lists[key := Rotated(list, |list|)] == st.lists[key := Rotated(list, |list|)];
    if f <= |list| {
      assert st1.lists[key := Rotated(list, f)] == st.lists[key := Rotated(list, f)];
    }
  }

  /**
    With the store reachable, the draw rotates the list once per probe,
    examines its elements from the last one backwards and stops at the first
    without a live marker, leaving the list rotated by the number of probes.
   */
  lemma {:induction false} ProbeOrder(st: StoreState, key: string, rateLimitKey: string, now: int, list: seq<string>, done: nat)
    requires st.reachable && key in st.lists && done <= |list|
    requires st.lists[key] == Rotated(list, done)
    ensures Probe(st, key, rateLimitKey, now, |list| - done) ==
      Drawn(st, key, list, FirstUnmarked(st.expiry, rateLimitKey, now, list, done))
    decreases |list| - done
  {
    var f := FirstUnmarked(st.expiry, rateLimitKey, now, list, done);
    if done < |list| {
      RotatedStep(list, done);
      var (moved, st1) := MoveRightToLeft(st, key);
      assert moved == Success(FromEnd(list, done + 1));
      assert st1 == st.(lists := st.lists[key := Rotated(list, done + 1)]);
      if Live(st1.expiry, MarkerKey(rateLimitKey, moved.value), now) {
        assert Probe(st, key, rateLimitKey, now, |list| - done) == Probe(st1, key, rateLimitKey, now, |list| - done - 1);
        assert f == FirstUnmarked(st1.expiry, rateLimitKey, now, list, done + 1);
        ProbeOrder(st1, key, rateLimitKey, now, list, done + 1);
        DrawnAfterRotation(st, st1, key, Rotated(list, done + 1), list, f);
      } else {
        assert f == done + 1;
      }
    } else {
      assert st.lists[key := Rotated(list, done)] == st.lists;
    }
  }

  /**
    A full draw on a reachable store: the first probe examines the last
    element of the list, and the draw returns the first token from the end
    without a live marker, or nil once all have been examined.
   */
  lemma AcquireOrder(st: StoreState, key: string, rateLimitKey: string, now: int)
    requires st.reachable && key in st.lists
    ensures var list := st.lists[key];
      var f := FirstUnmarked(st.expiry, rateLimitKey, now, list, 0);
      Acquire(st, key, rateLimitKey, now) == Drawn(st, key, list, f)
  {
    var list := st.lists[key];
    assert Rotated(list, 0) == list;
    assert Acquire(st, key, rateLimitKey, now) == Probe(st, key, rateLimitKey, now, |list| - 0);
    ProbeOrder(st, key, rateLimitKey, now, list, 0);
  }

  /**
    A draw in which every token carries a live marker returns nil after `n`
    probes, and the `n` rotations leave the list as it was.
   */
  lemma AllMarkedFullCircle(st: StoreState, key: string, rateLimitKey: string, now: int)
    requires st.reachable && key in st.lists
    requires forall t :: t in st.lists[key] ==> Live(st.expiry, MarkerKey(rateLimitKey, t), now)
    ensures Acquire(st, key, rateLimitKey, now) == (None, st)
  {
    var list := st.lists[key];
    AcquireOrder(st, key, rateLimitKey, now);
    var f := FirstUnmarked(st.expiry, rateLimitKey, now, list, 0);
    assert Rotated(list, |list|) == list;
    assert st.lists[key := list] == st.lists;
  }

  /** A store that cannot be reached yields nil and no rotation. */
  lemma UnreachableStoreYieldsNothing(st: StoreState, key: string, rateLimitKey: string, now: int)
    requires !st.reachable
    ensures Acquire(st, key, rateLimitKey, now) == (None, st)
  {
  }

  /** `SET key value EX ttl` at `now`; the stored value is not modelled. */
  function SetWithExpiry(st: StoreState, key: string, ttl: int, now: int): (r: (Option<Error>, StoreState))
    ensures r.0.Some? <==> !st.reachable
    ensures r.0.Some? ==> r.1 == st
    ensures r.0.None? ==> r.1.lists == st.lists && r.1.reachable
    ensures r.0.None? ==> forall t :: Live(r.1.expiry, key, t) <==> t < now + ttl
    ensures r.0.None? ==> forall k :: k != key ==> (Live(r.1.expiry, k, now) <==> Live(st.expiry, k, now))
  {
    if !st.reachable then (Some(ConnectionRefused), st)
    else (None, st.(expiry := st.expiry[key := now + ttl]))
  }

  /** `SET marker now EX 4m`: the store's error, or a marker that expires after the cooldown. */
  function MarkRateLimited(st: StoreState, rateLimitKey: string, token: string, now: int): (r: (Option<Error>, StoreState))
    ensures r.0.Some? <==> !st.reachable
    ensures r.0.Some? ==> r.1 == st
    ensures r.0.None? ==> r.1.lists == st.lists
    ensures r.0.None? ==> forall t :: Live(r.1.expiry, MarkerKey(rateLimitKey, t), now) <==>
      t == token || Live(st.expiry, MarkerKey(rateLimitKey, t), now)
  {
    var marker := MarkerKey(rateLimitKey, token);
    assert forall t :: MarkerKey(rateLimitKey, t) == marker ==> t == token by {
      forall t ensures MarkerKey(rateLimitKey, t) == marker ==> t == token {
        MarkerKeyInjective(rateLimitKey, t, token);
      }
    }
    SetWithExpiry(st, marker, RateLimitDuration, now)
  }

  /** The tokens handed out by consecutive `GetAuthToken` calls at the given times, and the store afterwards. */
  function Draws(st: StoreState, key: string, rateLimitKey: string, nows: seq<int>): (r: (seq<Option<string>>, StoreState))
    ensures |r.0| == |nows| && r.1.expiry == st.expiry && r.1.reachable == st.reachable
    decreases |nows|
  {
    if nows == [] then ([], st)
    else
      var (got, st1) := Acquire(st, key, rateLimitKey, nows[0]);
      var (rest, st2) := Draws(st1, key, rateLimitKey, nows[1..]);
      ([got] + rest, st2)
  }

  /** Draws never touch markers, so a token whose marker is live throughout a run is never handed out in it. */
  lemma {:induction false} MarkerHoldsOverRun(st: StoreState, key: string, rateLimitKey: string, token: string, nows: seq<int>)
    requires forall i :: 0 <= i < |nows| ==> Live(st.expiry, MarkerKey(rateLimitKey, token), nows[i])
    ensures Some(token) !in Draws(st, key, rateLimitKey, nows).0
    decreases |nows|
  {
    if nows != [] {
      var (got, st1) := Acquire(st, key, rateLimitKey, nows[0]);
      MarkerHoldsOverRun(st1, key, rateLimitKey, token, nows[1..]);
      assert Draws(st, key, rateLimitKey, nows).0 == [got] + Draws(st1, key, rateLimitKey, nows[1..]).0;
    }
  }

  /**
    The marker written by `SetRateLimited` is the key `GetAuthToken` probes:
    once a token is marked at `at`, no call of a run of consecutive draws
    made before `at + 4 minutes` hands it out.
   */
  lemma MarkedTokenSkipped(st: StoreState, key: string, rateLimitKey: string, token: string, at: int, nows: seq<int>)
    requires forall i :: 0 <= i < |nows| ==> nows[i] < at + RateLimitDuration
    ensures var (err, marked) := MarkRateLimited(st, rateLimitKey, token, at);
      err.None? ==> Some(token) !in Draws(marked, key, rateLimitKey, nows).0
  {
    var (err, marked) := MarkRateLimited(st, rateLimitKey, token, at);
    if err.None? {
      MarkerHoldsOverRun(marked, key, rateLimitKey, token, nows);
    }
  }

  /** The default list key. */
  const DefaultKey: string := "auth_token_pool"

  /** The list key `New` settles on. */
  function PoolKey(key: string): (k: string)
    ensures k != ""
    ensures key != "" ==> k == key
  {
    if key == "" then DefaultKey else key
  }

  /** The store client; the pool shares it with other processes. */
  class Store {
    var state: StoreState

    constructor (state: StoreState)
      ensures this.state == state
    {
      this.state := state;
    }

    /** `PING`. */
    method Ping() returns (err: Option<Error>)
      ensures err.Some? <==> !state.reachable
    {
      err := if state.reachable then None else Some(ConnectionRefused);
    }

    method LLen(key: string) returns (n: nat)
      ensures n == ListLen(state, key)
    {
      n := ListLen(state, key);
    }

    method LMove(key: string) returns (r: Result<string, Error>)
      modifies this
      ensures (r, state) == MoveRightToLeft(old(state), key)
    {
      var (moved, next) := MoveRightToLeft(state, key);
      r, state := moved, next;
    }

    method Exists(key: string, now: int) returns (count: int)
      ensures count == if Live(state.expiry, key, now) then 1 else 0
    {
      count := if key in state.expiry && now < state.expiry[key] then 1 else 0;
    }

    method Set(key: string, ttl: int, now: int) returns (err: Option<Error>)
      modifies this
      ensures (err, state) == SetWithExpiry(old(state), key, ttl, now)
    {
      if !state.reachable {
        return Some(ConnectionRefused);
      }
      state := state.(expiry := state.expiry[key := now + ttl]);
      return None;
    }
  }

  class RedisPool {
    const store: Store
    const key: string
    const rateLimitKey: string

    ghost predicate Valid() {
      key != "" && rateLimitKey == key + ":ratelimit"
    }

    constructor (store: Store, key: string)
      requires key != ""
      ensures Valid() && this.store == store && this.key == key
    {
      this.store := store;
      this.key := key;
      this.rateLimitKey := key + ":ratelimit";
    }

    /** `GetAuthToken`: rotate and probe, at most `LLEN` times. */
    method GetAuthToken(now: int) returns (r: Option<AuthToken>)
      modifies store
      ensures var (got, st) := Acquire(old(store.state), key, rateLimitKey, now);
        store.state == st && (if r.Some? then Some(r.value.String()) else None) == got
      ensures r.Some? ==> forall t :: !r.value.IsRateLimited(t)
    {
      var n := store.LLen(key);
      var i := 0;
      while i < n
        invariant 0 <= i <= n
        invariant Probe(old(store.state), key, rateLimitKey, now, n) ==
          Probe(store.state, key, rateLimitKey, now, n - i)
      {
        var moved := store.LMove(key);
        if moved.Failure? {
          return None;
        }
        var marker := MarkerKey(rateLimitKey, moved.value);
        var count := store.Exists(marker, now);
        if count == 0 {
          return Some(NewAuthToken(moved.value));
        }
        i := i + 1;
      }
      return None;
    }

    /** `SetRateLimited`: write the token's marker with the cooldown as time-to-live. */
    method SetRateLimited(token: string, now: int) returns (err: Option<Error>)
      modifies store
      ensures (err, store.state) == MarkRateLimited(old(store.state), rateLimitKey, token, now)
    {
      var marker := MarkerKey(rateLimitKey, token);
      err := store.Set(marker, RateLimitDuration, now);
    }
  }

  /** `New`: fails when the store does not answer a ping; an empty key means the default. */
  method New(store: Store, key: string) returns (r: Result<RedisPool, Error>)
    ensures r.Failure? <==> !store.state.reachable
    ensures r.Success? ==> fresh(r.value) && r.value.Valid() && r.value.store == store
    ensures r.Success? ==> r.value.key == PoolKey(key) && r.value.rateLimitKey == PoolKey(key) + ":ratelimit"
  {
    var err := store.Ping();
    if err.Some? {
      return Failure(err.value);
    }
    var p := new RedisPool(store, PoolKey(key));
    return Success(p);
  }
}
