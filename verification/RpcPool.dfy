/** The pool of RPC clients: a buffered channel of idle clients, temporary clients on timeout,
    and surplus clients dropped on return. */
module RpcPool {
  import opened Prelude

  /** Clients are numbered in the order they are made. `held` says which client a request has. */
  datatype PoolState = PoolState(size: nat, idle: seq<nat>, held: map<nat, nat>, made: nat, temporary: nat, dropped: nat)

  datatype Event = Acquire(request: nat) | Timeout(request: nat) | Return(request: nat)

  const DEFAULT_POOL_SIZE := 5

  /** A timeout may win the race even when a client is idle. */
  predicate Enabled(s: PoolState, e: Event) {
    match e
    case Acquire(r) => r !in s.held && |s.idle| > 0
    case Timeout(r) => r !in s.held
    case Return(r) => r in s.held
  }

  function Next(s: PoolState, e: Event): PoolState
    requires Enabled(s, e)
  {
    match e
    case Acquire(r) => s.(idle := s.idle[1..], held := s.held[r := s.idle[0]])
    case Timeout(r) => s.(held := s.held[r := s.made], made := s.made + 1, temporary := s.temporary + 1)
    case Return(r) =>
      if |s.idle| < s.size then s.(idle := s.idle + [s.held[r]], held := s.held - {r})
      else s.(held := s.held - {r}, dropped := s.dropped + 1)
  }

  function Initial(size: nat): PoolState {
    PoolState(size, seq(size, i => i), map[], size, 0, 0)
  }

  ghost predicate Run(size: nat, states: seq<PoolState>, events: seq<Event>) {
    && |states| == |events| + 1 && states[0] == Initial(size)
    && forall n :: 0 <= n < |events| ==> Enabled(states[n], events[n]) && states[n + 1] == Next(states[n], events[n])
  }

  /** No client is idle twice, held twice, or both. */
  ghost predicate OneOwner(s: PoolState) {
    && Distinct(s.idle)
    && (forall a, b :: a in s.held && b in s.held && s.held[a] == s.held[b] ==> a == b)
    && (forall a :: a in s.held ==> s.held[a] !in s.idle)
    && (forall a :: a in s.held ==> s.held[a] < s.made)
    && (forall i :: 0 <= i < |s.idle| ==> s.idle[i] < s.made)
  }

  /** Clients are neither lost nor conjured up: what is idle, outstanding or dropped was made at
      the start or on a timeout. */
  ghost predicate Balanced(s: PoolState) {
    && |s.idle| + |s.held| + s.dropped == s.size + s.temporary
    && |s.idle| <= s.size <= |s.idle| + |s.held|
    && s.made == s.size + s.temporary
  }

  lemma HeldCounts(m: map<nat, nat>, r: nat, c: nat)
    ensures r !in m ==> |m[r := c]| == |m| + 1
    ensures r in m ==> |m - {r}| == |m| - 1
  {
    if r in m {
      assert (m - {r}).Keys == m.Keys - {r};
      assert |m.Keys - {r}| == |m.Keys| - 1;
      assert |m.Keys| == |m| && |(m - {r}).Keys| == |m - {r}|;
    } else {
      assert m[r := c].Keys == m.Keys + {r};
      assert |m.Keys + {r}| == |m.Keys| + 1;
      assert |m[r := c].Keys| == |m[r := c]|;
    }
  }

  lemma StepKeepsOwner(s: PoolState, e: Event)
    requires Enabled(s, e) && OneOwner(s)
    ensures OneOwner(Next(s, e))
  {
    if e.Acquire? {
      assert s.idle[0] !in s.idle[1..];
    }
  }

  /** The client a request gets is held by no other request. */
  lemma NewClient(s: PoolState, e: Event)
    requires Enabled(s, e) && OneOwner(s) && !e.Return?
    ensures Next(s, e).held[e.request] !in s.held.Values
  {}

  lemma StepKeepsBalance(s: PoolState, e: Event)
    requires Enabled(s, e) && Balanced(s)
    ensures Balanced(Next(s, e))
  {
    match e
    case Acquire(r) => HeldCounts(s.held, r, s.idle[0]);
    case Timeout(r) => HeldCounts(s.held, r, s.made);
    case Return(r) => HeldCounts(s.held, r, 0);
  }

  /** In every interleaving of acquires, timeouts and returns: no client has two holders, idle
      and outstanding clients together never fall below the pool size, idle ones never exceed
      it, and when nothing is outstanding the pool is exactly full. */
  lemma {:induction false} PoolIsSafe(size: nat, states: seq<PoolState>, events: seq<Event>, n: nat)
    requires Run(size, states, events) && n <= |events|
    ensures OneOwner(states[n]) && Balanced(states[n]) && states[n].size == size
    ensures states[n].held == map[] ==> |states[n].idle| == size
  {
    if n > 0 {
      PoolIsSafe(size, states, events, n - 1);
      assert Enabled(states[n - 1], events[n - 1]);
      StepKeepsOwner(states[n - 1], events[n - 1]);
      StepKeepsBalance(states[n - 1], events[n - 1]);
    }
  }

  /** A client borrowed and given back leaves every other holder alone; the pool gets back a
      client, and on a timeout fills up by one if it had room. */
  lemma BorrowAndReturn(s: PoolState, e: Event)
    requires Enabled(s, e) && !e.Return? && Balanced(s)
    ensures Enabled(Next(s, e), Return(e.request))
    ensures var s' := Next(Next(s, e), Return(e.request));
            s'.held == s.held && |s'.idle| == |s.idle| + if e.Timeout? && |s.idle| < s.size then 1 else 0
  {
    assert (Next(s, e).held - {e.request}) == s.held;
  }

  // ----- the code

  class RPCPool {
    var available: seq<nat>
    const poolSize: nat
    var made: nat
    var totalRequests: nat
    var successfulRequests: nat
    var failedRequests: nat
    ghost var held: map<nat, nat>
    ghost var temporary: nat
    ghost var dropped: nat

    ghost function State(): PoolState
      reads this
    {
      PoolState(poolSize, available, held, made, temporary, dropped)
    }

    ghost predicate Valid()
      reads this
    {
      OneOwner(State()) && Balanced(State())
    }

    constructor (size: int)
      ensures Valid() && State() == Initial(if size <= 0 then DEFAULT_POOL_SIZE else size)
      ensures |available| == poolSize == if size <= 0 then 5 else size
      ensures forall i, j :: 0 <= i < j < |available| ==> available[i] != available[j]
      ensures totalRequests == successfulRequests == failedRequests == 0
    {
      var n: nat := if size <= 0 then DEFAULT_POOL_SIZE else size;
      var clients: seq<nat> := [];
      for i := 0 to n
        invariant clients == seq(i, k => k)
      {
        clients := clients + [i];
      }
      poolSize, available, made := n, clients, n;
      totalRequests, successfulRequests, failedRequests := 0, 0, 0;
      held, temporary, dropped := map[], 0, 0;
    }

    /** Waits for an idle client, or makes one when the timeout comes first. */
    method GetClient(timedOut: bool, ghost request: nat) returns (client: nat)
      requires |available| > 0 || timedOut
      requires request !in held
      modifies this
      ensures State() == Next(old(State()), if timedOut then Timeout(request) else Acquire(request))
      ensures request in held && held[request] == client
      ensures if timedOut then client == old(made) && available == old(available)
              else client == old(available)[0] && available == old(available)[1..]
      ensures old(Valid()) ==> Valid() && client !in old(held).Values
      ensures totalRequests == old(totalRequests) + (if timedOut then 0 else 1)
      ensures successfulRequests == old(successfulRequests) && failedRequests == old(failedRequests)
    {
      ghost var e := if timedOut then Timeout(request) else Acquire(request);
      if OneOwner(State()) { NewClient(State(), e); }
      hide OneOwner, Balanced;
      if OneOwner(State()) { StepKeepsOwner(State(), e); }
      if Balanced(State()) { StepKeepsBalance(State(), e); }
      if timedOut {
        client, made, temporary := made, made + 1, temporary + 1;
      } else {
        client, available, totalRequests := available[0], available[1..], totalRequests + 1;
      }
      held := held[request := client];
    }

    /** Puts a client back, or drops it when the channel is full. */
    method ReturnClient(client: nat, ghost request: nat)
      requires request in held && held[request] == client
      modifies this
      ensures State() == Next(old(State()), Return(request))
      ensures available == old(available) + if |old(available)| < poolSize then [client] else []
      ensures old(Valid()) ==> Valid()
      ensures totalRequests == old(totalRequests)
      ensures successfulRequests == old(successfulRequests) && failedRequests == old(failedRequests)
    {
      hide OneOwner, Balanced;
      if OneOwner(State()) { StepKeepsOwner(State(), Return(request)); }
      if Balanced(State()) { StepKeepsBalance(State(), Return(request)); }
      if |available| < poolSize {
        available := available + [client];
      } else {
        dropped := dropped + 1;
      }
      held := held - {request};
    }

    /** One call through the pool, repeated once if the node's error is worth it. The client is
        given back on every path. */
    method Call<T>(first: Result<T>, second: Result<T>, timedOut: bool, ghost request: nat) returns (r: Result<T>)
      requires Valid() && (|available| > 0 || timedOut) && request !in held
      modifies this
      ensures Valid() && held == old(held)
      ensures |available| == old(|available|) + if timedOut && old(|available|) < poolSize then 1 else 0
      ensures r == if first.Failure? && first.error.retryable then second else first
      ensures totalRequests == old(totalRequests) + (if timedOut then 0 else 1)
      ensures successfulRequests == old(successfulRequests) + (if r.Success? then 1 else 0)
      ensures failedRequests == old(failedRequests) + (if r.Success? then 0 else 1)
    {
      BorrowAndReturn(State(), if timedOut then Timeout(request) else Acquire(request));
      hide OneOwner, Balanced, Next;
      var client := GetClient(timedOut, request);
      r := first;
      if first.Failure? && first.error.retryable { r := second; }
      if r.Success? { successfulRequests := successfulRequests + 1; } else { failedRequests := failedRequests + 1; }
      ReturnClient(client, request);
    }
  }
}
