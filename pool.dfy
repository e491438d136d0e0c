/**
  The write path of the multi-host connection pool: the bounded retry
  combinator, the failover loop of the connection factory, and the
  per-attempt decisions of `write` (lease, deadline, write, return or evict).

  The host selector, the dialer, the channel pool and the connections are
  opaque collaborators. They are given as oracles: `pick(i)` and `dial(i)`
  answer the factory's `i`-th host request and dial, and `leases(k)` answers
  the channel pool's `k`-th `Get` together with how the leased connection
  answers the write made on it.
 */
module LogstashPool {
  import opened Types

  /** `maxRetries`: retries after the first attempt, so `Write` makes up to four attempts. */
  const MaxRetries: int := 3

  type Host = string

  /** Identity of a live connection. */
  type ConnId = nat

  /** What `net.DialTimeout` answers: a connection or an error, never both. */
  datatype Dial = Connected(conn: ConnId) | DialFailed(err: Error)

  /**
    How a connection answers `Write(data)`: all of it, or `n` bytes and an
    error. The pool passes `n` on as it is; `n` is not tied to the payload's
    length.
   */
  datatype ConnReply = WroteAll | WriteFailed(n: nat, err: Error)

  /** What the channel pool's `Get` answers: a connection (with its answer to the write), or an error. */
  datatype Lease = Leased(conn: ConnId, reply: ConnReply) | Unavailable(err: Error)

  /** The `(n int, err error)` pair of a write. */
  datatype WriteResult = WriteResult(n: int, err: Option<Error>)

  /** The `(n, err)` a connection's `Write(data)` returns for its reply. */
  function ReplyResult(reply: ConnReply, data: Bytes): (r: WriteResult)
  {
    match reply
    case WroteAll => WriteResult(|data|, None)
    case WriteFailed(n, err) => WriteResult(n, Some(err))
  }

  /** How many times `retry` called its action, and what it returned. */
  datatype RetryResult = RetryResult(attempts: nat, result: WriteResult)

  /**
    What one `write` attempt did to the pool: no connection was obtained, or
    connection `conn` was written `data` with the write deadline `deadline`
    applied (or none), and was then evicted or put back.
   */
  datatype Event = NoLease(err: Error) | Used(conn: ConnId, deadline: Option<int>, data: Bytes, evicted: bool)

  /** The result and the effect of one `write` attempt. */
  datatype Attempted = Attempted(result: WriteResult, event: Event)

  /**
    What a `write` attempt depends on: whether the channel pool is closed,
    the stored deadline, the clock, the leases and the payload. `clock(k)`
    is what `time.Now()` reads during the attempt on the `k`-th lease, so
    every attempt of a retried write reads the clock afresh.
   */
  datatype WriteContext = WriteContext(closed: bool, deadline: int, clock: nat -> int, leases: nat -> Lease, data: Bytes)

  /** The channel pool's answer to `Get` once it is closed. */
  const PoolClosed: Error := Error("pool is closed", NotNetError)

  /** A write error that makes `write` mark the connection unusable: a network error that is temporary or a timeout. */
  predicate Transient(err: Option<Error>)
  {
    err.Some? && err.value.kind.NetError? && (err.value.kind.temporary || err.value.kind.timeout)
  }

  /** The number of further calls a retry budget allows (a non-positive budget allows none). */
  function Budget(retriesLeft: int): (b: nat)
  {
    if retriesLeft > 0 then retriesLeft else 0
  }

  /**
    `retry(action, retriesLeft)`, with `action(first + j)` the answer of the
    `j`-th call. It calls the action at least once and at most
    `retriesLeft + 1` times, stops at the first call that returns no error,
    and returns the answer of its last call; when that answer is an error,
    the budget is spent.
   */
  function Retry(action: nat -> WriteResult, first: nat, retriesLeft: int): (r: RetryResult)
    decreases Budget(retriesLeft)
    ensures 1 <= r.attempts <= Budget(retriesLeft) + 1
    ensures r.result == action(first + r.attempts - 1)
    ensures forall i :: first <= i < first + r.attempts - 1 ==> action(i).err.Some?
    ensures r.result.err.Some? ==> r.attempts == Budget(retriesLeft) + 1
  {
    var answer := action(first);
    if answer.err.Some? && retriesLeft > 0 then
      var rest := Retry(action, first + 1, retriesLeft - 1);
      RetryResult(rest.attempts + 1, rest.result)
    else
      RetryResult(1, answer)
  }

  /**
    `retry` returns the first answer without an error when there is one
    within the budget, after exactly as many calls as it took to get it.
   */
  lemma RetryFirstSuccess(action: nat -> WriteResult, first: nat, retriesLeft: int, j: nat)
    requires first <= j <= first + Budget(retriesLeft)
    requires action(j).err.None?
    requires forall i :: first <= i < j ==> action(i).err.Some?
    ensures Retry(action, first, retriesLeft) == RetryResult(j - first + 1, action(j))
  {
  }

  /**
    One `write` attempt on the `k`-th lease. A closed pool or a failed lease
    gives `(0, err)` and touches no connection. Otherwise the payload is
    written on the leased connection, the stored deadline is applied only
    when it is strictly later than the clock reading of this attempt, the
    connection's answer is returned as it is, and the connection is evicted
    exactly when the write error is temporary or a timeout.
   */
  function AttemptAt(ctx: WriteContext, k: nat): (a: Attempted)
    ensures ctx.closed ==> a == Attempted(WriteResult(0, Some(PoolClosed)), NoLease(PoolClosed))
    ensures !ctx.closed && ctx.leases(k).Unavailable? ==> a.event == NoLease(ctx.leases(k).err)
    ensures a.event.NoLease? ==> a.result == WriteResult(0, Some(a.event.err))
    ensures !ctx.closed && ctx.leases(k).Leased? ==> a.event.Used?
    ensures a.event.Used? ==> !ctx.closed && ctx.leases(k).Leased? && a.event.conn == ctx.leases(k).conn
    ensures a.event.Used? ==> a.event.data == ctx.data
    ensures a.event.Used? ==> (a.event.deadline.Some? <==> ctx.deadline > ctx.clock(k))
    ensures a.event.Used? && a.event.deadline.Some? ==> a.event.deadline.value == ctx.deadline
    ensures a.event.Used? ==> (a.event.evicted <==> Transient(a.result.err))
    ensures a.result.err.None? ==> a.event.Used? && !a.event.evicted && a.result.n == |ctx.data|
    ensures a.event.Used? ==> a.result == ReplyResult(ctx.leases(k).reply, ctx.data)
  {
    var lease := if ctx.closed then Unavailable(PoolClosed) else ctx.leases(k);
    match lease
    case Unavailable(err) => Attempted(WriteResult(0, Some(err)), NoLease(err))
    case Leased(conn, reply) =>
      var deadline := if ctx.deadline > ctx.clock(k) then Some(ctx.deadline) else None;
      var result := ReplyResult(reply, ctx.data);
      Attempted(result, Used(conn, deadline, ctx.data, Transient(result.err)))
  }

  /** The action `Write` hands to `retry`: the `k`-th call is the attempt on the `k`-th lease. */
  function Action(ctx: WriteContext): (action: nat -> WriteResult)
  {
    (k: nat) => AttemptAt(ctx, k).result
  }

  /** The effects of `count` attempts starting at lease `first`, in order. */
  function Trace(ctx: WriteContext, first: nat, count: nat): (events: seq<Event>)
    decreases count
  {
    if count == 0 then [] else [AttemptAt(ctx, first).event] + Trace(ctx, first + 1, count - 1)
  }

  /** The effects of `count + 1` attempts: the first attempt's, then the rest's. */
  lemma TraceCons(ctx: WriteContext, first: nat, next: nat, count: nat)
    requires next == first + 1
    ensures Trace(ctx, first, count + 1) == [AttemptAt(ctx, first).event] + Trace(ctx, next, count)
  {
  }

  /** One more `write` attempt under `retry`, after an attempt that failed with budget left. */
  lemma RetryAgain(ctx: WriteContext, first: nat, next: nat, retriesLeft: int, before: seq<Event>, middle: seq<Event>, after: seq<Event>)
    requires AttemptAt(ctx, first).result.err.Some? && retriesLeft > 0 && next == first + 1
    requires middle == before + [AttemptAt(ctx, first).event]
    requires after == middle + Trace(ctx, next, Retry(Action(ctx), next, retriesLeft - 1).attempts)
    ensures Retry(Action(ctx), first, retriesLeft).result == Retry(Action(ctx), next, retriesLeft - 1).result
    ensures Retry(Action(ctx), first, retriesLeft).attempts == Retry(Action(ctx), next, retriesLeft - 1).attempts + 1
    ensures after == before + Trace(ctx, first, Retry(Action(ctx), first, retriesLeft).attempts)
  {
    var rest := Retry(Action(ctx), next, retriesLeft - 1);
    assert Retry(Action(ctx), first, retriesLeft) == RetryResult(rest.attempts + 1, rest.result);
    TraceCons(ctx, first, next, rest.attempts);
    assert after == before + ([AttemptAt(ctx, first).event] + Trace(ctx, next, rest.attempts));
  }

  /** `retry` stops after an attempt that succeeded or spent the budget. */
  lemma RetryStop(ctx: WriteContext, first: nat, retriesLeft: int)
    requires AttemptAt(ctx, first).result.err.None? || retriesLeft <= 0
    ensures Retry(Action(ctx), first, retriesLeft) == RetryResult(1, AttemptAt(ctx, first).result)
    ensures Trace(ctx, first, 1) == [AttemptAt(ctx, first).event]
  {
  }

  /** Writing to a closed pool: four attempts, each without a connection, and "pool is closed". */
  lemma ClosedPoolWrite(ctx: WriteContext, first: nat)
    requires ctx.closed
    ensures Retry(Action(ctx), first, MaxRetries) == RetryResult(4, WriteResult(0, Some(PoolClosed)))
    ensures Trace(ctx, first, 4) == [NoLease(PoolClosed), NoLease(PoolClosed), NoLease(PoolClosed), NoLease(PoolClosed)]
  {
  }

  /**
    The factory built by `makeFactory`: ask the host selector for a host and
    dial it, at most `totalHosts` times, until a dial gives a connection.
    Each failed dial marks the host it was given (`marked` lists those marks
    in order); a successful dial marks nothing. The result is the connection
    of the first successful dial, or else nil with the last dial's error
    (nil as well when `totalHosts` allows no dial at all).
   */
  method Factory(totalHosts: int, pick: nat -> Host, dial: nat -> Dial)
    returns (conn: Option<ConnId>, err: Option<Error>, marked: seq<(Host, Error)>)
    ensures forall i :: 0 <= i < |marked| ==> dial(i).DialFailed? && marked[i] == (pick(i), dial(i).err)
    ensures conn.Some? ==> |marked| < totalHosts && dial(|marked|) == Connected(conn.value) && err == None
    ensures conn.None? ==> |marked| == Budget(totalHosts)
    ensures conn.None? && marked != [] ==> err == Some(marked[|marked| - 1].1)
    ensures conn.None? && marked == [] ==> err == None
  {
    conn, err, marked := None, None, [];
    var attempts := 0;
    while conn.None? && attempts < totalHosts
      invariant 0 <= attempts <= Budget(totalHosts)
      invariant conn.None? ==> |marked| == attempts
      invariant conn.None? && marked != [] ==> err == Some(marked[|marked| - 1].1)
      invariant conn.None? && marked == [] ==> err == None
      invariant conn.Some? ==> attempts == |marked| + 1 && dial(|marked|) == Connected(conn.value) && err == None
      invariant forall i :: 0 <= i < |marked| ==> dial(i).DialFailed? && marked[i] == (pick(i), dial(i).err)
      decreases Budget(totalHosts) - attempts
    {
      attempts := attempts + 1;
      var host := pick(attempts - 1);
      match dial(attempts - 1)
      case Connected(c) =>
        conn, err := Some(c), None;
      case DialFailed(e) =>
        conn, err := None, Some(e);
        marked := marked + [(host, e)];
    }
  }

  /**
    `logstashPool`: the host list, the channel pool (its closed flag, the
    number of `Get` calls so far and the oracle that answers them), the
    stored write deadline, and the record of what each `write` attempt did.
   */
  class Pool {
    const hosts: seq<Host>
    const leases: nat -> Lease
    var timeout: int
    var closed: bool
    var gets: nat
    var trace: seq<Event>

    /** A pool over a freshly built channel pool; the deadline is Go's zero time, 0. */
    constructor (hosts: seq<Host>, leases: nat -> Lease)
      ensures this.hosts == hosts && this.leases == leases
      ensures timeout == 0 && !closed && gets == 0 && trace == []
    {
      this.hosts := hosts;
      this.leases := leases;
      timeout := 0;
      closed := false;
      gets := 0;
      trace := [];
    }

    /** The context the next `write` attempts run in. */
    ghost function Context(data: Bytes, clock: nat -> int): (ctx: WriteContext)
      reads this
    {
      WriteContext(closed, timeout, clock, leases, data)
    }

    /** `SetWriteDeadline`: stores `t` and returns nil. */
    method SetWriteDeadline(t: int) returns (err: Option<Error>)
      modifies this`timeout
      ensures timeout == t && err == None
    {
      timeout := t;
      err := None;
    }

    /** `Close`: closes the channel pool (the host selector's `Close` is opaque) and returns nil. */
    method Close() returns (err: Option<Error>)
      modifies this`closed
      ensures closed && err == None
    {
      closed := true;
      err := None;
    }

    /** `write`: one attempt, on the next lease, reading the clock as `clock` says for that lease. */
    method WriteAttempt(data: Bytes, clock: nat -> int) returns (n: int, err: Option<Error>)
      modifies this`gets, this`trace
      ensures gets == old(gets) + 1
      ensures WriteResult(n, err) == AttemptAt(old(Context(data, clock)), old(gets)).result
      ensures trace == old(trace) + [AttemptAt(old(Context(data, clock)), old(gets)).event]
    {
      var k := gets;
      var lease := if closed then Unavailable(PoolClosed) else leases(k);
      gets := gets + 1;
      if lease.Unavailable? {
        trace := trace + [NoLease(lease.err)];
        return 0, Some(lease.err);
      }
      var deadline: Option<int> := None;
      if timeout > clock(k) {
        deadline := Some(timeout);
      }
      var answer := ReplyResult(lease.reply, data);
      n, err := answer.n, answer.err;
      // the deferred Close puts the connection back unless it was marked unusable
      var unusable := Transient(err);
      trace := trace + [Used(lease.conn, deadline, data, unusable)];
    }

    /** `retry` applied to `write`. */
    method RetryWrite(data: Bytes, clock: nat -> int, retriesLeft: int) returns (n: int, err: Option<Error>)
      modifies this`gets, this`trace
      decreases Budget(retriesLeft)
      ensures WriteResult(n, err) == Retry(Action(old(Context(data, clock))), old(gets), retriesLeft).result
      ensures gets == old(gets) + Retry(Action(old(Context(data, clock))), old(gets), retriesLeft).attempts
      ensures trace == old(trace) + Trace(old(Context(data, clock)), old(gets), Retry(Action(old(Context(data, clock))), old(gets), retriesLeft).attempts)
    {
      ghost var ctx, first, trace0 := Context(data, clock), gets, trace;
      n, err := WriteAttempt(data, clock);
      if err.Some? && retriesLeft > 0 {
        ghost var next, trace1 := gets, trace;
        assert Context(data, clock) == ctx;
        n, err := RetryWrite(data, clock, retriesLeft - 1);
        RetryAgain(ctx, first, next, retriesLeft, trace0, trace1, trace);
      } else {
        RetryStop(ctx, first, retriesLeft);
      }
    }

    /**
      `Write`: `write` under `retry` with `maxRetries`. It makes between one
      and four attempts, on consecutive leases, and returns the first
      successful attempt's answer or, when all four fail, the last one's.
     */
    method Write(data: Bytes, clock: nat -> int) returns (n: int, err: Option<Error>)
      modifies this`gets, this`trace
      ensures var ctx := old(Context(data, clock));
              var r := Retry(Action(ctx), old(gets), MaxRetries);
              n == r.result.n && err == r.result.err
              && gets == old(gets) + r.attempts && trace == old(trace) + Trace(ctx, old(gets), r.attempts)
      ensures old(gets) < gets <= old(gets) + MaxRetries + 1
    {
      n, err := RetryWrite(data, clock, MaxRetries);
    }
  }

  /**
    `newPool`: `channelPool` is what building the channel pool over the
    factory answered. On an error the result is a nil pool and that error;
    otherwise a fresh pool with no deadline.
   */
  method NewPool(hosts: seq<Host>, initialCap: int, maxCap: int, channelPool: Option<Error>, leases: nat -> Lease)
    returns (p: Pool?, err: Option<Error>)
    ensures err == channelPool
    ensures p == null <==> channelPool.Some?
    ensures p != null ==> fresh(p) && p.hosts == hosts && p.leases == leases
    ensures p != null ==> p.timeout == 0 && !p.closed && p.gets == 0 && p.trace == []
  {
    if channelPool.Some? {
      return null, channelPool;
    }
    p := new Pool(hosts, leases);
    err := None;
  }

  /** A connection that takes every write. */
  function AlwaysWrites(k: nat): (lease: Lease)
  {
    Leased(k, WroteAll)
  }

  /** Writing "sample data" to a reachable host succeeds at once and reports all 11 bytes. */
  method WriteSampleData() returns (n: int, err: Option<Error>)
    ensures n == 11 && err == None
  {
    var p := new Pool(["127.0.0.1:7777"], AlwaysWrites);
    n, err := p.Write(BytesOf("sample data"), _ => 0);
  }

  /** Writing after the channel pool was closed fails with "pool is closed". */
  method WriteAfterClose() returns (err: Option<Error>)
    ensures err == Some(PoolClosed)
  {
    var p := new Pool(["127.0.0.1:7777"], AlwaysWrites);
    var _ := p.Close();
    var n;
    n, err := p.Write(BytesOf("sample data"), _ => 0);
    ClosedPoolWrite(WriteContext(true, 0, _ => 0, AlwaysWrites, BytesOf("sample data")), 0);
  }

  /**
    A deadline 500 ms after `now` is applied to the connection, provided the
    write reads the clock before that deadline, and the write succeeds.
   */
  method WriteWithDeadline(now: int, clock: nat -> int) returns (n: int, err: Option<Error>, applied: Option<int>)
    requires clock(0) < now + 500_000_000
    ensures n == 11 && err == None && applied == Some(now + 500_000_000)
  {
    var p := new Pool(["127.0.0.1:7777"], AlwaysWrites);
    var _ := p.SetWriteDeadline(now + 500_000_000);
    ghost var ctx := WriteContext(false, now + 500_000_000, clock, AlwaysWrites, BytesOf("sample data"));
    assert p.Context(BytesOf("sample data"), clock) == ctx;
    RetryStop(ctx, 0, MaxRetries);
    n, err := p.Write(BytesOf("sample data"), clock);
    assert p.trace == [AttemptAt(ctx, 0).event];
    applied := p.trace[0].deadline;
  }
}
