# Logstash hook and connection pool: a verified model

This project models the delivery core of a logrus hook that ships log entries
to Logstash. It covers two parts.

- The dispatch hook (`hook.go`). A hook starts synchronous. `Async` switches it
  to asynchronous delivery. `AsyncBuffer` switches it to asynchronous delivery
  through a bounded FIFO channel drained by one background worker, with a
  wait-group counting the entries not yet attempted. `fire` formats an entry
  and writes it only if formatting succeeded. `Flush` waits until the counter
  is back to zero.
- The write path of the multi-host connection pool (`pool.go`). This covers the
  recursive `retry`, the failover loop of the connection factory, and the
  decisions one `write` attempt makes: lease a connection, apply the stored
  deadline only when it lies in the future, write, and then evict the
  connection on a temporary or timeout network error or put it back.

Goroutines, the channel and the wait-group become sequential steps. The
hook's `Valid()` invariant keeps the wait-group counter equal to the number of
queued entries, because a worker step takes, attempts and counts down one
entry atomically. When `Fire` sends to a full channel, the model runs the
worker step that frees a slot first, since that is the only schedule in which
the blocked send can finish. An unbuffered asynchronous `Fire` records a
pending goroutine. `RunSpawned` runs any one of them, so the model promises no
order between them.

The formatter, the writer, the host selector, the dialer, the channel pool
and the network connections are opaque collaborators, given as functions:

- `formatter`: answers `Format`.
- `reject`: decides which writes the in-memory writer refuses.
- `pick(i)` and `dial(i)`: the host and the dial outcome of the factory's
  `i`-th attempt.
- `leases(k)`: the channel pool's answer to its `k`-th `Get`, together with
  how that connection answers the write.

The clock is a parameter `clock` of `Write`: `clock(k)` is what `time.Now()`
reads during the attempt on the `k`-th lease, so each attempt of a retried
write compares the stored deadline with its own clock reading. Times are
integers counted from Go's zero time, so the zero deadline is 0.

Files: `types.dfy` (shared values and errors), `hook.dfy` (module
`LogstashHook`), `pool.dfy` (module `LogstashPool`).

Four facts about the code are easy to get wrong, and the model states them
as the code has them:

- `Write` makes up to four attempts: the first call plus `maxRetries = 3`
  retries.
- The factory never marks a host after a successful dial. Only failed dials
  are reported to the host selector.
- The factory makes up to `totalHosts` attempts but does not make them go to
  distinct hosts. It asks the selector each time. With no hosts it returns
  neither a connection nor an error.
- A past deadline stays stored. It is just not applied to the connection.

## Model

| member | source | states |
|---|---|---|
| `LogstashHook.Writer.Write` | hook_test.go:59-63 | the writer collaborator: an accepted write appends all of the data and reports its length; a refused write appends nothing and reports 0 with the error |
| `LogstashHook.Hook.New` | hook.go:31-38 | a new hook is synchronous, has every logrus level, no buffer, nothing pending |
| `LogstashHook.Hook.Deliver` | hook.go:115-122 | `fire`: a formatter error is returned and the writer is not touched; otherwise the writer receives exactly the formatted bytes and its error is returned unchanged |
| `LogstashHook.Hook.Fire` | hook.go:43-63 | sync mode returns exactly `fire`'s result and writes what `fire` writes; both async modes return nil; unbuffered, a goroutine is recorded and the sink is untouched; buffered, pending grows by one and the entry goes to the tail, the sink untouched unless the queue was full, in which case the head is attempted first |
| `LogstashHook.Hook.Levels` | hook.go:65-68 | answers the stored levels: every logrus level after `New`, and exactly the levels last given to `SetLevels` |
| `LogstashHook.Hook.SetLevels` | hook.go:70-73 | afterwards `Levels()` returns the new levels and nothing else changes |
| `LogstashHook.Hook.Async` | hook.go:75-79 | sets async; nothing else changes |
| `LogstashHook.Hook.AsyncBuffer` | hook.go:83-92 | capacity is 8192 for size 0 and exactly the size otherwise; afterwards the hook is async with an empty queue and nothing pending |
| `LogstashHook.Hook.ProcessBuffer` | hook.go:105-113 | one worker round takes the head entry, attempts it, and decrements pending whether or not the attempt failed; with an empty channel nothing changes |
| `LogstashHook.Hook.RunSpawned` | hook.go:58-61 | the goroutine of an unbuffered async `Fire` delivers its entry through `fire`; any pending goroutine may run, in any order |
| `LogstashHook.Hook.Flush` | hook.go:95-103 | a no-op without a buffer (sync or unbuffered async); otherwise on return pending is 0, the queue is empty, and the sink has received the attempts of every entry queued before the call, in FIFO order |
| `LogstashHook.DeliveredAppend` | hook.go:105-112 | attempting one run of entries and then another delivers the first run's bytes followed by the second's |
| `LogstashHook.DeliveredInOrder` | hook.go:105-112 | FIFO: an entry's bytes reach the sink after those of every earlier entry and before those of every later one |
| `LogstashHook.DeliveredAllAccepted` | hook.go:115-122 | when the writer accepts everything, the sink receives exactly the formatter's outputs in submission order |
| `LogstashHook.DeliveredAllRejected` | hook.go:107-111 | a writer that refuses every write receives nothing; failed attempts are dropped, not retried |
| `LogstashHook.FireSyncToBuffer` | hook_test.go:20-40 | a sync `Fire` of "my message" writes exactly `msg: "my message"` and returns nil; `Flush` does nothing |
| `LogstashHook.FireSyncFormatError` | hook_test.go:48-57 | a sync `Fire` with a failing formatter returns an error and writes nothing |
| `LogstashHook.FireSyncWriteError` | hook_test.go:65-73 | a sync `Fire` returns the writer's error |
| `LogstashHook.FireBufferedWriteError` | hook_test.go:75-87 | a buffered async `Fire` returns nil even though every write fails; after `Flush` the sink holds nothing |
| `LogstashHook.FireBufferedToBuffer` | hook_test.go:114-136 | `AsyncBuffer(0)` gives capacity 8192; after `Fire` and `Flush` the sink holds exactly `msg: "my async message"` |
| `LogstashPool.Retry` | pool.go:92-99 | `retry` calls the action at least once and at most retriesLeft+1 times; every call before the last failed; it returns the last call's `(n, err)`; an error result means the budget was spent |
| `LogstashPool.RetryFirstSuccess` | pool.go:93-98 | when the first success lies within the budget, `retry` returns exactly that answer after exactly that many calls |
| `LogstashPool.AttemptAt` | pool.go:69-90 | a closed pool or failed lease gives `(0, err)` and no write; otherwise the payload is written on the leased connection, the deadline is applied iff it is strictly after this attempt's own clock reading, the connection's `(n, err)` is returned unchanged, the connection is evicted iff the error is a temporary or timeout net error, and success reports the full length |
| `LogstashPool.ClosedPoolWrite` | pool.go:63-73 | after the channel pool is closed, `Write` makes four attempts, none gets a connection, and it returns `(0, "pool is closed")` |
| `LogstashPool.Factory` | pool.go:35-50 | at most `totalHosts` dials; stops at the first connection; every failed dial marks the host it was given, in order, and a successful dial marks nothing; with no connection the result is the last dial's error |
| `LogstashPool.Pool.constructor` | pool.go:29-32 | a new pool holds the hosts and the channel pool, with the zero deadline and no attempts yet |
| `LogstashPool.Pool.SetWriteDeadline` | pool.go:52-55 | stores the deadline and returns nil |
| `LogstashPool.Pool.Close` | pool.go:57-61 | closes the channel pool and returns nil |
| `LogstashPool.Pool.WriteAttempt` | pool.go:69-90 | one `write` uses the next lease, and its result and effect are those given by `AttemptAt` |
| `LogstashPool.Pool.RetryWrite` | pool.go:92-99 | `retry` over `write`: result, number of leases used and effects are those of `Retry` over successive attempts |
| `LogstashPool.Pool.Write` | pool.go:63-67 | `Write` is `retry` with `maxRetries`: between one and four attempts on consecutive leases, each reading the clock afresh for the deadline decision, returning the first success or the last failure |
| `LogstashPool.NewPool` | pool.go:22-33 | if building the channel pool fails, the result is a nil pool with that error; otherwise a fresh pool with no error |
| `LogstashPool.WriteSampleData` | pool_test.go:106-123 | writing "sample data" to a reachable host returns n = 11 and no error |
| `LogstashPool.WriteAfterClose` | pool_test.go:125-145 | writing after the channel pool is closed fails with "pool is closed" |
| `LogstashPool.WriteWithDeadline` | pool_test.go:147-166 | a deadline set 500 ms after `now` is applied to the connection when the write reads the clock before it, and the write succeeds with n = 11 |

## Left out

- Real concurrency is not modelled. Goroutines, the channel, the `RWMutex` and the `WaitGroup` become sequential steps. Races between `Fire`, `Flush` and a late `Async`, and the shared/exclusive locking, are not represented.
- The wait-group counter is never seen between `Add` and the send, or between the receive and `Done`. In-flight entries therefore always count 0.
- `LogstashHook.Hook.AsyncBuffer` requires an empty queue. A second call while the old channel still holds entries is not modelled. In Go, each worker reads `h.buf` afresh on every receive, so after the switch both the old and the new worker take from the new channel. The entries left in the old channel are never received, the wait-group never drops back to 0, and `Flush` blocks forever.
- `LogstashHook.Writer.Write` either accepts all of the data or none of it. Partial writes by the hook's writer are not modelled, and `fire` ignores the count anyway.
- The writer's answer depends only on the bytes written, not on its history.
- The logrus formatter and `JSONFormatter` are opaque functions. `LogstashHook.SimpleFormat` does no escaping of any kind, where Go's `%#v` escapes quotes, backslashes and non-printable characters. The test messages contain none of these, so they need no escaping.
- `TraceLevel` is included in `AllLevels`. The logrus version is not part of this model.
- The diagnostic `fmt.Printf` of a failed buffered delivery is output only and is not modelled.
- `go-hostpool` is opaque. That covers its host selection policy, its health state and its `Close`. The factory's host requests and dials are given outcomes. Dialing with `connectTimeOut` is left to the dial oracle.
- The channel pool library is opaque. That covers its internals, prefilling to the initial capacity, the "invalid capacity settings" check and the "factory is not able to fill the pool" wrapping. `NewPool` receives the construction outcome as a parameter.
- `LogstashPool.NewPool` ignores `initialCap` and `maxCap` for the same reason.
- What `PoolConn.Close` does with a connection is opaque. The model records whether each used connection was evicted or put back.
- Once the channel pool is closed, every lease answers "pool is closed", as `TestWriteError` expects (pool_test.go:140). The lease index still advances.
- `LogstashPool.AttemptAt` returns the count a failed connection write reports as it is. The model does not bound it by the payload length, which `io.Writer` promises but `write` never checks.
- The network connection's write is a given outcome per lease. The effect of a write deadline on that outcome is not modelled.
- `UsePool` and `SetTimeout` are exercised by hook_test.go but are not defined in hook.go, so they are not part of this model.
- The timing-based tests that sleep are not modelled.
