/**
  The dispatch hook of the Logstash adapter: the mode switch (sync, async,
  async with a buffer), the `fire` composition of formatter and writer, the
  bounded FIFO buffer with its pending counter (Go's `sync.WaitGroup`), and
  the flush barrier.

  Goroutines are modelled as explicit steps: `ProcessBuffer` is one round of
  the background worker's loop, and `RunSpawned` runs one goroutine started
  by an unbuffered asynchronous `Fire`.
 */
module LogstashHook {
  import opened Types

  /** The logrus severities. */
  datatype Level = PanicLevel | FatalLevel | ErrorLevel | WarnLevel | InfoLevel | DebugLevel | TraceLevel

  /** `logrus.AllLevels`. */
  const AllLevels: seq<Level> := [PanicLevel, FatalLevel, ErrorLevel, WarnLevel, InfoLevel, DebugLevel, TraceLevel]

  /** Capacity of the buffer when `AsyncBuffer` is asked for size 0. */
  const DefaultBufSize: nat := 8192

  /** A log entry, immutable from the hook's point of view. */
  datatype Entry = Entry(message: string, level: Level)

  /** The answer of `Formatter.Format`. */
  datatype Formatted = Formatted(data: Bytes) | FormatFailed(err: Error)

  /** The formatter collaborator. */
  type Formatter = Entry -> Formatted

  /** How the writer collaborator answers a write of the given bytes: nil or an error. */
  type WritePolicy = Bytes -> Option<Error>

  /** What one delivery attempt does: the bytes the sink receives and the error `fire` returns. */
  datatype Outcome = Outcome(written: Bytes, err: Option<Error>)

  /** The delivery attempt `fire` makes for one entry. */
  function Attempt(format: Formatter, reject: WritePolicy, e: Entry): (o: Outcome)
  {
    match format(e)
    case FormatFailed(err) => Outcome([], Some(err))
    case Formatted(data) => if reject(data).None? then Outcome(data, None) else Outcome([], reject(data))
  }

  /** The bytes the sink receives when the entries are attempted one after another, in order. */
  function Delivered(format: Formatter, reject: WritePolicy, es: seq<Entry>): (sink: Bytes)
  {
    if es == [] then [] else Attempt(format, reject, es[0]).written + Delivered(format, reject, es[1..])
  }

  /** The chunks, concatenated in order. */
  function Flatten(chunks: seq<Bytes>): (joined: Bytes)
  {
    if chunks == [] then [] else chunks[0] + Flatten(chunks[1..])
  }

  /** The formatter's output for each entry, in order (nothing for an entry it refuses). */
  function Payloads(format: Formatter, es: seq<Entry>): (chunks: seq<Bytes>)
  {
    if es == [] then []
    else (if format(es[0]).Formatted? then [format(es[0]).data] else []) + Payloads(format, es[1..])
  }

  /** Attempting `a` and then `b` delivers what `a` delivers followed by what `b` delivers. */
  lemma {:induction false} DeliveredAppend(format: Formatter, reject: WritePolicy, a: seq<Entry>, b: seq<Entry>)
    ensures Delivered(format, reject, a + b) == Delivered(format, reject, a) + Delivered(format, reject, b)
  {
    if a == [] {
      assert a + b == b;
    } else {
      assert (a + b)[1..] == a[1..] + b;
      DeliveredAppend(format, reject, a[1..], b);
    }
  }

  /**
    FIFO: the bytes of entry `i` reach the sink right after those of every
    earlier entry and right before those of every later one.
   */
  lemma DeliveredInOrder(format: Formatter, reject: WritePolicy, es: seq<Entry>, i: nat)
    requires i < |es|
    ensures Delivered(format, reject, es)
         == Delivered(format, reject, es[..i]) + Attempt(format, reject, es[i]).written + Delivered(format, reject, es[i + 1..])
  {
    assert es == es[..i] + es[i..];
    DeliveredAppend(format, reject, es[..i], es[i..]);
    assert es[i..][1..] == es[i + 1..];
  }

  /** When the writer accepts every payload, the sink receives exactly the formatter's outputs, in order. */
  lemma {:induction false} DeliveredAllAccepted(format: Formatter, reject: WritePolicy, es: seq<Entry>)
    requires forall d :: reject(d).None?
    ensures Delivered(format, reject, es) == Flatten(Payloads(format, es))
  {
    if es != [] {
      DeliveredAllAccepted(format, reject, es[1..]);
      var head := if format(es[0]).Formatted? then [format(es[0]).data] else [];
      FlattenAppend(head, Payloads(format, es[1..]));
    }
  }

  lemma {:induction false} FlattenAppend(a: seq<Bytes>, b: seq<Bytes>)
    ensures Flatten(a + b) == Flatten(a) + Flatten(b)
  {
    if a == [] {
      assert a + b == b;
    } else {
      assert (a + b)[1..] == a[1..] + b;
      FlattenAppend(a[1..], b);
    }
  }

  /** A writer that refuses every write receives nothing, however many entries are attempted. */
  lemma {:induction false} DeliveredAllRejected(format: Formatter, reject: WritePolicy, es: seq<Entry>)
    requires forall d :: reject(d).Some?
    ensures Delivered(format, reject, es) == []
  {
    if es != [] {
      DeliveredAllRejected(format, reject, es[1..]);
    }
  }

  /**
    The writer collaborator (`io.Writer`) as an in-memory sink: `log` holds
    every byte it has accepted, and `reject` decides which writes fail.
   */
  class Writer {
    var log: Bytes
    const reject: WritePolicy

    constructor (reject: WritePolicy)
      ensures log == [] && this.reject == reject
    {
      log := [];
      this.reject := reject;
    }

    /** `Write`: an accepted write appends all of `data`; a refused one appends nothing. */
    method Write(data: Bytes) returns (n: int, err: Option<Error>)
      modifies this
      ensures err == reject(data)
      ensures err.None? ==> n == |data| && log == old(log) + data
      ensures err.Some? ==> n == 0 && log == old(log)
    {
      err := reject(data);
      if err.None? {
        log := log + data;
        n := |data|;
      } else {
        n := 0;
      }
    }
  }

  /** The Logstash hook (`Hook` in hook.go). */
  class Hook {
    const writer: Writer
    const formatter: Formatter
    var levels: seq<Level>
    var async: bool
    /** Whether `buf` is a channel (true) or nil (false). */
    var buffered: bool
    /** The channel's capacity. */
    var capacity: nat
    /** The entries sitting in the channel, oldest first. */
    var queue: seq<Entry>
    /** The counter of `wg`. */
    var pending: nat
    /** Entries whose `go h.fire(entry)` goroutine has not run yet. */
    var spawned: seq<Entry>

    /**
      A channel exists only in async mode, holds at most its capacity, and
      the wait-group counts exactly the entries still in it (an entry is
      taken, attempted and counted down in one worker step).
     */
    ghost predicate Valid()
      reads this
    {
      (buffered ==> async && capacity > 0 && |queue| <= capacity) &&
      (!buffered ==> capacity == 0 && queue == []) &&
      pending == |queue|
    }

    /** `New`: synchronous, every level, no buffer. */
    constructor New(w: Writer, f: Formatter)
      ensures Valid()
      ensures writer == w && formatter == f
      ensures levels == AllLevels && !async && !buffered
      ensures queue == [] && pending == 0 && spawned == []
    {
      writer := w;
      formatter := f;
      levels := AllLevels;
      async := false;
      buffered := false;
      capacity := 0;
      queue := [];
      pending := 0;
      spawned := [];
    }

    /**
      `fire`: format, and write only if formatting succeeded. A formatter
      error is returned and the writer is never called; otherwise the writer
      receives exactly the formatted bytes and its error is returned as is.
     */
    method Deliver(e: Entry) returns (err: Option<Error>)
      modifies writer
      ensures formatter(e).FormatFailed? ==> err == Some(formatter(e).err) && unchanged(writer)
      ensures formatter(e).Formatted? ==> err == writer.reject(formatter(e).data)
      ensures formatter(e).Formatted? && err.None? ==> writer.log == old(writer.log) + formatter(e).data
      ensures err == Attempt(formatter, writer.reject, e).err
      ensures writer.log == old(writer.log) + Attempt(formatter, writer.reject, e).written
    {
      var f := formatter(e);
      if f.FormatFailed? {
        return Some(f.err);
      }
      var n;
      n, err := writer.Write(f.data);
    }

    /**
      `Fire`. In sync mode it returns exactly what `fire` returns. In either
      async mode it returns nil whatever happens to the entry: unbuffered,
      a delivery goroutine is started and the sink is untouched; buffered,
      the entry is counted and appended at the tail of the queue, and when
      the queue is full the send waits until the worker has taken the head.
     */
    method Fire(e: Entry) returns (err: Option<Error>)
      requires Valid()
      modifies this, writer
      ensures Valid()
      ensures levels == old(levels) && async == old(async) && buffered == old(buffered) && capacity == old(capacity)
      ensures !async ==> err == Attempt(formatter, writer.reject, e).err
      ensures !async ==> writer.log == old(writer.log) + Attempt(formatter, writer.reject, e).written
      ensures !async ==> queue == old(queue) && pending == old(pending) && spawned == old(spawned)
      ensures async ==> err == None
      ensures async && !buffered ==> spawned == old(spawned) + [e] && unchanged(writer) && queue == old(queue)
      ensures async && buffered ==> spawned == old(spawned) && pending == |queue|
      ensures async && buffered && |old(queue)| < capacity ==>
                queue == old(queue) + [e] && pending == old(pending) + 1 && unchanged(writer)
      ensures async && buffered && |old(queue)| == capacity ==>
                queue == old(queue)[1..] + [e] && pending == old(pending)
                && writer.log == old(writer.log) + Attempt(formatter, writer.reject, old(queue)[0]).written
    {
      if !async {
        err := Deliver(e);
        return;
      }
      if buffered {
        if |queue| == capacity {
          // the send blocks until the worker has received the head
          var _ := ProcessBuffer();
        }
        pending := pending + 1;
        queue := queue + [e];
      } else {
        spawned := spawned + [e];
      }
      err := None;
    }

    /** `Levels`: the levels the hook fires for, as `New` or the last `SetLevels` left them. */
    function Levels(): (ls: seq<Level>)
      reads this
      ensures ls == levels
    {
      levels
    }

    /** `SetLevels`: afterwards `Levels()` answers `l`; nothing else changes. */
    method SetLevels(l: seq<Level>)
      requires Valid()
      modifies this
      ensures Valid() && Levels() == l
      ensures async == old(async) && buffered == old(buffered) && capacity == old(capacity)
      ensures queue == old(queue) && pending == old(pending) && spawned == old(spawned)
    {
      levels := l;
    }

    /** `Async`: switches to asynchronous delivery; nothing else changes. */
    method Async()
      requires Valid()
      modifies this
      ensures Valid() && async
      ensures levels == old(levels) && buffered == old(buffered) && capacity == old(capacity)
      ensures queue == old(queue) && pending == old(pending) && spawned == old(spawned)
    {
      async := true;
    }

    /**
      `AsyncBuffer`: switches to asynchronous delivery through a fresh,
      empty channel of `bufsize` entries, or of the default size when
      `bufsize` is 0, and starts the worker.
     */
    method AsyncBuffer(bufsize: nat)
      requires Valid() && queue == []
      modifies this
      ensures Valid() && async && buffered
      ensures capacity == if bufsize == 0 then DefaultBufSize else bufsize
      ensures queue == [] && pending == 0
      ensures levels == old(levels) && spawned == old(spawned)
    {
      var bsize := bufsize;
      if bsize <= 0 {
        bsize := DefaultBufSize;
      }
      Async();
      buffered := true;
      capacity := bsize;
      queue := [];
    }

    /**
      One round of `processBuffer`: when the channel holds an entry, take
      the head, attempt it and count it down whether or not it failed (a
      failure only goes to the diagnostic output). With an empty channel
      the worker stays blocked and nothing changes.
     */
    method ProcessBuffer() returns (ran: bool)
      requires Valid()
      modifies this, writer
      ensures Valid()
      ensures ran == (old(queue) != [])
      ensures levels == old(levels) && async == old(async) && buffered == old(buffered)
      ensures capacity == old(capacity) && spawned == old(spawned)
      ensures ran ==> queue == old(queue)[1..] && pending == old(pending) - 1
      ensures ran ==> writer.log == old(writer.log) + Attempt(formatter, writer.reject, old(queue)[0]).written
      ensures !ran ==> unchanged(this) && unchanged(writer)
    {
      if queue == [] {
        return false;
      }
      var e := queue[0];
      queue := queue[1..];
      var _ := Deliver(e);
      pending := pending - 1;
      ran := true;
    }

    /** The goroutine started by an unbuffered asynchronous `Fire` for `spawned[i]` runs `fire`. */
    method RunSpawned(i: nat)
      requires Valid() && i < |spawned|
      modifies this, writer
      ensures Valid()
      ensures spawned == old(spawned[..i] + spawned[i + 1..])
      ensures writer.log == old(writer.log) + Attempt(formatter, writer.reject, old(spawned[i])).written
      ensures levels == old(levels) && async == old(async) && buffered == old(buffered)
      ensures capacity == old(capacity) && queue == old(queue) && pending == old(pending)
    {
      var e := spawned[i];
      spawned := spawned[..i] + spawned[i + 1..];
      var _ := Deliver(e);
    }

    /**
      `Flush`. Without a buffer (sync, or async unbuffered) it returns at
      once and changes nothing. Otherwise it waits until the counter is 0:
      every entry queued before the call has then been attempted, in FIFO
      order, and the sink has received what those attempts delivered.
     */
    method Flush()
      requires Valid()
      modifies this, writer
      ensures Valid()
      ensures !old(async) || !old(buffered) ==> unchanged(this) && unchanged(writer)
      ensures old(async) && old(buffered) ==>
                pending == 0 && queue == []
                && writer.log == old(writer.log) + Delivered(formatter, writer.reject, old(queue))
      ensures levels == old(levels) && async == old(async) && buffered == old(buffered)
      ensures capacity == old(capacity) && spawned == old(spawned)
    {
      if !async || !buffered {
        return;
      }
      ghost var q0 := queue;
      ghost var log0 := writer.log;
      while pending > 0
        invariant Valid() && async && buffered
        invariant levels == old(levels) && capacity == old(capacity) && spawned == old(spawned)
        invariant |queue| <= |q0| && queue == q0[|q0| - |queue|..]
        invariant writer.log == log0 + Delivered(formatter, writer.reject, q0[..|q0| - |queue|])
        decreases pending
      {
        ghost var k := |q0| - |queue|;
        var _ := ProcessBuffer();
        DeliveredAppend(formatter, writer.reject, q0[..k], [q0[k]]);
        assert q0[..k + 1] == q0[..k] + [q0[k]];
      }
      assert q0[..|q0|] == q0;
    }
  }

  /** The test formatter: `msg: "<message>"` (messages that need no escaping). */
  function SimpleFormat(e: Entry): (f: Formatted)
  {
    Formatted(BytesOf("msg: \"" + e.message + "\""))
  }

  /** The test formatter that always fails with an empty message. */
  function FailFormat(e: Entry): (f: Formatted)
  {
    FormatFailed(Error("", NotNetError))
  }

  /** A `bytes.Buffer`: accepts every write. */
  function AcceptAll(data: Bytes): (err: Option<Error>)
  {
    None
  }

  /** The test writer that fails every write. */
  function FailWrite(data: Bytes): (err: Option<Error>)
  {
    Some(Error("failed to write", NotNetError))
  }

  /** A synchronous hook over a buffer writes `msg: "my message"` and reports no error. */
  method FireSyncToBuffer() returns (err: Option<Error>, log: Bytes)
    ensures err == None && log == BytesOf("msg: \"my message\"")
  {
    var w := new Writer(AcceptAll);
    var h := new Hook.New(w, SimpleFormat);
    err := h.Fire(Entry("my message", InfoLevel));
    h.Flush();
    log := w.log;
    assert "msg: \"" + "my message" + "\"" == "msg: \"my message\"";
  }

  /** A synchronous hook surfaces a formatter failure and writes nothing. */
  method FireSyncFormatError() returns (err: Option<Error>, log: Bytes)
    ensures err.Some? && log == []
  {
    var w := new Writer(AcceptAll);
    var h := new Hook.New(w, FailFormat);
    err := h.Fire(Entry("", InfoLevel));
    h.Flush();
    log := w.log;
  }

  /** A synchronous hook surfaces a writer failure. */
  method FireSyncWriteError() returns (err: Option<Error>)
    ensures err == Some(Error("failed to write", NotNetError))
  {
    var w := new Writer(FailWrite);
    var h := new Hook.New(w, SimpleFormat);
    err := h.Fire(Entry("", InfoLevel));
  }

  /** A buffered asynchronous hook hides a writer failure from the caller. */
  method FireBufferedWriteError() returns (err: Option<Error>, log: Bytes)
    ensures err == None && log == []
  {
    var w := new Writer(FailWrite);
    var h := new Hook.New(w, SimpleFormat);
    h.AsyncBuffer(10);
    err := h.Fire(Entry("", InfoLevel));
    h.Flush();
    log := w.log;
    DeliveredAllRejected(SimpleFormat, FailWrite, [Entry("", InfoLevel)]);
  }

  /** `AsyncBuffer(0)`, `Fire` and `Flush`: the default-size buffer delivers the entry before `Flush` returns. */
  method FireBufferedToBuffer() returns (err: Option<Error>, capacity: nat, log: Bytes)
    ensures err == None && capacity == 8192 && log == BytesOf("msg: \"my async message\"")
  {
    var w := new Writer(AcceptAll);
    var h := new Hook.New(w, SimpleFormat);
    h.AsyncBuffer(0);
    capacity := h.capacity;
    err := h.Fire(Entry("my async message", InfoLevel));
    h.Flush();
    log := w.log;
    assert "msg: \"" + "my async message" + "\"" == "msg: \"my async message\"";
  }
}
