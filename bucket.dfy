/**
 * The batching engine of package `bucket`: configuration defaults, the bounded
 * intake, the per-worker accumulate-and-flush state machine and the
 * aggregation of the workers' results.
 *
 * Real time, goroutines and channel blocking are not modelled directly. A
 * worker is driven by the sequence of `select` cases that fire for it (an item
 * received, a tick, the intake closed, the context cancelled); the handler is
 * an oracle that answers each batch given the batches that worker handed over
 * before it.
 */
module Bucket {
  import opened Errors

  const DefaultBatchSize := 100
  /** `time.Second`: durations are `time.Duration`, counted in nanoseconds. */
  const Second := 1_000_000_000
  const DefaultTimeout := 5 * Second
  const DefaultWorkerNum := 1

  /** A value of the `Config` struct. */
  datatype Settings = Settings(batchSize: int, timeout: int, workerNum: int)
  {
    predicate Positive() {
      batchSize > 0 && timeout > 0 && workerNum > 0
    }
  }

  /** The configuration `New` leaves behind: each non-positive field is replaced by its default. */
  function Defaults(s: Settings): (r: Settings)
    ensures r.Positive()
    ensures s.batchSize > 0 ==> r.batchSize == s.batchSize
    ensures s.batchSize <= 0 ==> r.batchSize == DefaultBatchSize
    ensures s.timeout > 0 ==> r.timeout == s.timeout
    ensures s.timeout <= 0 ==> r.timeout == DefaultTimeout
    ensures s.workerNum > 0 ==> r.workerNum == s.workerNum
    ensures s.workerNum <= 0 ==> r.workerNum == DefaultWorkerNum
  {
    Settings(
      if s.batchSize <= 0 then DefaultBatchSize else s.batchSize,
      if s.timeout <= 0 then DefaultTimeout else s.timeout,
      if s.workerNum <= 0 then DefaultWorkerNum else s.workerNum)
  }

  /** Defaulting twice is defaulting once; a positive configuration is left alone. */
  lemma DefaultsIdempotent(s: Settings)
    ensures Defaults(Defaults(s)) == Defaults(s)
    ensures s.Positive() ==> Defaults(s) == s
  {
  }

  /** The caller's `*Config`, which `New` updates in place. */
  class Config {
    var batchSize: int
    var timeout: int
    var workerNum: int

    constructor (batchSize: int, timeout: int, workerNum: int)
      ensures Value() == Settings(batchSize, timeout, workerNum)
    {
      this.batchSize := batchSize;
      this.timeout := timeout;
      this.workerNum := workerNum;
    }

    function Value(): Settings
      reads this
    {
      Settings(batchSize, timeout, workerNum)
    }
  }

  /** What a send on the intake channel does at this moment. */
  datatype Send = Delivered | MustWait | Panics

  /** What a receive from the intake channel yields at this moment. */
  datatype Receipt<T> = Got(item: T) | Drained | NothingYet

  /**
   * A bucket: the configuration copied at creation and the intake channel,
   * whose buffer holds the items sent and not yet received.
   */
  class Bucket<T> {
    const cfg: Settings
    var intake: seq<T>
    var closed: bool

    ghost predicate Valid()
      reads this
    {
      cfg.Positive() && |intake| <= Capacity()
    }

    /** The intake's buffer size: `make(chan T, cfg.BatchSize)`. */
    function Capacity(): int {
      cfg.batchSize
    }

    /** `New`: defaults the caller's configuration in place and copies it. */
    constructor New(c: Config)
      modifies c
      ensures c.Value() == Defaults(old(c.Value()))
      ensures cfg == c.Value() && Capacity() == c.batchSize
      ensures Valid() && intake == [] && !closed
    {
      if c.batchSize <= 0 {
        c.batchSize := DefaultBatchSize;
      }
      if c.timeout <= 0 {
        c.timeout := DefaultTimeout;
      }
      if c.workerNum <= 0 {
        c.workerNum := DefaultWorkerNum;
      }
      cfg := Settings(c.batchSize, c.timeout, c.workerNum);
      intake := [];
      closed := false;
    }

    /**
     * `Consume`: a send on the intake. It panics on a closed intake and has to
     * wait (nothing changes yet) while the buffer is full.
     */
    method Consume(item: T) returns (r: Send)
      requires Valid()
      modifies this
      ensures Valid() && closed == old(closed)
      ensures old(closed) ==> r == Panics && intake == old(intake)
      ensures !old(closed) && |old(intake)| < Capacity() ==> r == Delivered && intake == old(intake) + [item]
      ensures !old(closed) && |old(intake)| >= Capacity() ==> r == MustWait && intake == old(intake)
    {
      if closed {
        r := Panics;
      } else if |intake| < cfg.batchSize {
        intake := intake + [item];
        r := Delivered;
      } else {
        r := MustWait;
      }
    }

    /** `Close`: closing an intake that is already closed panics. */
    method Close() returns (r: Send)
      requires Valid()
      modifies this
      ensures Valid() && closed && intake == old(intake)
      ensures r == if old(closed) then Panics else Delivered
    {
      r := if closed then Panics else Delivered;
      closed := true;
    }

    /**
     * A worker's receive: items come out in the order they were sent, and
     * still do after closing; only a closed and empty intake reports the end.
     */
    method Receive() returns (r: Receipt<T>)
      requires Valid()
      modifies this
      ensures Valid() && closed == old(closed)
      ensures old(intake) != [] ==> r == Got(old(intake)[0]) && intake == old(intake)[1..]
      ensures old(intake) == [] ==> intake == [] && r == if closed then Drained else NothingYet
    {
      if intake != [] {
        r := Got(intake[0]);
        intake := intake[1..];
      } else {
        r := if closed then Drained else NothingYet;
      }
    }
  }

  // ---------------------------------------------------------------------------
  // One worker
  // ---------------------------------------------------------------------------

  /** The `select` case that fires for a worker. */
  datatype Event<T> = Cancelled | Tick | Received(item: T) | IntakeClosed
  {
    predicate Terminal() {
      Cancelled? || IntakeClosed?
    }
  }

  /**
   * The handler (`ProcessFunc`): its answer to a batch, given the batches this
   * worker handed to it before.
   */
  type Handler<-T> = (seq<seq<T>>, seq<T>) -> Outcome

  /**
   * A worker's local state: its buffer (`queue`), every batch it handed to the
   * handler so far, and whether it has returned.
   */
  datatype WorkerState<T> = WorkerState(queue: seq<T>, handled: seq<seq<T>>, exit: Exit)

  function Idle<T>(): WorkerState<T> {
    WorkerState([], [], Running)
  }

  /**
   * The `flush` closure: the handler sees the buffer only when the buffer is
   * not empty, and the buffer is emptied only when the handler succeeds.
   */
  function Flush<T>(handler: Handler<T>, s: WorkerState<T>): (r: (Outcome, WorkerState<T>))
    ensures r.1.exit == s.exit
    ensures s.queue == [] ==> r == (Pass, s)
    ensures s.queue != [] ==> r.0 == handler(s.handled, s.queue) && r.1.handled == s.handled + [s.queue]
    ensures r.1.queue == if r.0.Pass? then [] else s.queue
  {
    if |s.queue| > 0 then
      var o := handler(s.handled, s.queue);
      (o, s.(handled := s.handled + [s.queue], queue := if o.Pass? then [] else s.queue))
    else
      (Pass, s)
  }

  /** One turn of the worker's `for`/`select` loop. */
  function Step<T>(batchSize: nat, handler: Handler<T>, s: WorkerState<T>, e: Event<T>): WorkerState<T>
    requires s.exit.Running?
  {
    match e
    case Cancelled =>
      var (o, t) := Flush(handler, s);
      t.(exit := Stopped(o))
    case IntakeClosed =>
      var (o, t) := Flush(handler, s);
      t.(exit := Stopped(o))
    case Tick =>
      var (o, t) := Flush(handler, s);
      if o.Fail? then t.(exit := Stopped(o)) else t
    case Received(x) =>
      var t := s.(queue := s.queue + [x]);
      if |t.queue| >= batchSize then
        var (o, u) := Flush(handler, t);
        if o.Fail? then u.(exit := Stopped(o)) else u
      else
        t
  }

  /** The worker's state after the given `select` cases, starting from `s`. */
  function Execute<T>(batchSize: nat, handler: Handler<T>, s: WorkerState<T>, events: seq<Event<T>>): WorkerState<T>
    decreases |events|
  {
    if events == [] || !s.exit.Running? then s
    else Execute(batchSize, handler, Step(batchSize, handler, s, events[0]), events[1..])
  }

  /** `worker`: runs the `select` loop over the cases that fire, until it returns or the cases run out. */
  method Worker<T>(batchSize: nat, handler: Handler<T>, events: seq<Event<T>>)
    returns (queue: seq<T>, handled: seq<seq<T>>, exit: Exit)
    requires batchSize > 0
    ensures WorkerState(queue, handled, exit) == Execute(batchSize, handler, Idle(), events)
  {
    queue, handled, exit := [], [], Running;
    var i := 0;
    while i < |events| && exit.Running?
      invariant 0 <= i <= |events|
      invariant Execute(batchSize, handler, Idle(), events)
             == Execute(batchSize, handler, WorkerState(queue, handled, exit), events[i..])
    {
      ghost var before := WorkerState(queue, handled, exit);
      assert events[i..][0] == events[i] && events[i..][1..] == events[i + 1..];
      match events[i] {
        case Cancelled =>
          var (o, t) := Flush(handler, WorkerState(queue, handled, exit));
          queue, handled, exit := t.queue, t.handled, Stopped(o);
        case IntakeClosed =>
          var (o, t) := Flush(handler, WorkerState(queue, handled, exit));
          queue, handled, exit := t.queue, t.handled, Stopped(o);
        case Tick =>
          var (o, t) := Flush(handler, WorkerState(queue, handled, exit));
          queue, handled := t.queue, t.handled;
          if o.Fail? {
            exit := Stopped(o);
          }
        case Received(x) =>
          queue := queue + [x];
          if |queue| >= batchSize {
            var (o, t) := Flush(handler, WorkerState(queue, handled, exit));
            queue, handled := t.queue, t.handled;
            if o.Fail? {
              exit := Stopped(o);
            }
          }
      }
      assert WorkerState(queue, handled, exit) == Step(batchSize, handler, before, events[i]);
      i := i + 1;
    }
  }

  // ---------------------------------------------------------------------------
  // What a worker promises
  // ---------------------------------------------------------------------------

  ghost predicate BatchesFit<T>(batchSize: nat, s: WorkerState<T>) {
    && (forall k :: 0 <= k < |s.handled| ==> 1 <= |s.handled[k]| <= batchSize)
    && |s.queue| <= batchSize
    && (s.exit.Running? ==> |s.queue| < batchSize)
  }

  /**
   * Every batch handed to the handler has between 1 and `batchSize` items, and
   * while the worker runs its buffer stays below `batchSize`.
   */
  lemma {:induction false} WorkerBatchBounds<T>(batchSize: nat, handler: Handler<T>, s: WorkerState<T>, events: seq<Event<T>>)
    requires batchSize > 0 && BatchesFit(batchSize, s)
    ensures BatchesFit(batchSize, Execute(batchSize, handler, s, events))
    decreases |events|
  {
    if events != [] && s.exit.Running? {
      var t := Step(batchSize, handler, s, events[0]);
      assert BatchesFit(batchSize, t);
      WorkerBatchBounds(batchSize, handler, t, events[1..]);
    }
  }

  /** A tick flushes whatever is buffered, partial or not; the worker goes on unless that flush fails. */
  lemma TickFlushesPartialBatch<T>(batchSize: nat, handler: Handler<T>, s: WorkerState<T>)
    requires s.exit.Running? && s.queue != []
    ensures var t := Step(batchSize, handler, s, Tick);
      && t.handled == s.handled + [s.queue]
      && (t.exit.Running? <==> handler(s.handled, s.queue).Pass?)
      && (t.exit.Running? ==> t.queue == [])
      && (!t.exit.Running? ==> t.exit == Stopped(handler(s.handled, s.queue)))
  {
  }

  /** On closure or cancellation the worker flushes its buffer once and returns that flush's result. */
  lemma TerminalFlushesOnce<T>(batchSize: nat, handler: Handler<T>, s: WorkerState<T>, e: Event<T>, rest: seq<Event<T>>)
    requires s.exit.Running? && e.Terminal()
    ensures var t := Execute(batchSize, handler, s, [e] + rest);
      && t.handled == s.handled + (if s.queue == [] then [] else [s.queue])
      && t.exit == Stopped(if s.queue == [] then Pass else handler(s.handled, s.queue))
  {
    assert ([e] + rest)[0] == e && ([e] + rest)[1..] == rest;
  }

  /** A worker whose `select` cases include closure or cancellation has returned. */
  lemma {:induction false} WorkerStopsOnTerminal<T>(batchSize: nat, handler: Handler<T>, s: WorkerState<T>, events: seq<Event<T>>, k: nat)
    requires k < |events| && events[k].Terminal()
    ensures Execute(batchSize, handler, s, events).exit.Stopped?
    decreases |events|
  {
    if s.exit.Running? {
      if k == 0 {
        var t := Step(batchSize, handler, s, events[0]);
        assert t.exit.Stopped?;
      } else {
        WorkerStopsOnTerminal(batchSize, handler, Step(batchSize, handler, s, events[0]), events[1..], k - 1);
      }
    }
  }

  /**
   * The handler log: while the worker runs, or once it returned nil, every
   * handler call succeeded; once it returned an error, that error is the
   * answer to the last batch and every earlier call succeeded.
   */
  ghost predicate LogAgrees<T>(handler: Handler<T>, s: WorkerState<T>) {
    var h := s.handled;
    && (s.exit.Running? || s.exit == Stopped(Pass) ==>
          forall k :: 0 <= k < |h| ==> handler(h[..k], h[k]).Pass?)
    && (s.exit.Stopped? && s.exit.result.Fail? ==>
          && |h| > 0
          && handler(h[..|h| - 1], h[|h| - 1]) == s.exit.result
          && forall k :: 0 <= k < |h| - 1 ==> handler(h[..k], h[k]).Pass?)
  }

  /** Appending one batch to the log leaves every earlier prefix as it was. */
  lemma LogSnoc<T>(h: seq<seq<T>>, q: seq<T>)
    ensures (h + [q])[..|h|] == h && (h + [q])[|h|] == q
    ensures forall k :: 0 <= k < |h| ==> (h + [q])[..k] == h[..k] && (h + [q])[k] == h[k]
  {
  }

  lemma StepKeepsLog<T>(batchSize: nat, handler: Handler<T>, s: WorkerState<T>, e: Event<T>)
    requires s.exit.Running? && LogAgrees(handler, s)
    ensures LogAgrees(handler, Step(batchSize, handler, s, e))
  {
    match e
    case Received(x) =>
      LogSnoc(s.handled, s.queue + [x]);
    case _ =>
      LogSnoc(s.handled, s.queue);
  }

  lemma {:induction false} WorkerLog<T>(batchSize: nat, handler: Handler<T>, s: WorkerState<T>, events: seq<Event<T>>)
    requires LogAgrees(handler, s)
    ensures LogAgrees(handler, Execute(batchSize, handler, s, events))
    decreases |events|
  {
    if events != [] && s.exit.Running? {
      StepKeepsLog(batchSize, handler, s, events[0]);
      WorkerLog(batchSize, handler, Step(batchSize, handler, s, events[0]), events[1..]);
    }
  }

  /** A worker that has returned returned nil exactly when every handler call it made succeeded. */
  lemma WorkerSucceedsIff<T>(batchSize: nat, handler: Handler<T>, events: seq<Event<T>>)
    ensures var t := Execute(batchSize, handler, Idle(), events);
      t.exit.Stopped? ==>
        (t.exit.result.Pass? <==> forall k :: 0 <= k < |t.handled| ==> handler(t.handled[..k], t.handled[k]).Pass?)
  {
    WorkerLog(batchSize, handler, Idle(), events);
  }

  // ---------------------------------------------------------------------------
  // One worker, no ticks, a handler that always succeeds
  // ---------------------------------------------------------------------------

  ghost predicate AlwaysSucceeds<T(!new)>(handler: Handler<T>) {
    forall done, batch :: handler(done, batch).Pass?
  }

  function Concat<T>(ss: seq<seq<T>>): (r: seq<T>) {
    if ss == [] then [] else ss[0] + Concat(ss[1..])
  }

  lemma {:induction false} ConcatSnoc<T>(ss: seq<seq<T>>, s: seq<T>)
    ensures Concat(ss + [s]) == Concat(ss) + s
  {
    if ss == [] {
      assert [] + [s] == [s];
    } else {
      assert (ss + [s])[0] == ss[0] && (ss + [s])[1..] == ss[1..] + [s];
      ConcatSnoc(ss[1..], s);
    }
  }

  /** The items received before the first closure or cancellation, in order. */
  function ReceivedItems<T>(events: seq<Event<T>>): seq<T> {
    if events == [] then []
    else match events[0]
      case Received(x) => [x] + ReceivedItems(events[1..])
      case Tick => ReceivedItems(events[1..])
      case _ => []
  }

  lemma StepPreservesOrder<T(!new)>(batchSize: nat, handler: Handler<T>, s: WorkerState<T>, e: Event<T>)
    requires batchSize > 0 && AlwaysSucceeds(handler) && s.exit.Running?
    ensures var t := Step(batchSize, handler, s, e);
      && Concat(t.handled) + t.queue == Concat(s.handled) + s.queue + (if e.Received? then [e.item] else [])
      && (e.Terminal() ==> t.queue == [] && t.exit == Stopped(Pass))
      && (!e.Terminal() ==> t.exit.Running?)
  {
    match e
    case Received(x) =>
      ConcatSnoc(s.handled, s.queue + [x]);
    case _ =>
      ConcatSnoc(s.handled, s.queue);
  }

  /**
   * With a handler that never fails, nothing is lost or reordered: the batches
   * handed over followed by the buffer are exactly the items received. Once
   * the worker has returned, the buffer is empty.
   */
  lemma {:induction false} WorkerPreservesOrder<T(!new)>(batchSize: nat, handler: Handler<T>, s: WorkerState<T>, events: seq<Event<T>>)
    requires batchSize > 0 && AlwaysSucceeds(handler) && s.exit.Running?
    ensures var t := Execute(batchSize, handler, s, events);
      && Concat(t.handled) + t.queue == Concat(s.handled) + s.queue + ReceivedItems(events)
      && (t.exit.Stopped? ==> t.queue == [] && t.exit == Stopped(Pass))
    decreases |events|
  {
    if events != [] {
      var e := events[0];
      var t := Step(batchSize, handler, s, e);
      StepPreservesOrder(batchSize, handler, s, e);
      if !e.Terminal() {
        WorkerPreservesOrder(batchSize, handler, t, events[1..]);
        var pre := Concat(s.handled) + s.queue;
        if e.Received? {
          assert ReceivedItems(events) == [e.item] + ReceivedItems(events[1..]);
          assert pre + [e.item] + ReceivedItems(events[1..]) == pre + ([e.item] + ReceivedItems(events[1..]));
        } else {
          assert ReceivedItems(events) == ReceivedItems(events[1..]);
        }
      } else {
        assert ReceivedItems(events) == [];
      }
    }
  }

  /** The consecutive chunks of `batchSize` items of `xs`, the remainder last. */
  function Chunks<T>(xs: seq<T>, batchSize: nat): seq<seq<T>>
    requires batchSize > 0
    decreases |xs|
  {
    if xs == [] then []
    else if |xs| <= batchSize then [xs]
    else [xs[..batchSize]] + Chunks(xs[batchSize..], batchSize)
  }

  /** The chunks put back together give `xs` again. */
  lemma {:induction false} ChunksConcat<T>(xs: seq<T>, batchSize: nat)
    requires batchSize > 0
    ensures Concat(Chunks(xs, batchSize)) == xs
    decreases |xs|
  {
    if |xs| > batchSize {
      var rest := Chunks(xs[batchSize..], batchSize);
      ChunksConcat(xs[batchSize..], batchSize);
      var c := [xs[..batchSize]] + rest;
      assert Chunks(xs, batchSize) == c;
      assert c[0] == xs[..batchSize] && c[1..] == rest;
      assert Concat(c) == xs[..batchSize] + Concat(rest);
      assert xs == xs[..batchSize] + xs[batchSize..];
    } else if xs != [] {
      var c := [xs];
      assert Chunks(xs, batchSize) == c;
      assert c[1..] == [];
      assert Concat(c) == xs + [];
      assert xs + [] == xs;
    }
  }

  /**
   * Every chunk but the last has exactly `batchSize` items, the last between 1
   * and `batchSize`, and `|xs| == (|c| - 1) * batchSize + |last|`: there are
   * ceil(|xs| / batchSize) chunks and the last holds the remainder.
   */
  lemma {:induction false} ChunksSizes<T>(xs: seq<T>, batchSize: nat)
    requires batchSize > 0
    ensures var c := Chunks(xs, batchSize);
      && (c == [] <==> xs == [])
      && (forall k :: 0 <= k < |c| - 1 ==> |c[k]| == batchSize)
      && (c != [] ==> 1 <= |c[|c| - 1]| <= batchSize && |xs| == (|c| - 1) * batchSize + |c[|c| - 1]|)
    decreases |xs|
  {
    if |xs| > batchSize {
      var rest := Chunks(xs[batchSize..], batchSize);
      ChunksSizes(xs[batchSize..], batchSize);
      var c := Chunks(xs, batchSize);
      assert c == [xs[..batchSize]] + rest;
      assert forall k :: 1 <= k < |c| ==> c[k] == rest[k - 1];
      assert |c| == |rest| + 1 && c[|c| - 1] == rest[|rest| - 1];
      var m := |rest| - 1;
      assert (|c| - 1) * batchSize == m * batchSize + batchSize;
    }
  }

  /** The items as `Received` cases, one per item, in order. */
  function Deliveries<T>(items: seq<T>): (r: seq<Event<T>>)
    ensures |r| == |items|
  {
    if items == [] then [] else [Received(items[0])] + Deliveries(items[1..])
  }

  /** Deliveries are received, in order, and contain no closure. */
  lemma {:induction false} DeliveriesReceived<T>(items: seq<T>, tail: seq<Event<T>>)
    ensures ReceivedItems(Deliveries(items) + tail) == items + ReceivedItems(tail)
  {
    if items != [] {
      var d := Deliveries(items) + tail;
      assert d[0] == Received(items[0]) && d[1..] == Deliveries(items[1..]) + tail;
      DeliveriesReceived(items[1..], tail);
      assert ReceivedItems(d) == [items[0]] + ReceivedItems(d[1..]);
      assert items == [items[0]] + items[1..];
    } else {
      assert Deliveries(items) + tail == tail;
    }
  }

  /**
   * Central property: one worker, no ticks, every flush succeeding. Receiving
   * `items` and then the closure, starting from a buffer `s.queue`, hands over
   * exactly the chunks of `s.queue + items` and returns nil.
   */
  lemma {:induction false} SingleWorkerBatches<T(!new)>(batchSize: nat, handler: Handler<T>, s: WorkerState<T>, items: seq<T>)
    requires batchSize > 0 && AlwaysSucceeds(handler) && s.exit.Running? && |s.queue| < batchSize
    ensures Execute(batchSize, handler, s, Deliveries(items) + [IntakeClosed])
         == WorkerState([], s.handled + Chunks(s.queue + items, batchSize), Stopped(Pass))
    decreases |items|
  {
    var events := Deliveries(items) + [IntakeClosed];
    if items == [] {
      assert events == [IntakeClosed];
      assert s.queue + items == s.queue;
    } else {
      var x, rest := items[0], items[1..];
      assert events[0] == Received(x) && events[1..] == Deliveries(rest) + [IntakeClosed];
      var t := s.queue + [x];
      assert s.queue + items == t + rest;
      var next := Step(batchSize, handler, s, Received(x));
      if |t| >= batchSize {
        assert next == WorkerState([], s.handled + [t], Running);
        SingleWorkerBatches(batchSize, handler, next, rest);
        assert [] + rest == rest;
        if rest == [] {
          assert t + rest == t && |t| == batchSize;
          assert Chunks(t + rest, batchSize) == [t];
        } else {
          assert (t + rest)[..batchSize] == t && (t + rest)[batchSize..] == rest;
          assert Chunks(t + rest, batchSize) == [t] + Chunks(rest, batchSize);
        }
        assert s.handled + [t] + Chunks(rest, batchSize) == s.handled + ([t] + Chunks(rest, batchSize));
      } else {
        assert next == WorkerState(t, s.handled, Running);
        SingleWorkerBatches(batchSize, handler, next, rest);
      }
    }
  }

  /**
   * Submitting `items` to one worker and closing: the batches are the
   * consecutive `batchSize`-chunks of `items` in order, and put together they
   * give back `items`.
   */
  lemma SingleWorkerRun<T(!new)>(batchSize: nat, handler: Handler<T>, items: seq<T>)
    requires batchSize > 0 && AlwaysSucceeds(handler)
    ensures var t := Execute(batchSize, handler, Idle(), Deliveries(items) + [IntakeClosed]);
      && t.exit == Stopped(Pass)
      && t.handled == Chunks(items, batchSize)
      && Concat(t.handled) == items
      && (forall k :: 0 <= k < |t.handled| - 1 ==> |t.handled[k]| == batchSize)
    ensures ReceivedItems(Deliveries(items) + [IntakeClosed]) == items
  {
    DeliveriesReceived(items, [IntakeClosed]);
    assert ReceivedItems<T>([IntakeClosed]) == [];
    SingleWorkerBatches(batchSize, handler, Idle(), items);
    assert [] + items == items;
    assert [] + Chunks(items, batchSize) == Chunks(items, batchSize);
    ChunksConcat(items, batchSize);
    ChunksSizes(items, batchSize);
  }

  /** Batch size 3, items 1..7, then closure: [1,2,3], [4,5,6], [7]. */
  lemma ExampleSevenItems(handler: Handler<int>)
    requires AlwaysSucceeds(handler)
    ensures Execute(3, handler, Idle(), Deliveries([1, 2, 3, 4, 5, 6, 7]) + [IntakeClosed]).handled
         == [[1, 2, 3], [4, 5, 6], [7]]
  {
    SingleWorkerRun(3, handler, [1, 2, 3, 4, 5, 6, 7]);
    var xs := [1, 2, 3, 4, 5, 6, 7];
    assert xs[..3] == [1, 2, 3] && xs[3..] == [4, 5, 6, 7];
    assert xs[3..][..3] == [4, 5, 6] && xs[3..][3..] == [7];
  }

  /** Batch size 2: item 1, a tick, items 2 and 3, closure: [1] by the tick, then [2, 3] by size. */
  lemma ExampleTick(handler: Handler<int>)
    requires AlwaysSucceeds(handler)
    ensures Execute(2, handler, Idle(), [Received(1), Tick, Received(2), Received(3), IntakeClosed])
         == WorkerState([], [[1], [2, 3]], Stopped(Pass))
  {
    var evs := [Received(1), Tick, Received(2), Received(3), IntakeClosed];
    var s1 := Step(2, handler, Idle(), evs[0]);
    assert s1 == WorkerState([1], [], Running);
    var s2 := Step(2, handler, s1, evs[1]);
    assert s2 == WorkerState([], [[1]], Running);
    var s3 := Step(2, handler, s2, evs[2]);
    assert s3 == WorkerState([2], [[1]], Running);
    assert [2] + [3] == [2, 3];
    var s4 := Step(2, handler, s3, evs[3]);
    assert s4 == WorkerState([], [[1], [2, 3]], Running);
    var s5 := Step(2, handler, s4, evs[4]);
    assert s5 == WorkerState([], [[1], [2, 3]], Stopped(Pass));
    assert evs[1..][1..][1..][1..][1..] == [];
  }

  // ---------------------------------------------------------------------------
  // Run: all workers, first error
  // ---------------------------------------------------------------------------

  /** `order` lists each of the `n` workers once: the order in which they report. */
  ghost predicate IsOrder(order: seq<nat>, n: nat) {
    && |order| == n
    && (forall k :: 0 <= k < n ==> order[k] < n)
    && (forall a, b :: 0 <= a < b < n ==> order[a] != order[b])
    && (forall i :: 0 <= i < n ==> i in order)
  }

  predicate Failed<T>(workers: seq<WorkerState<T>>, id: nat) {
    id < |workers| && workers[id].exit.Stopped? && workers[id].exit.result.Fail?
  }

  /** What the workers send into `errCh`, in report order: each failing worker its wrapped error. */
  function Failures<T>(workers: seq<WorkerState<T>>, order: seq<nat>): seq<Error> {
    if order == [] then []
    else
      var id := order[|order| - 1];
      Failures(workers, order[..|order| - 1])
        + if Failed(workers, id) then [WorkerError(id, workers[id].exit.result.error)] else []
  }

  /** What `Run` returns once every worker has: the first error sent, or nil. */
  function Verdict<T>(workers: seq<WorkerState<T>>, order: seq<nat>): Exit {
    if exists i :: 0 <= i < |workers| && workers[i].exit.Running? then Running
    else
      var f := Failures(workers, order);
      if f == [] then Stopped(Pass) else Stopped(Fail(f[0]))
  }

  lemma {:induction false} FailuresFirst<T>(workers: seq<WorkerState<T>>, order: seq<nat>)
    ensures |Failures(workers, order)| <= |order|
    ensures Failures(workers, order) == [] <==> forall k :: 0 <= k < |order| ==> !Failed(workers, order[k])
    ensures Failures(workers, order) != [] ==>
      exists k :: 0 <= k < |order| && Failed(workers, order[k])
        && Failures(workers, order)[0] == WorkerError(order[k], workers[order[k]].exit.result.error)
        && forall j :: 0 <= j < k ==> !Failed(workers, order[j])
  {
    if order != [] {
      var init := order[..|order| - 1];
      FailuresFirst(workers, init);
      assert forall k :: 0 <= k < |init| ==> init[k] == order[k];
      var f := Failures(workers, init);
      if f != [] {
        var k :| 0 <= k < |init| && Failed(workers, init[k])
          && f[0] == WorkerError(init[k], workers[init[k]].exit.result.error)
          && forall j :: 0 <= j < k ==> !Failed(workers, init[j]);
        assert Failures(workers, order)[0] == f[0];
      }
    }
  }

  /**
   * `Run` returns nil exactly when every worker returned nil; otherwise the
   * error of the first worker to report a failure, tagged with its id.
   */
  lemma VerdictMeaning<T>(workers: seq<WorkerState<T>>, order: seq<nat>)
    requires IsOrder(order, |workers|)
    requires forall i :: 0 <= i < |workers| ==> workers[i].exit.Stopped?
    ensures Verdict(workers, order).Stopped?
    ensures Verdict(workers, order) == Stopped(Pass) <==> forall i :: 0 <= i < |workers| ==> workers[i].exit == Stopped(Pass)
    ensures Verdict(workers, order).result.Fail? ==>
      exists k :: 0 <= k < |order| && Failed(workers, order[k])
        && Verdict(workers, order).result.error == WorkerError(order[k], workers[order[k]].exit.result.error)
        && forall j :: 0 <= j < k ==> workers[order[j]].exit == Stopped(Pass)
  {
    FailuresFirst(workers, order);
    if Failures(workers, order) == [] {
      forall i | 0 <= i < |workers| ensures workers[i].exit == Stopped(Pass) {
        assert i in order;
        var k :| 0 <= k < |order| && order[k] == i;
        assert !Failed(workers, order[k]);
      }
    } else {
      var k :| 0 <= k < |order| && Failed(workers, order[k]);
      assert !(workers[order[k]].exit == Stopped(Pass));
    }
  }

  /**
   * `Run`: starts `workerNum` workers, each on its own `select` cases; each
   * failing worker sends its tagged error into `errCh` (room for `workerNum`
   * errors), in the order the workers report; once all have returned, the
   * first error sent is the result.
   */
  method Run<T>(cfg: Settings, handler: Handler<T>, schedules: seq<seq<Event<T>>>, order: seq<nat>)
    returns (exit: Exit, workers: seq<WorkerState<T>>, sent: seq<Error>)
    requires cfg.Positive() && |schedules| == cfg.workerNum && IsOrder(order, cfg.workerNum)
    ensures |workers| == |schedules|
    ensures forall i :: 0 <= i < |workers| ==> workers[i] == Execute(cfg.batchSize, handler, Idle(), schedules[i])
    ensures sent == Failures(workers, order) && |sent| <= cfg.workerNum
    ensures exit == Verdict(workers, order)
  {
    workers := [];
    for i := 0 to cfg.workerNum
      invariant |workers| == i
      invariant forall k :: 0 <= k < i ==> workers[k] == Execute(cfg.batchSize, handler, Idle(), schedules[k])
    {
      var queue, handled, x := Worker(cfg.batchSize, handler, schedules[i]);
      workers := workers + [WorkerState(queue, handled, x)];
    }
    sent := [];
    for k := 0 to |order|
      invariant sent == Failures(workers, order[..k])
      invariant |sent| <= k
    {
      assert order[..k + 1][..k] == order[..k] && order[..k + 1][k] == order[k];
      var id := order[k];
      if workers[id].exit.Stopped? && workers[id].exit.result.Fail? {
        if |sent| < cfg.workerNum {
          sent := sent + [WorkerError(id, workers[id].exit.result.error)];
        }
      }
    }
    assert order[..|order|] == order;
    if exists i | 0 <= i < |workers| :: workers[i].exit.Running? {
      exit := Running;
    } else if |sent| > 0 {
      exit := Stopped(Fail(sent[0]));
    } else {
      exit := Stopped(Pass);
    }
  }
}
