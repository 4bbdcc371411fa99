/**
 * The extract-transform-load orchestrator of package `etl`: `ETL.Run` chains
 * the processor's hooks around a bucket, the feeder goroutine moves extracted
 * payloads into the bucket, and the batch handler transforms every item of a
 * batch and loads the batch once.
 *
 * The processor is an oracle. Each hook answers given the history of calls
 * already made on the processor, so a hook may behave differently the second
 * time it is called. `Transform` is a plain function of the item.
 */
module Etl {
  import opened Errors
  import Bucket

  const PreProcessFailed := "failed to pre-process"
  const ExtractFailed := "failed to extract"
  const RunFailed := "failed to run ETL"
  const PostProcessFailed := "failed to post-process"

  /** `Payload[E]`: an extracted value, or the error met while extracting it. */
  datatype Payload<E> = Payload(data: E, err: Option<Error>)

  /** What `Extract` returns: an error, or the channel of payloads it will deliver. */
  datatype Extraction<E> = ExtractError(error: Error) | Channel(payloads: seq<Payload<E>>)

  /** A call made on the processor, as its history records it. */
  datatype Call<T> = PreProcessCall | ExtractCall | LoadCall(batch: seq<T>) | PostProcessCall

  type History<T> = seq<Call<T>>

  /** `ETLProcessor[E, T]`: every hook but `Transform` sees the calls made before it. */
  datatype Processor<!E, !T> = Processor(
    preProcess: History<T> -> Outcome,
    extract: History<T> -> Extraction<E>,
    transform: E -> T,
    load: (History<T>, seq<T>) -> Outcome,
    postProcess: History<T> -> Outcome)

  // ---------------------------------------------------------------------------
  // The feeder goroutine
  // ---------------------------------------------------------------------------

  /** Why the feeder closed the bucket. */
  datatype FeedEnd = EndOfChannel | ErrorPayload(error: Error) | CancelledFeed

  /** What the feeder did to the bucket. */
  datatype BucketOp<E> = ConsumeOp(item: E) | CloseOp

  /** The data the feeder consumed into the bucket and why it stopped. */
  datatype FeedResult<E> = FeedResult(fed: seq<E>, end: FeedEnd)

  /**
   * The feeder's `for`/`select` loop. `cancel == Some(k)`: the feeder sees the
   * context cancelled when it is about to take payload number `k` (counting
   * from 0); `None`: it never does.
   */
  function Fed<E>(payloads: seq<Payload<E>>, cancel: Option<nat>): FeedResult<E>
    decreases |payloads|
  {
    if cancel == Some(0) then FeedResult([], CancelledFeed)
    else if payloads == [] then FeedResult([], EndOfChannel)
    else if payloads[0].err.Some? then FeedResult([], ErrorPayload(payloads[0].err.value))
    else
      var rest := Fed(payloads[1..], Later(cancel));
      FeedResult([payloads[0].data] + rest.fed, rest.end)
  }

  /** The cancellation point seen from one payload further on. */
  function Later(cancel: Option<nat>): Option<nat> {
    match cancel
    case None => None
    case Some(k) => if k == 0 then None else Some(k - 1)
  }

  function Shifted(cancel: Option<nat>, i: nat): (r: Option<nat>)
    requires cancel.Some? ==> i <= cancel.value
  {
    match cancel
    case None => None
    case Some(k) => Some(k - i)
  }

  function Consumes<E>(items: seq<E>): (r: seq<BucketOp<E>>)
    ensures |r| == |items| && forall k :: 0 <= k < |items| ==> r[k] == ConsumeOp(items[k])
  {
    seq(|items|, k requires 0 <= k < |items| => ConsumeOp(items[k]))
  }

  /** How `Fed` unfolds at channel position `i`, seen with the shifted cancellation point. */
  lemma FedFrom<E>(payloads: seq<Payload<E>>, cancel: Option<nat>, i: nat)
    requires i <= |payloads| && (cancel.Some? ==> i <= cancel.value)
    ensures var r := Fed(payloads[i..], Shifted(cancel, i));
      && (cancel == Some(i) ==> r == FeedResult([], CancelledFeed))
      && (cancel != Some(i) && i == |payloads| ==> r == FeedResult([], EndOfChannel))
      && (cancel != Some(i) && i < |payloads| && payloads[i].err.Some? ==>
            r == FeedResult([], ErrorPayload(payloads[i].err.value)))
      && (cancel != Some(i) && i < |payloads| && payloads[i].err.None? ==>
            var rest := Fed(payloads[i + 1..], Shifted(cancel, i + 1));
            r == FeedResult([payloads[i].data] + rest.fed, rest.end))
  {
    if cancel != Some(i) && i < |payloads| {
      assert payloads[i..][0] == payloads[i];
      assert payloads[i..][1..] == payloads[i + 1..];
      assert Later(Shifted(cancel, i)) == Shifted(cancel, i + 1);
    }
  }

  /**
   * The feeder: consumes each payload's data in channel order and closes the
   * bucket once, at the end of the channel, at the first error payload (whose
   * error is only printed) or when it sees the context cancelled.
   */
  method Feed<E>(payloads: seq<Payload<E>>, cancel: Option<nat>)
    returns (fed: seq<E>, end: FeedEnd, ops: seq<BucketOp<E>>)
    ensures FeedResult(fed, end) == Fed(payloads, cancel)
    ensures ops == Consumes(fed) + [CloseOp]
  {
    fed, ops := [], [];
    var i := 0;
    assert payloads[0..] == payloads;
    while true
      invariant i <= |payloads| && (cancel.Some? ==> i <= cancel.value)
      invariant Fed(payloads, cancel)
             == FeedResult(fed + Fed(payloads[i..], Shifted(cancel, i)).fed, Fed(payloads[i..], Shifted(cancel, i)).end)
      invariant ops == Consumes(fed)
      decreases |payloads| - i
    {
      FedFrom(payloads, cancel, i);
      if cancel == Some(i) {
        assert fed + [] == fed;
        ops, end := ops + [CloseOp], CancelledFeed;
        return;
      }
      if i == |payloads| {
        assert fed + [] == fed;
        ops, end := ops + [CloseOp], EndOfChannel;
        return;
      }
      var payload := payloads[i];
      if payload.err.Some? {
        assert fed + [] == fed;
        ops, end := ops + [CloseOp], ErrorPayload(payload.err.value);
        return;
      }
      ghost var rest := Fed(payloads[i + 1..], Shifted(cancel, i + 1));
      assert fed + ([payload.data] + rest.fed) == (fed + [payload.data]) + rest.fed;
      assert Consumes(fed + [payload.data]) == Consumes(fed) + [ConsumeOp(payload.data)];
      ops := ops + [ConsumeOp(payload.data)];
      fed := fed + [payload.data];
      i := i + 1;
    }
  }

  /**
   * The feeder's bucket calls, applied to a fresh bucket in order. Whenever
   * the intake is full, a worker's receive takes the oldest item and the send
   * is tried once more. Every send and the one close are delivered, so none
   * ever panics, and the worker side drains exactly the items fed, in order.
   */
  method ReplayFeed<E>(c: Bucket.Config, fed: seq<E>, ops: seq<BucketOp<E>>)
    returns (sends: seq<Bucket.Send>, received: seq<E>)
    requires ops == Consumes(fed) + [CloseOp]
    modifies c
    ensures |sends| == |ops| && forall k :: 0 <= k < |sends| ==> sends[k] == Bucket.Delivered
    ensures received == fed
  {
    var b := new Bucket.Bucket<E>.New(c);
    sends, received := [], [];
    for k := 0 to |ops|
      invariant b.Valid() && b.closed == (k == |ops|)
      invariant |sends| == k && forall j :: 0 <= j < k ==> sends[j] == Bucket.Delivered
      invariant k <= |fed| ==> received + b.intake == fed[..k]
      invariant k == |ops| ==> received + b.intake == fed
    {
      match ops[k]
      case ConsumeOp(item) =>
        assert k < |fed| && item == fed[k];
        var s := b.Consume(item);
        if s == Bucket.MustWait {
          ghost var full := b.intake;
          var got := b.Receive();
          received := received + [got.item];
          assert received + b.intake == fed[..k] by {
            assert full == [full[0]] + full[1..];
          }
          s := b.Consume(item);
        }
        assert fed[..k + 1] == fed[..k] + [item];
        sends := sends + [s];
      case CloseOp =>
        assert k == |fed|;
        assert fed[..k] == fed;
        var s := b.Close();
        sends := sends + [s];
    }
    while b.intake != []
      invariant b.Valid() && b.closed
      invariant received + b.intake == fed
      decreases |b.intake|
    {
      ghost var left := b.intake;
      var got := b.Receive();
      received := received + [got.item];
      assert left == [left[0]] + left[1..];
    }
  }

  /**
   * What the feeder consumed is the data of the first payloads, in channel
   * order and all of them error-free; it stopped at the cancellation point,
   * at the end of the channel, or at the first error payload, and nothing
   * after that payload is consumed.
   */
  lemma {:induction false} FeedMeaning<E>(payloads: seq<Payload<E>>, cancel: Option<nat>)
    ensures var r := Fed(payloads, cancel);
      && |r.fed| <= |payloads|
      && (forall k :: 0 <= k < |r.fed| ==> payloads[k].err == None && r.fed[k] == payloads[k].data)
      && (cancel.Some? ==> |r.fed| <= cancel.value)
      && (r.end == CancelledFeed <==> cancel == Some(|r.fed|))
      && (r.end == EndOfChannel ==> |r.fed| == |payloads|)
      && (r.end.ErrorPayload? ==> |r.fed| < |payloads| && payloads[|r.fed|].err == Some(r.end.error))
    decreases |payloads|
  {
    if cancel != Some(0) && payloads != [] && payloads[0].err.None? {
      FeedMeaning(payloads[1..], Later(cancel));
      var rest := Fed(payloads[1..], Later(cancel));
      var r := Fed(payloads, cancel);
      assert r.fed == [payloads[0].data] + rest.fed;
      assert forall k :: 1 <= k < |r.fed| ==> r.fed[k] == rest.fed[k - 1] && payloads[k] == payloads[1..][k - 1];
    }
  }

  /**
   * An error payload ends the feed exactly as the end of the channel would
   * have there: the run is that of a channel holding only the payloads before
   * it, so the payload's error is never returned by `Run`.
   */
  lemma {:induction false} ErrorPayloadActsAsEnd<E>(good: seq<Payload<E>>, bad: Payload<E>, rest: seq<Payload<E>>)
    requires forall k :: 0 <= k < |good| ==> good[k].err == None
    requires bad.err.Some?
    ensures Fed(good + [bad] + rest, None) == FeedResult(Fed(good, None).fed, ErrorPayload(bad.err.value))
    ensures Fed(good, None).end == EndOfChannel
    decreases |good|
  {
    if good == [] {
      assert good + [bad] + rest == [bad] + rest;
    } else {
      assert (good + [bad] + rest)[1..] == good[1..] + [bad] + rest;
      ErrorPayloadActsAsEnd(good[1..], bad, rest);
    }
  }

  // ---------------------------------------------------------------------------
  // The batch handler
  // ---------------------------------------------------------------------------

  function Transformed<E, T>(transform: E -> T, items: seq<E>): (r: seq<T>)
    ensures |r| == |items|
  {
    seq(|items|, i requires 0 <= i < |items| => transform(items[i]))
  }

  /**
   * The handler `Run` gives the bucket: transform every item of the batch in
   * order, then load the result once with the processor's history so far.
   */
  method HandleBatch<E, T>(p: Processor<E, T>, h: History<T>, items: seq<E>)
    returns (transformed: seq<T>, r: Outcome)
    ensures |transformed| == |items|
    ensures forall i :: 0 <= i < |items| ==> transformed[i] == p.transform(items[i])
    ensures transformed == Transformed(p.transform, items)
    ensures r == p.load(h, transformed)
    ensures r == BatchHandler(p.load, p.transform, h)([], items)
  {
    transformed := [];
    for i := 0 to |items|
      invariant |transformed| == i
      invariant forall k :: 0 <= k < i ==> transformed[k] == p.transform(items[k])
    {
      var t := p.transform(items[i]);
      transformed := transformed + [t];
    }
    r := p.load(h, transformed);
    assert LoadCalls(p.transform, []) == [] && h + [] == h;
  }

  /** The `Load` calls recorded for the batches handed over, in order. */
  function LoadCalls<E, T>(transform: E -> T, batches: seq<seq<E>>): (r: History<T>)
    ensures |r| == |batches|
    ensures forall k :: 0 <= k < |batches| ==> r[k] == LoadCall(Transformed(transform, batches[k]))
  {
    seq(|batches|, k requires 0 <= k < |batches| => LoadCall(Transformed(transform, batches[k])))
  }

  /**
   * The handler as the bucket sees it: given the batches it was handed before,
   * the answer to a batch is `Load`'s answer after `base` and those loads.
   */
  function BatchHandler<E, T>(load: (History<T>, seq<T>) -> Outcome, transform: E -> T, base: History<T>): Bucket.Handler<E> {
    (done: seq<seq<E>>, batch: seq<E>) => load(base + LoadCalls(transform, done), Transformed(transform, batch))
  }

  // ---------------------------------------------------------------------------
  // Run
  // ---------------------------------------------------------------------------

  /** The `select` case the closed bucket shows its worker. */
  function Closure<E>(end: FeedEnd): Bucket.Event<E> {
    if end == CancelledFeed then Bucket.Cancelled else Bucket.IntakeClosed
  }

  /**
   * The schedule the model composes: worker 0 receives every item fed and
   * then sees `last`, the closure or the cancellation; every other worker
   * sees only `last`.
   */
  function Schedules<E>(workerNum: nat, fed: seq<E>, last: Bucket.Event<E>): (r: seq<seq<Bucket.Event<E>>>)
    ensures |r| == workerNum
  {
    seq(workerNum, i requires 0 <= i < workerNum =>
      if i == 0 then Bucket.Deliveries(fed) + [last] else [last])
  }

  /** Workers report in the order they were started. */
  function Ascending(n: nat): (r: seq<nat>)
    ensures Bucket.IsOrder(r, n)
  {
    var r := seq(n, i requires 0 <= i < n => i as nat);
    assert forall i :: 0 <= i < n ==> r[i] == i;
    assert forall i :: 0 <= i < n ==> i in r by {
      forall i | 0 <= i < n
        ensures i in r
      {
        assert r[i] == i;
      }
    }
    r
  }

  function Workers<E, T>(load: (History<T>, seq<T>) -> Outcome, transform: E -> T, base: History<T>,
                        cfg: Bucket.Settings, fed: seq<E>, last: Bucket.Event<E>): (r: seq<Bucket.WorkerState<E>>)
    requires cfg.Positive()
    ensures |r| == cfg.workerNum
  {
    var schedules := Schedules(cfg.workerNum, fed, last);
    seq(cfg.workerNum, i requires 0 <= i < cfg.workerNum =>
      Bucket.Execute(cfg.batchSize, BatchHandler(load, transform, base), Bucket.Idle(), schedules[i]))
  }

  /** Every worker has returned; all but worker 0 returned nil without handling anything. */
  lemma WorkersStop<E, T>(load: (History<T>, seq<T>) -> Outcome, transform: E -> T, base: History<T>,
                          cfg: Bucket.Settings, fed: seq<E>, last: Bucket.Event<E>)
    requires cfg.Positive() && last.Terminal()
    ensures var w := Workers(load, transform, base, cfg, fed, last);
      && (forall i :: 0 <= i < |w| ==> w[i].exit.Stopped?)
      && (forall i :: 1 <= i < |w| ==> w[i] == Bucket.WorkerState([], [], Stopped(Pass)))
  {
    var w := Workers(load, transform, base, cfg, fed, last);
    var schedules := Schedules(cfg.workerNum, fed, last);
    var handler := BatchHandler(load, transform, base);
    var s0 := schedules[0];
    assert s0 == Bucket.Deliveries(fed) + [last];
    assert s0[|fed|] == last;
    Bucket.WorkerStopsOnTerminal(cfg.batchSize, handler, Bucket.Idle(), s0, |fed|);
    forall i | 1 <= i < |w| ensures w[i] == Bucket.WorkerState([], [], Stopped(Pass)) {
      assert schedules[i] == [last] && schedules[i][1..] == [];
      var t := Bucket.Step(cfg.batchSize, handler, Bucket.Idle(), last);
      assert t == Bucket.WorkerState([], [], Stopped(Pass));
      assert w[i] == Bucket.Execute(cfg.batchSize, handler, t, []);
    }
  }

  /** What the bucket's `Run` returns, and the batches worker 0 handed to the handler. */
  datatype Batched<E> = Batched(result: Outcome, handled: seq<seq<E>>)

  function Batching<E, T>(load: (History<T>, seq<T>) -> Outcome, transform: E -> T, base: History<T>,
                          cfg: Bucket.Settings, fed: seq<E>, last: Bucket.Event<E>): Batched<E>
    requires cfg.Positive() && last.Terminal()
  {
    var w := Workers(load, transform, base, cfg, fed, last);
    WorkersStop(load, transform, base, cfg, fed, last);
    Bucket.VerdictMeaning(w, Ascending(cfg.workerNum));
    Batched(Bucket.Verdict(w, Ascending(cfg.workerNum)).result, w[0].handled)
  }

  /** What `Run` returns and the calls it made on the processor, in order. */
  datatype RunResult<T> = RunResult(outcome: Outcome, calls: History<T>)

  /**
   * `ETL.Run` on a bucket configuration `s` and processor history `h`.
   * `bucket.New` never fails, so the "failed to create bucket" return is
   * unreachable and has no branch here.
   */
  function RunSpec<E, T>(p: Processor<E, T>, h: History<T>, s: Bucket.Settings, cancel: Option<nat>): RunResult<T> {
    var pre := p.preProcess(h);
    if pre.Fail? then RunResult(Fail(Stage(PreProcessFailed, pre.error)), [PreProcessCall])
    else match p.extract(h + [PreProcessCall])
      case ExtractError(e) => RunResult(Fail(Stage(ExtractFailed, e)), [PreProcessCall, ExtractCall])
      case Channel(payloads) =>
        var started := [PreProcessCall, ExtractCall];
        var rest := AfterExtract(p, h + started, Bucket.Defaults(s), payloads, cancel);
        RunResult(rest.outcome, started + rest.calls)
  }

  /**
   * The part of `ETL.Run` after a successful `Extract`: feed the bucket, run
   * it with the batch handler, then `PostProcess` if the bucket returned nil.
   * `calls` are the calls made after `base`.
   */
  function AfterExtract<E, T>(p: Processor<E, T>, base: History<T>, cfg: Bucket.Settings,
                              payloads: seq<Payload<E>>, cancel: Option<nat>): RunResult<T>
    requires cfg.Positive()
  {
    var feed := Fed(payloads, cancel);
    var b := Batching(p.load, p.transform, base, cfg, feed.fed, Closure(feed.end));
    var loads := LoadCalls(p.transform, b.handled);
    if b.result.Fail? then RunResult(Fail(Stage(RunFailed, b.result.error)), loads)
    else
      var post := p.postProcess(base + loads);
      if post.Fail? then RunResult(Fail(Stage(PostProcessFailed, post.error)), loads + [PostProcessCall])
      else RunResult(Pass, loads + [PostProcessCall])
  }

  /**
   * `ETL.Run`. The caller's bucket configuration is updated in place by
   * `bucket.New`, which is reached exactly when `PreProcess` succeeds.
   */
  method Run<E, T>(p: Processor<E, T>, h: History<T>, cfg: Bucket.Config, cancel: Option<nat>)
    returns (r: Outcome, calls: History<T>)
    modifies cfg
    ensures RunResult(r, calls) == RunSpec(p, h, old(cfg.Value()), cancel)
    ensures cfg.Value() == if p.preProcess(h).Pass? then Bucket.Defaults(old(cfg.Value())) else old(cfg.Value())
  {
    ghost var s := cfg.Value();
    calls := [PreProcessCall];
    var pre := p.preProcess(h);
    if pre.Fail? {
      r := Fail(Stage(PreProcessFailed, pre.error));
      return;
    }
    var b := new Bucket.Bucket<E>.New(cfg);
    var extracted := p.extract(h + calls);
    calls := calls + [ExtractCall];
    if extracted.ExtractError? {
      r := Fail(Stage(ExtractFailed, extracted.error));
      return;
    }
    assert b.cfg == Bucket.Defaults(s) && calls == [PreProcessCall, ExtractCall];
    var more;
    r, more := RunBucket(p, h + calls, b.cfg, extracted.payloads, cancel);
    calls := calls + more;
  }

  /** Feeds the bucket, runs it with the batch handler, and post-processes on success. */
  method RunBucket<E, T>(p: Processor<E, T>, base: History<T>, cfg: Bucket.Settings,
                         payloads: seq<Payload<E>>, cancel: Option<nat>)
    returns (r: Outcome, calls: History<T>)
    requires cfg.Positive()
    ensures RunResult(r, calls) == AfterExtract(p, base, cfg, payloads, cancel)
  {
    var fed, end, ops := Feed(payloads, cancel);
    var n := cfg.workerNum;
    var last := Closure(end);
    var exit, workers, sent := Bucket.Run(cfg, BatchHandler(p.load, p.transform, base), Schedules(n, fed, last), Ascending(n));
    assert workers == Workers(p.load, p.transform, base, cfg, fed, last);
    WorkersStop(p.load, p.transform, base, cfg, fed, last);
    Bucket.VerdictMeaning(workers, Ascending(n));
    calls := LoadCalls(p.transform, workers[0].handled);
    if exit.result.Fail? {
      r := Fail(Stage(RunFailed, exit.result.error));
      return;
    }
    var post := p.postProcess(base + calls);
    calls := calls + [PostProcessCall];
    if post.Fail? {
      r := Fail(Stage(PostProcessFailed, post.error));
      return;
    }
    r := Pass;
  }

  // ---------------------------------------------------------------------------
  // What Run promises
  // ---------------------------------------------------------------------------

  /** A failing `PreProcess` ends the run at once: nothing else is called. */
  lemma PreProcessFailureStops<E, T>(p: Processor<E, T>, h: History<T>, s: Bucket.Settings, cancel: Option<nat>)
    requires p.preProcess(h).Fail?
    ensures RunSpec(p, h, s, cancel) == RunResult(Fail(Stage(PreProcessFailed, p.preProcess(h).error)), [PreProcessCall])
  {
  }

  /** A failing `Extract` ends the run: no `Load`, no `PostProcess`. */
  lemma ExtractFailureStops<E, T>(p: Processor<E, T>, h: History<T>, s: Bucket.Settings, cancel: Option<nat>)
    requires p.preProcess(h).Pass? && p.extract(h + [PreProcessCall]).ExtractError?
    ensures RunSpec(p, h, s, cancel)
         == RunResult(Fail(Stage(ExtractFailed, p.extract(h + [PreProcessCall]).error)), [PreProcessCall, ExtractCall])
  {
  }

  /** What a call on the processor answered, given the calls before it. */
  function Answer<E, T>(p: Processor<E, T>, before: History<T>, c: Call<T>): Outcome {
    match c
    case PreProcessCall => p.preProcess(before)
    case ExtractCall => if p.extract(before).ExtractError? then Fail(p.extract(before).error) else Pass
    case LoadCall(batch) => p.load(before, batch)
    case PostProcessCall => p.postProcess(before)
  }

  /** Every call in `calls`, made after `h`, succeeded. */
  ghost predicate AllSucceeded<E, T>(p: Processor<E, T>, h: History<T>, calls: History<T>) {
    forall k :: 0 <= k < |calls| ==> Answer(p, h + calls[..k], calls[k]).Pass?
  }

  lemma AllSucceededSplit<E, T>(p: Processor<E, T>, h: History<T>, xs: History<T>, ys: History<T>)
    ensures AllSucceeded(p, h, xs + ys) <==> AllSucceeded(p, h, xs) && AllSucceeded(p, h + xs, ys)
  {
    var zs := xs + ys;
    forall k | 0 <= k < |xs|
      ensures Answer(p, h + zs[..k], zs[k]) == Answer(p, h + xs[..k], xs[k])
    {
      assert zs[..k] == xs[..k];
    }
    forall j | 0 <= j < |ys|
      ensures Answer(p, h + zs[..|xs| + j], zs[|xs| + j]) == Answer(p, h + xs + ys[..j], ys[j])
    {
      assert zs[..|xs| + j] == xs + ys[..j];
      assert h + (xs + ys[..j]) == h + xs + ys[..j];
    }
    if AllSucceeded(p, h, xs) && AllSucceeded(p, h + xs, ys) {
      forall k | 0 <= k < |zs| ensures Answer(p, h + zs[..k], zs[k]).Pass? {
        if k >= |xs| {
          var j := k - |xs|;
          assert Answer(p, h + zs[..|xs| + j], zs[|xs| + j]).Pass?;
        }
      }
    }
    if AllSucceeded(p, h, zs) {
      forall j | 0 <= j < |ys| ensures Answer(p, h + xs + ys[..j], ys[j]).Pass? {
        assert Answer(p, h + zs[..|xs| + j], zs[|xs| + j]).Pass?;
      }
    }
  }

  /** The loads after `base` all succeeded exactly when the handler accepted every batch. */
  lemma LoadsSucceeded<E, T>(p: Processor<E, T>, base: History<T>, handled: seq<seq<E>>)
    ensures AllSucceeded(p, base, LoadCalls(p.transform, handled))
        <==> forall j :: 0 <= j < |handled| ==> BatchHandler(p.load, p.transform, base)(handled[..j], handled[j]).Pass?
  {
    var loads := LoadCalls(p.transform, handled);
    forall j | 0 <= j < |handled|
      ensures Answer(p, base + loads[..j], loads[j]) == BatchHandler(p.load, p.transform, base)(handled[..j], handled[j])
    {
      assert loads[..j] == LoadCalls(p.transform, handled[..j]);
    }
  }

  /** The batching part of a run succeeded exactly when every `Load` it made succeeded. */
  lemma BatchingSucceedsIff<E, T>(p: Processor<E, T>, base: History<T>, cfg: Bucket.Settings, fed: seq<E>, last: Bucket.Event<E>)
    requires cfg.Positive() && last.Terminal()
    ensures var b := Batching(p.load, p.transform, base, cfg, fed, last);
      b.result.Pass? <==> AllSucceeded(p, base, LoadCalls(p.transform, b.handled))
  {
    var w := Workers(p.load, p.transform, base, cfg, fed, last);
    WorkersStop(p.load, p.transform, base, cfg, fed, last);
    Bucket.VerdictMeaning(w, Ascending(cfg.workerNum));
    var handler := BatchHandler(p.load, p.transform, base);
    Bucket.WorkerSucceedsIff(cfg.batchSize, handler, Schedules(cfg.workerNum, fed, last)[0]);
    LoadsSucceeded(p, base, w[0].handled);
    if w[0].exit == Stopped(Pass) {
      assert forall i :: 0 <= i < |w| ==> w[i].exit == Stopped(Pass);
    }
  }

  /** After `Extract`, the run returns nil exactly when every `Load` and `PostProcess` succeed. */
  lemma AfterExtractSucceedsIff<E, T>(p: Processor<E, T>, base: History<T>, cfg: Bucket.Settings,
                                      payloads: seq<Payload<E>>, cancel: Option<nat>)
    requires cfg.Positive()
    ensures var r := AfterExtract(p, base, cfg, payloads, cancel);
      r.outcome.Pass? <==> AllSucceeded(p, base, r.calls)
  {
    var feed := Fed(payloads, cancel);
    var b := Batching(p.load, p.transform, base, cfg, feed.fed, Closure(feed.end));
    var loads := LoadCalls(p.transform, b.handled);
    BatchingSucceedsIff(p, base, cfg, feed.fed, Closure(feed.end));
    if b.result.Pass? {
      AllSucceededSplit(p, base, loads, [PostProcessCall]);
      assert base + loads + [PostProcessCall][..0] == base + loads;
    }
  }

  /**
   * `Run` returns nil exactly when `PreProcess`, `Extract`, every `Load` it
   * makes and `PostProcess` all succeed.
   */
  lemma RunSucceedsIff<E, T>(p: Processor<E, T>, h: History<T>, s: Bucket.Settings, cancel: Option<nat>)
    ensures var r := RunSpec(p, h, s, cancel);
      r.outcome.Pass? <==> AllSucceeded(p, h, r.calls)
  {
    var r := RunSpec(p, h, s, cancel);
    var pre := p.preProcess(h);
    assert h + [] == h;
    if pre.Fail? {
      assert Answer(p, h + r.calls[..0], r.calls[0]).Fail?;
    } else {
      var started: History<T> := [PreProcessCall, ExtractCall];
      assert started[..1] == [PreProcessCall];
      assert Answer(p, h + started[..0], started[0]).Pass?;
      match p.extract(h + [PreProcessCall])
      case ExtractError(e) =>
        assert Answer(p, h + r.calls[..1], r.calls[1]).Fail?;
      case Channel(payloads) =>
        assert AllSucceeded(p, h, started);
        var rest := AfterExtract(p, h + started, Bucket.Defaults(s), payloads, cancel);
        AfterExtractSucceedsIff(p, h + started, Bucket.Defaults(s), payloads, cancel);
        AllSucceededSplit(p, h, started, rest.calls);
    }
  }

  /** A run that returned nil called `PreProcess`, `Extract`, then only `Load`s, then `PostProcess`. */
  lemma SuccessfulRunCalls<E, T>(p: Processor<E, T>, h: History<T>, s: Bucket.Settings, cancel: Option<nat>)
    requires RunSpec(p, h, s, cancel).outcome == Pass
    ensures var c := RunSpec(p, h, s, cancel).calls;
      && |c| >= 3
      && c[0] == PreProcessCall && c[1] == ExtractCall && c[|c| - 1] == PostProcessCall
      && forall k :: 2 <= k < |c| - 1 ==> c[k].LoadCall?
  {
    var payloads := p.extract(h + [PreProcessCall]).payloads;
    var base := h + [PreProcessCall, ExtractCall];
    var cfg := Bucket.Defaults(s);
    var feed := Fed(payloads, cancel);
    var b := Batching(p.load, p.transform, base, cfg, feed.fed, Closure(feed.end));
    var loads := LoadCalls(p.transform, b.handled);
    var c := RunSpec(p, h, s, cancel).calls;
    assert c == [PreProcessCall, ExtractCall] + (loads + [PostProcessCall]);
    assert forall k :: 2 <= k < |c| - 1 ==> c[k] == loads[k - 2];
  }

  /** `PostProcess` is called only after the bucket's run returned nil, and then always. */
  lemma PostProcessOnlyAfterBatching<E, T>(p: Processor<E, T>, base: History<T>, cfg: Bucket.Settings,
                                           payloads: seq<Payload<E>>, cancel: Option<nat>)
    requires cfg.Positive()
    ensures var feed := Fed(payloads, cancel);
      (PostProcessCall in AfterExtract(p, base, cfg, payloads, cancel).calls)
        <==> Batching(p.load, p.transform, base, cfg, feed.fed, Closure(feed.end)).result.Pass?
    ensures var feed := Fed(payloads, cancel);
      var b := Batching(p.load, p.transform, base, cfg, feed.fed, Closure(feed.end));
      b.result.Fail? ==> AfterExtract(p, base, cfg, payloads, cancel).outcome == Fail(Stage(RunFailed, b.result.error))
    ensures var feed := Fed(payloads, cancel);
      var b := Batching(p.load, p.transform, base, cfg, feed.fed, Closure(feed.end));
      var post := p.postProcess(base + LoadCalls(p.transform, b.handled));
      b.result.Pass? && post.Fail? ==> AfterExtract(p, base, cfg, payloads, cancel).outcome == Fail(Stage(PostProcessFailed, post.error))
  {
    var feed := Fed(payloads, cancel);
    var b := Batching(p.load, p.transform, base, cfg, feed.fed, Closure(feed.end));
    var loads := LoadCalls(p.transform, b.handled);
    assert forall k :: 0 <= k < |loads| ==> loads[k] != PostProcessCall;
  }

  /**
   * With no cancellation and every `Load` succeeding, the loads are the
   * transformed consecutive `BatchSize`-chunks of the data fed, in order,
   * followed by `PostProcess`.
   */
  lemma LoadsAreChunks<E(!new), T(!new)>(p: Processor<E, T>, h: History<T>, s: Bucket.Settings)
    requires p.preProcess(h).Pass? && p.extract(h + [PreProcessCall]).Channel?
    requires forall before, batch :: p.load(before, batch).Pass?
    ensures var fed := Fed(p.extract(h + [PreProcessCall]).payloads, None).fed;
      RunSpec(p, h, s, None).calls
        == [PreProcessCall, ExtractCall] + LoadCalls(p.transform, Bucket.Chunks(fed, Bucket.Defaults(s).batchSize)) + [PostProcessCall]
  {
    var cfg := Bucket.Defaults(s);
    var base := h + [PreProcessCall, ExtractCall];
    var feed := Fed(p.extract(h + [PreProcessCall]).payloads, None);
    FeedMeaning(p.extract(h + [PreProcessCall]).payloads, None);
    assert Closure<E>(feed.end) == Bucket.IntakeClosed;
    var handler := BatchHandler(p.load, p.transform, base);
    assert Bucket.AlwaysSucceeds(handler);
    Bucket.SingleWorkerRun(cfg.batchSize, handler, feed.fed);
    var w := Workers(p.load, p.transform, base, cfg, feed.fed, Closure(feed.end));
    WorkersStop(p.load, p.transform, base, cfg, feed.fed, Closure(feed.end));
    Bucket.VerdictMeaning(w, Ascending(cfg.workerNum));
    assert forall i :: 0 <= i < |w| ==> w[i].exit == Stopped(Pass);
    var loads := LoadCalls(p.transform, w[0].handled);
    assert [PreProcessCall, ExtractCall] + (loads + [PostProcessCall]) == [PreProcessCall, ExtractCall] + loads + [PostProcessCall];
  }

  /**
   * A channel whose first error payload follows `good` runs exactly like a
   * channel holding only `good`: the error is printed, never returned.
   */
  lemma ErrorPayloadNotReturned<E, T>(p: Processor<E, T>, h: History<T>, s: Bucket.Settings,
                                      good: seq<Payload<E>>, bad: Payload<E>, rest: seq<Payload<E>>)
    requires forall k :: 0 <= k < |good| ==> good[k].err == None
    requires bad.err.Some?
    requires p.extract(h + [PreProcessCall]) == Channel(good + [bad] + rest)
    ensures RunSpec(p, h, s, None) == RunSpec(p.(extract := (before: History<T>) => Channel(good)), h, s, None)
  {
    ErrorPayloadActsAsEnd(good, bad, rest);
  }

  /** The run does the same on a configuration and on its defaulted form. */
  lemma RunSpecDefaults<E, T>(p: Processor<E, T>, h: History<T>, s: Bucket.Settings, cancel: Option<nat>)
    ensures RunSpec(p, h, Bucket.Defaults(s), cancel) == RunSpec(p, h, s, cancel)
  {
    Bucket.DefaultsIdempotent(s);
  }
}
