/**
 * The pipeline manager of package `etl`: registration of runners, the
 * adapter that turns a processor into a runner, and `RunAll`, which runs
 * every registered pipeline under a semaphore of `WorkerNum` permits and
 * returns the first error it collects.
 *
 * Goroutine interleaving is a schedule of moves: a pipeline acquiring a
 * permit (`Admit`) and a pipeline finishing its run and releasing its permit
 * (`Finish`). A move that cannot happen at that point is skipped; once the
 * schedule runs out, the pipelines still running finish, and those still
 * waiting are admitted and finish one after the other, as `wg.Wait` demands.
 */
module EtlManager {
  import opened Errors
  import Bucket
  import Etl

  const DefaultWorkerNum := 4

  const AdapterPreFailed := "pre-process failed"
  const AdapterRunFailed := "ETL run failed"
  const AdapterPostFailed := "post-process failed"

  /** The caller's `*Config`, which `NewManager` updates in place. */
  class Config {
    var workerNum: int

    constructor (workerNum: int)
      ensures this.workerNum == workerNum
    {
      this.workerNum := workerNum;
    }
  }

  /**
   * `ETLRunner`: its `Name()` and what its `Run` returns on a bucket
   * configuration, given the feed position at which it sees the context
   * cancelled.
   */
  datatype Runner = Runner(name: string, run: (Bucket.Settings, Option<nat>) -> Outcome)

  // ---------------------------------------------------------------------------
  // pipelineAdapter
  // ---------------------------------------------------------------------------

  /**
   * `pipelineAdapter.Run`: the processor's `PreProcess`, then `ETL.Run`
   * (which calls `PreProcess` and `PostProcess` once more), then
   * `PostProcess`, stopping at the first failure with the adapter's tag.
   */
  function AdapterSpec<E, T>(p: Etl.Processor<E, T>, h: Etl.History<T>, s: Bucket.Settings, cancel: Option<nat>)
    : Etl.RunResult<T>
  {
    var pre := p.preProcess(h);
    if pre.Fail? then Etl.RunResult(Fail(Stage(AdapterPreFailed, pre.error)), [Etl.PreProcessCall])
    else
      var inner := Etl.RunSpec(p, h + [Etl.PreProcessCall], s, cancel);
      var calls := [Etl.PreProcessCall] + inner.calls;
      if inner.outcome.Fail? then Etl.RunResult(Fail(Stage(AdapterRunFailed, inner.outcome.error)), calls)
      else
        var post := p.postProcess(h + calls);
        if post.Fail? then Etl.RunResult(Fail(Stage(AdapterPostFailed, post.error)), calls + [Etl.PostProcessCall])
        else Etl.RunResult(Pass, calls + [Etl.PostProcessCall])
  }

  /** `pipelineAdapter.Run`, with `ETL.PreProcess` and `ETL.PostProcess` delegating to the processor. */
  method AdapterRun<E, T>(p: Etl.Processor<E, T>, h: Etl.History<T>, cfg: Bucket.Config, cancel: Option<nat>)
    returns (r: Outcome, calls: Etl.History<T>)
    modifies cfg
    ensures Etl.RunResult(r, calls) == AdapterSpec(p, h, old(cfg.Value()), cancel)
    ensures cfg.Value()
         == if p.preProcess(h).Pass? && p.preProcess(h + [Etl.PreProcessCall]).Pass?
            then Bucket.Defaults(old(cfg.Value())) else old(cfg.Value())
  {
    calls := [Etl.PreProcessCall];
    var pre := p.preProcess(h);
    if pre.Fail? {
      r := Fail(Stage(AdapterPreFailed, pre.error));
      return;
    }
    var o, more := Etl.Run(p, h + calls, cfg, cancel);
    calls := calls + more;
    if o.Fail? {
      r := Fail(Stage(AdapterRunFailed, o.error));
      return;
    }
    var post := p.postProcess(h + calls);
    calls := calls + [Etl.PostProcessCall];
    if post.Fail? {
      r := Fail(Stage(AdapterPostFailed, post.error));
      return;
    }
    r := Pass;
  }

  /** The adapter returns nil exactly when every call it and `ETL.Run` made on the processor succeeded. */
  lemma AdapterSucceedsIff<E, T>(p: Etl.Processor<E, T>, h: Etl.History<T>, s: Bucket.Settings, cancel: Option<nat>)
    ensures var r := AdapterSpec(p, h, s, cancel);
      r.outcome.Pass? <==> Etl.AllSucceeded(p, h, r.calls)
  {
    var r := AdapterSpec(p, h, s, cancel);
    var first: Etl.History<T> := [Etl.PreProcessCall];
    assert h + first[..0] == h;
    if p.preProcess(h).Pass? {
      assert Etl.AllSucceeded(p, h, first);
      var inner := Etl.RunSpec(p, h + first, s, cancel);
      Etl.RunSucceedsIff(p, h + first, s, cancel);
      Etl.AllSucceededSplit(p, h, first, inner.calls);
      if inner.outcome.Pass? {
        var calls := first + inner.calls;
        Etl.AllSucceededSplit(p, h, calls, [Etl.PostProcessCall]);
        assert h + calls + [Etl.PostProcessCall][..0] == h + calls;
      }
    } else {
      assert Etl.Answer(p, h + r.calls[..0], r.calls[0]).Fail?;
    }
  }

  /**
   * On a fully successful adapter run `PreProcess` is called twice (first by
   * the adapter, then by `ETL.Run`) and so is `PostProcess` (first by
   * `ETL.Run`, then by the adapter), and neither is called any other time.
   */
  lemma HooksRunTwice<E, T>(p: Etl.Processor<E, T>, h: Etl.History<T>, s: Bucket.Settings, cancel: Option<nat>)
    requires AdapterSpec(p, h, s, cancel).outcome == Pass
    ensures var c := AdapterSpec(p, h, s, cancel).calls;
      && |c| >= 5
      && c[0] == Etl.PreProcessCall && c[1] == Etl.PreProcessCall && c[2] == Etl.ExtractCall
      && c[|c| - 2] == Etl.PostProcessCall && c[|c| - 1] == Etl.PostProcessCall
      && multiset(c)[Etl.PreProcessCall] == 2
      && multiset(c)[Etl.PostProcessCall] == 2
  {
    AdapterSuccessCalls(p, h, s, cancel);
    Etl.SuccessfulRunCalls(p, h + [Etl.PreProcessCall], s, cancel);
    WrappedTwice(Etl.RunSpec(p, h + [Etl.PreProcessCall], s, cancel).calls);
  }

  /** Wrapping a successful run's calls in one more `PreProcess` and `PostProcess`. */
  lemma WrappedTwice<T>(inner: Etl.History<T>)
    requires |inner| >= 3
    requires inner[0] == Etl.PreProcessCall && inner[1] == Etl.ExtractCall && inner[|inner| - 1] == Etl.PostProcessCall
    requires forall k :: 2 <= k < |inner| - 1 ==> inner[k].LoadCall?
    ensures var c := [Etl.PreProcessCall] + inner + [Etl.PostProcessCall];
      && c[0] == Etl.PreProcessCall && c[1] == Etl.PreProcessCall && c[2] == Etl.ExtractCall
      && c[|c| - 2] == Etl.PostProcessCall && c[|c| - 1] == Etl.PostProcessCall
      && multiset(c)[Etl.PreProcessCall] == 2
      && multiset(c)[Etl.PostProcessCall] == 2
  {
    HookCounts(inner);
    var c := [Etl.PreProcessCall] + inner + [Etl.PostProcessCall];
    assert c[1] == inner[0] && c[2] == inner[1] && c[|c| - 2] == inner[|inner| - 1];
    assert multiset(c) == multiset([Etl.PreProcessCall]) + multiset(inner) + multiset([Etl.PostProcessCall]);
  }

  /** A successful run's calls hold one `PreProcess` and one `PostProcess`. */
  lemma HookCounts<T>(inner: Etl.History<T>)
    requires |inner| >= 3
    requires inner[0] == Etl.PreProcessCall && inner[1] == Etl.ExtractCall && inner[|inner| - 1] == Etl.PostProcessCall
    requires forall k :: 2 <= k < |inner| - 1 ==> inner[k].LoadCall?
    ensures multiset(inner)[Etl.PreProcessCall] == 1 && multiset(inner)[Etl.PostProcessCall] == 1
  {
    var mid := inner[2..|inner| - 1];
    var front: Etl.History<T> := [Etl.PreProcessCall, Etl.ExtractCall];
    var back: Etl.History<T> := [Etl.PostProcessCall];
    assert inner == front + mid + back;
    assert forall k :: 0 <= k < |mid| ==> mid[k] == inner[k + 2];
    LoadsOnly(mid);
    assert multiset(inner) == multiset(front) + multiset(mid) + multiset(back);
  }

  /** A history of loads only holds no `PreProcess` and no `PostProcess` call. */
  lemma LoadsOnly<T>(mid: Etl.History<T>)
    requires forall k :: 0 <= k < |mid| ==> mid[k].LoadCall?
    ensures multiset(mid)[Etl.PreProcessCall] == 0 && multiset(mid)[Etl.PostProcessCall] == 0
  {
    assert Etl.PreProcessCall !in mid && Etl.PostProcessCall !in mid;
  }

  /** A successful adapter run: one `PreProcess`, a successful `ETL.Run`, one `PostProcess`. */
  lemma AdapterSuccessCalls<E, T>(p: Etl.Processor<E, T>, h: Etl.History<T>, s: Bucket.Settings, cancel: Option<nat>)
    requires AdapterSpec(p, h, s, cancel).outcome == Pass
    ensures var inner := Etl.RunSpec(p, h + [Etl.PreProcessCall], s, cancel);
      && inner.outcome == Pass
      && AdapterSpec(p, h, s, cancel).calls == [Etl.PreProcessCall] + inner.calls + [Etl.PostProcessCall]
  {
  }

  /** `AddPipelineGeneric`'s runner: a `pipelineAdapter` named `name` around `NewETL(p)`. */
  function Adapter<E, T>(p: Etl.Processor<E, T>, name: string): (r: Runner)
    ensures r.name == name
  {
    Runner(name, (s: Bucket.Settings, cancel: Option<nat>) => AdapterSpec(p, [], s, cancel).outcome)
  }

  // ---------------------------------------------------------------------------
  // The permit pool of RunAll
  // ---------------------------------------------------------------------------

  /** Where a pipeline's goroutine stands: waiting for a permit, running with one, or done. */
  datatype Phase = Waiting | Active | Done

  /** A goroutine acquires a permit, or finishes its run and releases its permit. */
  datatype Move = Admit(id: nat) | Finish(id: nat)

  function Count(phases: seq<Phase>, v: Phase): nat
    decreases |phases|
  {
    if phases == [] then 0
    else Count(phases[..|phases| - 1], v) + if phases[|phases| - 1] == v then 1 else 0
  }

  lemma {:induction false} CountUpdate(phases: seq<Phase>, i: nat, w: Phase, v: Phase)
    requires i < |phases|
    ensures Count(phases[i := w], v) + (if phases[i] == v then 1 else 0)
         == Count(phases, v) + (if w == v then 1 else 0)
    decreases |phases|
  {
    var last := |phases| - 1;
    var updated := phases[i := w];
    assert updated[..last] == if i == last then phases[..last] else phases[..last][i := w];
    if i < last {
      CountUpdate(phases[..last], i, w, v);
    }
  }

  lemma {:induction false} CountNone(phases: seq<Phase>, v: Phase)
    requires forall j :: 0 <= j < |phases| ==> phases[j] != v
    ensures Count(phases, v) == 0
    decreases |phases|
  {
    if phases != [] {
      CountNone(phases[..|phases| - 1], v);
    }
  }

  lemma {:induction false} CountAll(phases: seq<Phase>, v: Phase)
    requires forall j :: 0 <= j < |phases| ==> phases[j] == v
    ensures Count(phases, v) == |phases|
    decreases |phases|
  {
    if phases != [] {
      CountAll(phases[..|phases| - 1], v);
    }
  }

  lemma {:induction false} CountPositive(phases: seq<Phase>, v: Phase, i: nat)
    requires i < |phases| && phases[i] == v
    ensures Count(phases, v) >= 1
    decreases |phases|
  {
    if i < |phases| - 1 {
      CountPositive(phases[..|phases| - 1], v, i);
    }
  }

  /**
   * The semaphore and the pipelines' progress: `held` permits are taken (one
   * per running pipeline), `peak` is the most ever taken at once, and
   * `finished` lists the pipelines done, in the order they finished.
   */
  datatype Pool = Pool(phases: seq<Phase>, held: nat, peak: nat, finished: seq<nat>)

  ghost predicate PoolInv(pool: Pool, n: nat, cap: nat) {
    && |pool.phases| == n
    && pool.held == Count(pool.phases, Active)
    && pool.held <= pool.peak <= cap
    && |pool.finished| == Count(pool.phases, Done)
    && (forall k :: 0 <= k < |pool.finished| ==> pool.finished[k] < n && pool.phases[pool.finished[k]] == Done)
    && (forall a, b :: 0 <= a < b < |pool.finished| ==> pool.finished[a] != pool.finished[b])
    && (forall i :: 0 <= i < n && pool.phases[i] == Done ==> i in pool.finished)
  }

  /** `sem <- struct{}{}`: it goes through only for a waiting pipeline and while a permit is free. */
  function AdmitPool(pool: Pool, i: nat, cap: nat): Pool {
    if i < |pool.phases| && pool.phases[i] == Waiting && pool.held < cap then
      Pool(pool.phases[i := Active], pool.held + 1, if pool.held + 1 > pool.peak then pool.held + 1 else pool.peak, pool.finished)
    else pool
  }

  /** A running pipeline's `Run` returns: its result is sent and its permit released. */
  function FinishPool(pool: Pool, i: nat): Pool {
    if i < |pool.phases| && pool.phases[i] == Active && pool.held > 0 then
      Pool(pool.phases[i := Done], pool.held - 1, pool.peak, pool.finished + [i])
    else pool
  }

  lemma AdmitKeeps(pool: Pool, n: nat, cap: nat, i: nat)
    requires PoolInv(pool, n, cap)
    ensures PoolInv(AdmitPool(pool, i, cap), n, cap)
  {
    if i < n && pool.phases[i] == Waiting && pool.held < cap {
      CountUpdate(pool.phases, i, Active, Active);
      CountUpdate(pool.phases, i, Active, Done);
    }
  }

  lemma FinishKeeps(pool: Pool, n: nat, cap: nat, i: nat)
    requires PoolInv(pool, n, cap)
    ensures PoolInv(FinishPool(pool, i), n, cap)
    ensures i < n && pool.phases[i] == Active ==> FinishPool(pool, i).phases == pool.phases[i := Done]
  {
    if i < n && pool.phases[i] == Active {
      CountPositive(pool.phases, Active, i);
      CountUpdate(pool.phases, i, Done, Active);
      CountUpdate(pool.phases, i, Done, Done);
      var next := FinishPool(pool, i);
      assert forall j :: 0 <= j < n && next.phases[j] == Done ==> j in next.finished by {
        forall j | 0 <= j < n && next.phases[j] == Done ensures j in next.finished {
          if j != i {
            assert j in pool.finished;
          } else {
            assert next.finished[|pool.finished|] == i;
          }
        }
      }
    }
  }

  /** The pipeline results, in the order `results` delivers them: the first error, or nil. */
  method Collect(results: seq<Outcome>) returns (r: Outcome)
    ensures r.Pass? <==> forall k :: 0 <= k < |results| ==> results[k].Pass?
    ensures r.Fail? ==> exists k :: 0 <= k < |results| && results[k] == r && forall j :: 0 <= j < k ==> results[j].Pass?
  {
    for k := 0 to |results|
      invariant forall j :: 0 <= j < k ==> results[j].Pass?
    {
      if results[k].Fail? {
        r := results[k];
        return;
      }
    }
    r := Pass;
  }

  // ---------------------------------------------------------------------------
  // Manager
  // ---------------------------------------------------------------------------

  class Manager {
    var pipelines: seq<Runner>
    const workerNum: int
    const bucketConfig: Bucket.Config

    /** `NewManager`: defaults the caller's `WorkerNum` in place and copies the configuration. */
    constructor New(c: Config, bucketConfig: Bucket.Config)
      modifies c
      ensures c.workerNum == if old(c.workerNum) <= 0 then DefaultWorkerNum else old(c.workerNum)
      ensures workerNum == c.workerNum && workerNum > 0
      ensures pipelines == [] && this.bucketConfig == bucketConfig
    {
      if c.workerNum <= 0 {
        c.workerNum := DefaultWorkerNum;
      }
      pipelines := [];
      workerNum := c.workerNum;
      this.bucketConfig := bucketConfig;
    }

    /** `addPipelineInternal`: appends, keeping every earlier entry and accepting a repeated name. */
    method AddPipelineInternal(runner: Runner)
      modifies this
      ensures pipelines == old(pipelines) + [runner]
    {
      pipelines := pipelines + [runner];
    }

    /** `AddRunner`: appends a custom runner, as `addPipelineInternal` does. */
    method AddRunner(runner: Runner)
      modifies this
      ensures pipelines == old(pipelines) + [runner]
    {
      pipelines := pipelines + [runner];
    }

    /** What pipeline `i` sends into `results`: nil, or its error tagged with its name. */
    function Reported(i: nat, cancel: nat -> Option<nat>): (r: Outcome)
      reads this, bucketConfig
      requires i < |pipelines|
      ensures r.Pass? <==> pipelines[i].run(bucketConfig.Value(), cancel(i)).Pass?
      ensures r.Fail? ==> r.error == PipelineError(pipelines[i].name, pipelines[i].run(bucketConfig.Value(), cancel(i)).error)
    {
      var o := pipelines[i].run(bucketConfig.Value(), cancel(i));
      if o.Fail? then Fail(PipelineError(pipelines[i].name, o.error)) else Pass
    }

    /**
     * `RunAll`: with no pipeline registered, the "no pipelines registered"
     * error and nothing runs. Otherwise every pipeline runs exactly once
     * (`finished` is the order they finished in), never more than
     * `workerNum` at once, and the result is the first error in that order,
     * or nil when every pipeline returned nil. `pool` is the semaphore once
     * `wg.Wait` returns: every pipeline done, no permit held, and the most
     * permits ever held at once within `workerNum`.
     */
    method RunAll(schedule: seq<Move>, cancel: nat -> Option<nat>)
      returns (r: Outcome, finished: seq<nat>, results: seq<Outcome>, pool: Pool)
      requires workerNum > 0
      ensures pipelines == [] ==> r == Fail(NoPipelines) && finished == [] && results == []
      ensures pipelines != [] ==> Bucket.IsOrder(finished, |pipelines|)
      ensures |results| == |finished|
      ensures forall k :: 0 <= k < |finished| ==> finished[k] < |pipelines| && results[k] == Reported(finished[k], cancel)
      ensures PoolInv(pool, |pipelines|, workerNum) && pool.finished == finished
      ensures forall i :: 0 <= i < |pipelines| ==> pool.phases[i] == Done
      ensures pool.held == 0
      ensures r.Pass? <==> pipelines != [] && forall i :: 0 <= i < |pipelines| ==> Reported(i, cancel).Pass?
      ensures r.Fail? && pipelines != [] ==>
        exists k :: 0 <= k < |results| && results[k] == r && forall j :: 0 <= j < k ==> results[j].Pass?
    {
      if pipelines == [] {
        r, finished, results, pool := Fail(NoPipelines), [], [], Pool([], 0, 0, []);
        return;
      }
      var n := |pipelines|;
      pool := Settle(n, workerNum, schedule);
      finished := pool.finished;
      forall i | 0 <= i < n ensures pool.phases[i] == Done {
        assert i in finished;
        var k :| 0 <= k < |finished| && finished[k] == i;
      }
      CountNone(pool.phases, Active);
      results := [];
      for k := 0 to n
        invariant |results| == k
        invariant forall j :: 0 <= j < k ==> results[j] == Reported(finished[j], cancel)
      {
        results := results + [Reported(finished[k], cancel)];
      }
      r := Collect(results);
      forall i | 0 <= i < n && r.Pass? ensures Reported(i, cancel).Pass? {
        assert i in finished;
        var k :| 0 <= k < |finished| && finished[k] == i;
        assert results[k].Pass?;
      }
    }
  }

  /** Plays the schedule, skipping the moves that cannot happen at that point. */
  method PlayMoves(n: nat, cap: nat, schedule: seq<Move>) returns (pool: Pool)
    ensures PoolInv(pool, n, cap)
  {
    pool := Pool(seq(n, _ => Waiting), 0, 0, []);
    CountNone(pool.phases, Active);
    CountNone(pool.phases, Done);
    for k := 0 to |schedule|
      invariant PoolInv(pool, n, cap)
    {
      match schedule[k]
      case Admit(i) =>
        AdmitKeeps(pool, n, cap, i);
        pool := AdmitPool(pool, i, cap);
      case Finish(i) =>
        FinishKeeps(pool, n, cap, i);
        pool := FinishPool(pool, i);
    }
  }

  /** `wg.Wait`, first part: every pipeline still running finishes. */
  method FinishRunning(start: Pool, n: nat, cap: nat) returns (pool: Pool)
    requires PoolInv(start, n, cap)
    ensures PoolInv(pool, n, cap)
    ensures forall j :: 0 <= j < n ==> pool.phases[j] != Active
    ensures forall j :: 0 <= j < n ==> (pool.phases[j] == Waiting <==> start.phases[j] == Waiting)
  {
    pool := start;
    for i := 0 to n
      invariant PoolInv(pool, n, cap)
      invariant forall j :: 0 <= j < i ==> pool.phases[j] != Active
      invariant forall j :: 0 <= j < n ==> (pool.phases[j] == Waiting <==> start.phases[j] == Waiting)
    {
      if pool.phases[i] == Active {
        CountPositive(pool.phases, Active, i);
        FinishKeeps(pool, n, cap, i);
        pool := FinishPool(pool, i);
      }
    }
  }

  /** `wg.Wait`, second part: with no permit taken, each waiting pipeline is admitted and finishes. */
  method RunWaiting(start: Pool, n: nat, cap: nat) returns (pool: Pool)
    requires cap > 0 && PoolInv(start, n, cap)
    requires forall j :: 0 <= j < n ==> start.phases[j] != Active
    ensures PoolInv(pool, n, cap)
    ensures forall j :: 0 <= j < n ==> pool.phases[j] == Done
  {
    pool := start;
    for i := 0 to n
      invariant PoolInv(pool, n, cap)
      invariant forall j :: 0 <= j < n ==> pool.phases[j] != Active
      invariant forall j :: 0 <= j < i ==> pool.phases[j] == Done
    {
      if pool.phases[i] == Waiting {
        CountNone(pool.phases, Active);
        AdmitKeeps(pool, n, cap, i);
        pool := AdmitPool(pool, i, cap);
        FinishKeeps(pool, n, cap, i);
        pool := FinishPool(pool, i);
      }
    }
  }

  /**
   * Every goroutine of `RunAll` runs once: after the schedule and `wg.Wait`,
   * `finished` lists each of the `n` pipelines exactly once, and no more than
   * `cap` permits were ever taken at once.
   */
  method Settle(n: nat, cap: nat, schedule: seq<Move>) returns (pool: Pool)
    requires cap > 0
    ensures PoolInv(pool, n, cap)
    ensures Bucket.IsOrder(pool.finished, n)
  {
    pool := PlayMoves(n, cap, schedule);
    pool := FinishRunning(pool, n, cap);
    pool := RunWaiting(pool, n, cap);
    CountAll(pool.phases, Done);
  }

  /** `AddPipelineGeneric`: registers `NewETL(processor)` under `name` through `addPipelineInternal`. */
  method AddPipelineGeneric<E, T>(m: Manager, processor: Etl.Processor<E, T>, name: string)
    modifies m
    ensures m.pipelines == old(m.pipelines) + [Adapter(processor, name)]
  {
    m.AddPipelineInternal(Adapter(processor, name));
  }
}
