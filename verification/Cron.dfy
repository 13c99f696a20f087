/** Scheduled jobs: which jobs a tick runs, and which slot each run is for.  Times
    are whole numbers of seconds. */
module Cron {
  import opened Wrappers
  import opened Sequences

  type Time = int

  /** A once-schedule whose time does not parse is `Once(None)`.  Cron expressions are
      evaluated by the parameter `cronNext` wherever they occur. */
  datatype JobSchedule = Once(runAt: Option<Time>) | Interval(minutes: nat) | CronExpr(expr: string)

  datatype CronJob = CronJob(id: string, prompt: string, schedule: JobSchedule, enabled: bool,
                             nextRunAt: Option<Time>, lastRunAt: Option<Time>,
                             lastStatus: Option<string>, lastError: Option<string>)

  datatype JobRunResult = JobRunResult(status: string, response: string)

  type CronNext = (string, Time) -> Option<Time>

  /** What running a job yields: its result, and the time when it had finished. */
  type Runner = CronJob -> (JobRunResult, Time)

  // ----- One job -----

  function ComputeNextRun(schedule: JobSchedule, after: Time, cronNext: CronNext): Option<Time> {
    match schedule
    case Once(runAt) => if runAt.Some? && runAt.value > after then runAt else None
    case Interval(minutes) => Some(after + 60 * minutes)
    case CronExpr(expr) => cronNext(expr, after)
  }

  predicate IsDue(job: CronJob, now: Time) {
    job.enabled && job.nextRunAt.Some? && job.nextRunAt.value <= now
  }

  /** The job record after a run that finished at `finish`. */
  function Completed(job: CronJob, result: JobRunResult, finish: Time, cronNext: CronNext): CronJob {
    var base := if job.schedule.Interval? && job.nextRunAt.Some? then job.nextRunAt.value else finish;
    job.(lastRunAt := Some(finish),
         lastStatus := Some(result.status),
         lastError := if result.status == "failed" then Some(result.response) else None,
         nextRunAt := ComputeNextRun(job.schedule, base, cronNext),
         enabled := job.enabled && !job.schedule.Once?)
  }

  // ----- The store -----

  /** `jobs` with the first entry of that id replaced. */
  function Updated(jobs: seq<CronJob>, job: CronJob): seq<CronJob> {
    if jobs == [] then []
    else if jobs[0].id == job.id then [job] + jobs[1..]
    else [jobs[0]] + Updated(jobs[1..], job)
  }

  function Without(jobs: seq<CronJob>, id: string): seq<CronJob> {
    if jobs == [] then []
    else (if jobs[0].id == id then [] else [jobs[0]]) + Without(jobs[1..], id)
  }

  predicate Contains(jobs: seq<CronJob>, id: string) {
    exists k :: 0 <= k < |jobs| && jobs[k].id == id
  }

  class JobStore {
    var jobs: seq<CronJob>

    constructor ()
      ensures jobs == []
    {
      jobs := [];
    }

    method Create(job: CronJob)
      modifies this
      ensures jobs == old(jobs) + [job]
    {
      jobs := jobs + [job];
    }

    method Update(job: CronJob) returns (found: bool)
      modifies this
      ensures found == Contains(old(jobs), job.id)
      ensures jobs == Updated(old(jobs), job)
    {
      var i := 0;
      while i < |jobs| && jobs[i].id != job.id
        invariant 0 <= i <= |jobs| && jobs == old(jobs)
        invariant forall k :: 0 <= k < i ==> jobs[k].id != job.id
      {
        i := i + 1;
      }
      UpdatedAt(jobs, job, i);
      found := i < |jobs|;
      if found {
        jobs := jobs[i := job];
      }
    }

    method Remove(id: string) returns (removed: bool)
      modifies this
      ensures removed == Contains(old(jobs), id)
      ensures jobs == Without(old(jobs), id)
    {
      WithoutLength(jobs, id);
      var before := |jobs|;
      jobs := Without(jobs, id);
      removed := |jobs| < before;
    }
  }

  lemma {:induction false} UpdatedAt(jobs: seq<CronJob>, job: CronJob, i: nat)
    requires i <= |jobs| && (forall k :: 0 <= k < i ==> jobs[k].id != job.id)
    requires i < |jobs| ==> jobs[i].id == job.id
    ensures Updated(jobs, job) == if i < |jobs| then jobs[i := job] else jobs
  {
    if jobs != [] && i > 0 {
      UpdatedAt(jobs[1..], job, i - 1);
      HeadAndTail(jobs);
    } else if jobs != [] {
      HeadAndTail(jobs);
    }
  }

  lemma {:induction false} WithoutLength(jobs: seq<CronJob>, id: string)
    ensures |Without(jobs, id)| <= |jobs|
    ensures |Without(jobs, id)| < |jobs| <==> Contains(jobs, id)
  {
    if jobs != [] {
      WithoutLength(jobs[1..], id);
      if Contains(jobs[1..], id) {
        var k :| 0 <= k < |jobs| - 1 && jobs[1..][k].id == id;
        assert jobs[k + 1].id == id;
      }
      if Contains(jobs, id) && jobs[0].id != id {
        var k :| 0 <= k < |jobs| && jobs[k].id == id;
        assert jobs[1..][k - 1].id == id;
      }
    }
  }

  /** Of every job in any place: it stays unless it has the id. */
  lemma {:induction false} WithoutExact(a: seq<CronJob>, job: CronJob, b: seq<CronJob>, id: string)
    ensures Without([], id) == []
    ensures Without(a + ([job] + b), id)
         == Without(a, id) + ((if job.id == id then [] else [job]) + Without(b, id))
  {
    if a == [] {
      EmptyConcat([job] + b);
      PartsOfConcat([job], b);
      EmptyConcat(Without([job] + b, id));
    } else {
      TailOfConcat(a, [job] + b);
      WithoutExact(a[1..], job, b, id);
      Associative(if a[0].id == id then [] else [a[0]], Without(a[1..], id),
                  (if job.id == id then [] else [job]) + Without(b, id));
    }
  }

  // ----- One tick -----

  /** One execution: which job, for which slot, in a tick at which time. */
  datatype Execution = Execution(id: string, slot: Time, at: Time)

  function RunOf(job: CronJob, now: Time): Execution
    requires IsDue(job, now)
  {
    Execution(job.id, job.nextRunAt.value, now)
  }

  /** Works through a snapshot of the job list while the store changes underneath. */
  function TickJobs(snapshot: seq<CronJob>, store: seq<CronJob>, now: Time, run: Runner, cronNext: CronNext):
      (seq<CronJob>, seq<Execution>)
  {
    if snapshot == [] then (store, [])
    else
      var n := |snapshot| - 1;
      var (s, log) := TickJobs(snapshot[..n], store, now, run, cronNext);
      var job := snapshot[n];
      if IsDue(job, now) then
        var (result, finish) := run(job);
        (Updated(s, Completed(job, result, finish, cronNext)), log + [RunOf(job, now)])
      else (s, log)
  }

  class CronScheduler {
    const store: JobStore
    const cronNext: CronNext

    constructor (store: JobStore, cronNext: CronNext)
      ensures this.store == store && this.cronNext == cronNext
    {
      this.store := store;
      this.cronNext := cronNext;
    }

    method MarkCompleted(job: CronJob, result: JobRunResult, finish: Time)
      modifies store
      ensures store.jobs == Updated(old(store.jobs), Completed(job, result, finish, cronNext))
    {
      var updated := job.(lastRunAt := Some(finish), lastStatus := Some(result.status),
                          lastError := if result.status == "failed" then Some(result.response) else None);
      var base := finish;
      if job.schedule.Interval? && job.nextRunAt.Some? {
        base := job.nextRunAt.value;
      }
      updated := updated.(nextRunAt := ComputeNextRun(job.schedule, base, cronNext));
      if job.schedule.Once? {
        updated := updated.(enabled := false);
      }
      var found := store.Update(updated);
    }

    method Tick(now: Time, run: Runner) returns (log: seq<Execution>)
      modifies store
      ensures (store.jobs, log) == TickJobs(old(store.jobs), old(store.jobs), now, run, cronNext)
    {
      var jobs := store.jobs;
      log := [];
      for i := 0 to |jobs|
        invariant (store.jobs, log) == TickJobs(jobs[..i], jobs, now, run, cronNext)
      {
        assert jobs[..i + 1][..i] == jobs[..i];
        var job := jobs[i];
        if !job.enabled {
          continue;
        }
        if job.nextRunAt.None? || job.nextRunAt.value > now {
          continue;
        }
        var (result, finish) := run(job);
        MarkCompleted(job, result, finish);
        log := log + [Execution(job.id, job.nextRunAt.value, now)];
      }
      assert jobs[..|jobs|] == jobs;
    }
  }

  // ----- A tick touches each job once -----

  predicate DistinctIds(jobs: seq<CronJob>) {
    forall i, j :: 0 <= i < j < |jobs| ==> jobs[i].id != jobs[j].id
  }

  function AfterTick(job: CronJob, now: Time, run: Runner, cronNext: CronNext): CronJob {
    if IsDue(job, now) then Completed(job, run(job).0, run(job).1, cronNext) else job
  }

  lemma UpdateByPosition(jobs: seq<CronJob>, k: nat, job: CronJob)
    requires DistinctIds(jobs) && k < |jobs| && job.id == jobs[k].id
    ensures Updated(jobs, job) == jobs[k := job]
  {
    UpdatedAt(jobs, job, k);
  }

  /** With distinct ids and no edits during the tick, the store afterwards holds every
      job as its own run left it. */
  lemma {:induction false} TickPerJob(jobs: seq<CronJob>, n: nat, now: Time, run: Runner, cronNext: CronNext)
    requires DistinctIds(jobs) && n <= |jobs|
    ensures var s := TickJobs(jobs[..n], jobs, now, run, cronNext).0;
            && |s| == |jobs|
            && (forall k :: 0 <= k < |jobs| ==>
                  s[k] == if k < n then AfterTick(jobs[k], now, run, cronNext) else jobs[k])
  {
    if n > 0 {
      TickPerJob(jobs, n - 1, now, run, cronNext);
      var s := TickJobs(jobs[..n - 1], jobs, now, run, cronNext).0;
      assert jobs[..n][..n - 1] == jobs[..n - 1];
      if IsDue(jobs[n - 1], now) {
        var job := AfterTick(jobs[n - 1], now, run, cronNext);
        forall i, j | 0 <= i < j < |s| ensures s[i].id != s[j].id {
          assert s[i].id == jobs[i].id && s[j].id == jobs[j].id;
        }
        UpdateByPosition(s, n - 1, job);
      }
    }
  }

  function ExecutionsOf(log: seq<Execution>, id: string): seq<Execution> {
    if log == [] then []
    else (if log[0].id == id then [log[0]] else []) + ExecutionsOf(log[1..], id)
  }

  lemma {:induction false} ExecutionsConcat(a: seq<Execution>, b: seq<Execution>, id: string)
    ensures ExecutionsOf(a + b, id) == ExecutionsOf(a, id) + ExecutionsOf(b, id)
  {
    if a == [] {
      EmptyConcat(b);
      EmptyConcat(ExecutionsOf(b, id));
    } else {
      TailOfConcat(a, b);
      ExecutionsConcat(a[1..], b, id);
      Associative(if a[0].id == id then [a[0]] else [], ExecutionsOf(a[1..], id), ExecutionsOf(b, id));
    }
  }

  lemma OneExecution(e: Execution, id: string)
    ensures ExecutionsOf([e], id) == if e.id == id then [e] else []
  {
    assert [e][1..] == [];
  }

  lemma {:induction false} TickRunsDue(jobs: seq<CronJob>, n: nat, k: nat, now: Time, run: Runner, cronNext: CronNext)
    requires DistinctIds(jobs) && n <= |jobs| && k < |jobs|
    ensures ExecutionsOf(TickJobs(jobs[..n], jobs, now, run, cronNext).1, jobs[k].id)
            == if k < n && IsDue(jobs[k], now) then [RunOf(jobs[k], now)] else []
  {
    if n > 0 {
      TickRunsDue(jobs, n - 1, k, now, run, cronNext);
      assert jobs[..n][..n - 1] == jobs[..n - 1];
      var log := TickJobs(jobs[..n - 1], jobs, now, run, cronNext).1;
      if IsDue(jobs[n - 1], now) {
        ExecutionsConcat(log, [RunOf(jobs[n - 1], now)], jobs[k].id);
        OneExecution(RunOf(jobs[n - 1], now), jobs[k].id);
      }
      if k == n - 1 {
        EmptyConcat(ExecutionsOf([], jobs[k].id));
      }
    }
  }

  /** A tick runs a job at most once: exactly when it is enabled and its time has come. */
  lemma TickRunsOnce(jobs: seq<CronJob>, k: nat, now: Time, run: Runner, cronNext: CronNext)
    requires DistinctIds(jobs) && k < |jobs|
    ensures ExecutionsOf(TickJobs(jobs, jobs, now, run, cronNext).1, jobs[k].id)
            == if jobs[k].enabled && jobs[k].nextRunAt.Some? && jobs[k].nextRunAt.value <= now then
                 [Execution(jobs[k].id, jobs[k].nextRunAt.value, now)]
               else []
  {
    hide TickJobs, ExecutionsOf, DistinctIds;
    TickRunsDue(jobs, |jobs|, k, now, run, cronNext);
    TakeAll(jobs);
  }

  // ----- Whole runs -----

  datatype Tick = Tick(now: Time, run: Runner)

  function Run(jobs: seq<CronJob>, ticks: seq<Tick>, cronNext: CronNext): (seq<CronJob>, seq<Execution>) {
    if ticks == [] then (jobs, [])
    else
      var n := |ticks| - 1;
      var (s, log) := Run(jobs, ticks[..n], cronNext);
      var (s', more) := TickJobs(s, s, ticks[n].now, ticks[n].run, cronNext);
      (s', log + more)
  }

  /** The single-job view of a run: job `k` and its executions, tick by tick. */
  lemma {:induction false} RunPerJob(jobs: seq<CronJob>, ticks: seq<Tick>, cronNext: CronNext)
    requires DistinctIds(jobs)
    ensures var s := Run(jobs, ticks, cronNext).0;
            |s| == |jobs| && forall k :: 0 <= k < |jobs| ==> s[k].id == jobs[k].id && s[k].schedule == jobs[k].schedule
  {
    if ticks != [] {
      var n := |ticks| - 1;
      RunPerJob(jobs, ticks[..n], cronNext);
      var s := Run(jobs, ticks[..n], cronNext).0;
      KeepsDistinct(jobs, s);
      TickPerJob(s, |s|, ticks[n].now, ticks[n].run, cronNext);
      TakeAll(s);
    }
  }

  lemma KeepsDistinct(jobs: seq<CronJob>, s: seq<CronJob>)
    requires DistinctIds(jobs) && |s| == |jobs| && forall k :: 0 <= k < |jobs| ==> s[k].id == jobs[k].id
    ensures DistinctIds(s)
  {
  }

  /** One more tick, seen by job `k`. */
  lemma NextTick(jobs: seq<CronJob>, ticks: seq<Tick>, cronNext: CronNext, k: nat)
    requires DistinctIds(jobs) && k < |jobs| && ticks != []
    ensures var n := |ticks| - 1;
            var (s, log) := Run(jobs, ticks[..n], cronNext);
            var (s', log') := Run(jobs, ticks, cronNext);
            && |s| == |s'| == |jobs|
            && s'[k] == AfterTick(s[k], ticks[n].now, ticks[n].run, cronNext)
            && ExecutionsOf(log', jobs[k].id)
               == ExecutionsOf(log, jobs[k].id)
                  + (if IsDue(s[k], ticks[n].now) then [RunOf(s[k], ticks[n].now)] else [])
  {
    var n := |ticks| - 1;
    var (s, log) := Run(jobs, ticks[..n], cronNext);
    RunPerJob(jobs, ticks[..n], cronNext);
    KeepsDistinct(jobs, s);
    TickPerJob(s, |s|, ticks[n].now, ticks[n].run, cronNext);
    TickRunsDue(s, |s|, k, ticks[n].now, ticks[n].run, cronNext);
    TakeAll(s);
    ExecutionsConcat(log, TickJobs(s, s, ticks[n].now, ticks[n].run, cronNext).1, jobs[k].id);
  }

  /** Main result: the executions of an interval job are for its slots, every one once,
      in order, none skipped and none early, however late or dense the ticks come; and the
      job waits for the first slot not yet run. */
  lemma {:induction false} IntervalRunsEverySlotOnce(jobs: seq<CronJob>, ticks: seq<Tick>, cronNext: CronNext,
                                                     k: nat, first: Time, minutes: nat)
    requires DistinctIds(jobs) && k < |jobs| && jobs[k].enabled
    requires jobs[k].schedule == Interval(minutes) && jobs[k].nextRunAt == Some(first)
    ensures var (s, log) := Run(jobs, ticks, cronNext);
            var runs := ExecutionsOf(log, jobs[k].id);
            && |s| == |jobs| && s[k].enabled && s[k].schedule == Interval(minutes)
            && s[k].nextRunAt == Some(first + |runs| * (60 * minutes))
            && (forall j :: 0 <= j < |runs| ==>
                  runs[j].slot == first + j * (60 * minutes) && runs[j].slot <= runs[j].at)
            && (forall j :: 0 <= j < |runs| ==> exists i :: 0 <= i < |ticks| && ticks[i].now == runs[j].at)
            && |runs| <= |ticks|
  {
    if ticks != [] {
      var n := |ticks| - 1;
      IntervalRunsEverySlotOnce(jobs, ticks[..n], cronNext, k, first, minutes);
      NextTick(jobs, ticks, cronNext, k);
      var (s, log) := Run(jobs, ticks[..n], cronNext);
      var runs := ExecutionsOf(log, jobs[k].id);
      NextSlot(first, |runs|, 60 * minutes);
      forall j | 0 <= j < |runs| ensures exists i :: 0 <= i < |ticks| && ticks[i].now == runs[j].at {
        var i :| 0 <= i < n && ticks[..n][i].now == runs[j].at;
        assert ticks[i].now == runs[j].at;
      }
    }
  }

  lemma NextSlot(first: Time, n: nat, step: nat)
    ensures first + n * step + step == first + (n + 1) * step
  {
  }

  /** Consequence: when no tick came after `t`, at most one run per slot up to `t` has
      happened, and none if the first slot is still ahead. */
  lemma IntervalRunBound(jobs: seq<CronJob>, ticks: seq<Tick>, cronNext: CronNext,
                         k: nat, first: Time, minutes: nat, t: Time)
    requires DistinctIds(jobs) && k < |jobs| && jobs[k].enabled && minutes > 0
    requires jobs[k].schedule == Interval(minutes) && jobs[k].nextRunAt == Some(first)
    requires forall i :: 0 <= i < |ticks| ==> ticks[i].now <= t
    ensures var runs := ExecutionsOf(Run(jobs, ticks, cronNext).1, jobs[k].id);
            |runs| <= if t < first then 0 else (t - first) / (60 * minutes) + 1
  {
    IntervalRunsEverySlotOnce(jobs, ticks, cronNext, k, first, minutes);
    var runs := ExecutionsOf(Run(jobs, ticks, cronNext).1, jobs[k].id);
    if runs != [] {
      var last := |runs| - 1;
      assert first + last * (60 * minutes) <= runs[last].at <= t;
      NonNegativeProduct(last, 60 * minutes);
      QuotientBound(last, 60 * minutes, t - first);
    }
  }

  /** How many ticks come at or after `t`. */
  function TicksFrom(ticks: seq<Tick>, t: Time): nat {
    if ticks == [] then 0
    else TicksFrom(ticks[..|ticks| - 1], t) + (if ticks[|ticks| - 1].now >= t then 1 else 0)
  }

  /** No slot is missed for good: `m` ticks at or after slot `m - 1` give at least `m` runs. */
  lemma {:induction false} IntervalRunsCatchUp(jobs: seq<CronJob>, ticks: seq<Tick>, cronNext: CronNext,
                                               k: nat, first: Time, minutes: nat, m: nat)
    requires DistinctIds(jobs) && k < |jobs| && jobs[k].enabled && m > 0
    requires jobs[k].schedule == Interval(minutes) && jobs[k].nextRunAt == Some(first)
    ensures var runs := ExecutionsOf(Run(jobs, ticks, cronNext).1, jobs[k].id);
            |runs| >= m || |runs| >= TicksFrom(ticks, first + (m - 1) * (60 * minutes))
  {
    if ticks != [] {
      hide Run, TickJobs, ExecutionsOf, DistinctIds, AfterTick;
      var n := |ticks| - 1;
      IntervalRunsCatchUp(jobs, ticks[..n], cronNext, k, first, minutes, m);
      IntervalRunsEverySlotOnce(jobs, ticks[..n], cronNext, k, first, minutes);
      NextTick(jobs, ticks, cronNext, k);
      var runs := ExecutionsOf(Run(jobs, ticks[..n], cronNext).1, jobs[k].id);
      if |runs| < m {
        ProductMonotone(|runs|, m - 1, 60 * minutes);
      }
    }
  }

  lemma NonNegativeProduct(a: nat, b: nat)
    ensures a * b >= 0
  {
  }

  lemma QuotientBound(q: nat, d: nat, x: nat)
    requires d > 0 && q * d <= x
    ensures q <= x / d
  {
    if q > x / d {
      var e := x / d;
      assert x < (e + 1) * d;
      assert (e + 1) * d <= q * d by { ProductMonotone(e + 1, q, d); }
    }
  }

  lemma ProductMonotone(a: nat, b: nat, d: nat)
    requires a <= b
    ensures a * d <= b * d
  {
  }

  /** A once-job runs at most once. */
  lemma {:induction false} OnceRunsAtMostOnce(jobs: seq<CronJob>, ticks: seq<Tick>, cronNext: CronNext, k: nat)
    requires DistinctIds(jobs) && k < |jobs| && jobs[k].schedule.Once?
    ensures var (s, log) := Run(jobs, ticks, cronNext);
            var runs := ExecutionsOf(log, jobs[k].id);
            && |s| == |jobs| && |runs| <= 1
            && (|runs| == 1 ==> !s[k].enabled)
            && (|runs| == 0 ==> s[k] == jobs[k])
  {
    if ticks != [] {
      OnceRunsAtMostOnce(jobs, ticks[..|ticks| - 1], cronNext, k);
      NextTick(jobs, ticks, cronNext, k);
    }
  }

  // ----- What a run leaves in the record, and when the next one is -----

  /** The job record after running `was` in one of the ticks. */
  ghost predicate IsLastRun(tick: Tick, was: CronJob, last: Execution, job: CronJob) {
    var (result, finish) := tick.run(was);
    && tick.now == last.at && was.id == job.id && was.nextRunAt == Some(last.slot)
    && job.lastRunAt == Some(finish) && job.lastStatus == Some(result.status)
    && job.lastError == (if result.status == "failed" then Some(result.response) else None)
    && (job.schedule.Once? ==>
          var runAt := job.schedule.runAt;
          !job.enabled && job.nextRunAt == (if runAt.Some? && runAt.value > finish then runAt else None))
  }

  ghost predicate RanLast(ticks: seq<Tick>, last: Execution, job: CronJob) {
    exists tick, was :: tick in ticks && IsLastRun(tick, was, last, job)
  }

  /** A job that never ran is as it was; one that did carries time, status and error of its
      last run; one that is to run once is then disabled, and keeps its time only if that is
      still to come.  Id, prompt and schedule are never changed. */
  lemma {:induction false} LastRunIsRecorded(jobs: seq<CronJob>, ticks: seq<Tick>, cronNext: CronNext, k: nat)
    requires DistinctIds(jobs) && k < |jobs|
    ensures var (s, log) := Run(jobs, ticks, cronNext);
            var runs := ExecutionsOf(log, jobs[k].id);
            && |s| == |jobs|
            && s[k].id == jobs[k].id && s[k].prompt == jobs[k].prompt && s[k].schedule == jobs[k].schedule
            && (runs == [] ==> s[k] == jobs[k])
            && (runs != [] ==> RanLast(ticks, runs[|runs| - 1], s[k]))
  {
    if ticks != [] {
      var n := |ticks| - 1;
      LastRunIsRecorded(jobs, ticks[..n], cronNext, k);
      NextTick(jobs, ticks, cronNext, k);
      var (s, log) := Run(jobs, ticks[..n], cronNext);
      var runs := ExecutionsOf(log, jobs[k].id);
      if IsDue(s[k], ticks[n].now) {
        assert IsLastRun(ticks[n], s[k], RunOf(s[k], ticks[n].now),
                         AfterTick(s[k], ticks[n].now, ticks[n].run, cronNext));
      } else if runs != [] {
        var tick, was :| tick in ticks[..n] && IsLastRun(tick, was, runs[|runs| - 1], s[k]);
        assert tick in ticks;
      }
    }
  }

  /** The slot that the expression gives behind the end of a run. */
  ghost predicate FollowsRun(ticks: seq<Tick>, run: Execution, expr: string, cronNext: CronNext, slot: Option<Time>) {
    exists tick, was: CronJob :: tick in ticks && tick.now == run.at && was.nextRunAt == Some(run.slot)
                        && slot == cronNext(expr, tick.run(was).1)
  }

  /** A job with a cron expression runs for its first slot, and then each time for the slot
      that the expression gives behind the end of the run before, as long as it gives one;
      it stays enabled. */
  lemma {:induction false} CronExprFollows(jobs: seq<CronJob>, ticks: seq<Tick>, cronNext: CronNext, k: nat,
                                           expr: string)
    requires DistinctIds(jobs) && k < |jobs| && jobs[k].enabled && jobs[k].schedule == CronExpr(expr)
    ensures var (s, log) := Run(jobs, ticks, cronNext);
            var runs := ExecutionsOf(log, jobs[k].id);
            && |s| == |jobs| && s[k].enabled && s[k].schedule == CronExpr(expr)
            && (runs == [] ==> s[k].nextRunAt == jobs[k].nextRunAt)
            && (runs != [] ==> jobs[k].nextRunAt == Some(runs[0].slot)
                               && FollowsRun(ticks, runs[|runs| - 1], expr, cronNext, s[k].nextRunAt))
            && (forall j :: 0 <= j < |runs| - 1 ==> FollowsRun(ticks, runs[j], expr, cronNext, Some(runs[j + 1].slot)))
            && (forall j :: 0 <= j < |runs| ==> runs[j].slot <= runs[j].at)
  {
    if ticks != [] {
      var n := |ticks| - 1;
      CronExprFollows(jobs, ticks[..n], cronNext, k, expr);
      NextTick(jobs, ticks, cronNext, k);
      var (s, log) := Run(jobs, ticks[..n], cronNext);
      var runs := ExecutionsOf(log, jobs[k].id);
      forall j, slot | 0 <= j < |runs| && FollowsRun(ticks[..n], runs[j], expr, cronNext, slot)
        ensures FollowsRun(ticks, runs[j], expr, cronNext, slot)
      {
        var tick, was: CronJob :| tick in ticks[..n] && tick.now == runs[j].at && was.nextRunAt == Some(runs[j].slot)
                         && slot == cronNext(expr, tick.run(was).1);
        assert tick in ticks;
      }
      if IsDue(s[k], ticks[n].now) {
        assert FollowsRun(ticks, RunOf(s[k], ticks[n].now), expr, cronNext,
                          AfterTick(s[k], ticks[n].now, ticks[n].run, cronNext).nextRunAt);
      }
    }
  }
}
