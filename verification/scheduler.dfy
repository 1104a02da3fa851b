/** The scheduler's own bookkeeping (scheduler.py): the registry of jobs a
    `TaskScheduler` keeps beside APScheduler, and the history of sync runs a
    `DataSyncScheduler` keeps.  APScheduler is not modelled: whether one of
    its calls raised is a parameter, and so are the timestamps. */
module Scheduler {
  import opened Common
  import Text

  // ---------------------------------------------------------------- slices

  /** `s[-n:]` for `n > 0`: the last `n` elements, or all of them. */
  function Newest<T>(s: seq<T>, n: nat): (r: seq<T>)
    ensures |r| == if |s| <= n then |s| else n
    ensures forall k :: 0 <= k < |r| ==> r[k] == s[|s| - |r| + k]
  {
    if |s| <= n then s else s[|s| - n..]
  }

  /** `s[start:]` with Python's meaning of a negative or too large start. */
  function PySuffix<T>(s: seq<T>, start: int): seq<T>
  {
    if start < 0 then (if -start >= |s| then s else s[|s| + start..])
    else if start >= |s| then []
    else s[start..]
  }

  /** Trimming to the newest `n` before appending changes nothing: trimming
      once afterwards gives the same. */
  lemma NewestAppend<T>(s: seq<T>, x: T, n: nat)
    requires n > 0
    ensures Newest(Newest(s, n) + [x], n) == Newest(s + [x], n)
  {
    var a := Newest(Newest(s, n) + [x], n);
    var b := Newest(s + [x], n);
    assert |a| == |b|;
    forall k | 0 <= k < |a| ensures a[k] == b[k] {
      if k == |a| - 1 {
        assert a[k] == x;
      } else {
        assert a[k] == Newest(s, n)[|Newest(s, n)| + 1 - |a| + k];
      }
    }
  }

  // ---------------------------------------------------------------- the job registry

  const CronTrigger: string := "cron"
  const IntervalTrigger: string := "interval"

  /** An entry of `jobs`, without the APScheduler job object. */
  datatype JobInfo = JobInfo(functionName: string, trigger: string, createdAt: string)

  /** `get_job_status`, without the next run time APScheduler computes. */
  datatype JobStatus = JobStatus(jobId: string, functionName: string, trigger: string, createdAt: string)

  /** The id `add_job` makes up when none is given; `stamp` stands for the
      current timestamp. */
  function DefaultJobId(count: nat, stamp: string): string
  {
    "job_" + Text.NatToString(count) + "_" + stamp
  }

  class TaskScheduler {
    var jobs: map<string, JobInfo>
    var isRunning: bool

    /** Every registered job has a cron or an interval trigger. */
    ghost predicate Valid()
      reads this
    {
      forall id :: id in jobs ==> jobs[id].trigger == CronTrigger || jobs[id].trigger == IntervalTrigger
    }

    constructor()
      ensures Valid()
      ensures jobs == map[] && !isRunning
    {
      jobs := map[];
      isRunning := false;
    }

    /** `start`; `fails` says whether APScheduler's start raised. */
    method Start(fails: bool)
      modifies this
      ensures isRunning == (old(isRunning) || !fails)
      ensures jobs == old(jobs)
    {
      if !isRunning {
        if !fails {
          isRunning := true;
        }
      }
    }

    /** `stop`; `fails` says whether APScheduler's shutdown raised. */
    method Stop(fails: bool)
      modifies this
      ensures isRunning == (old(isRunning) && fails)
      ensures jobs == old(jobs)
    {
      if isRunning {
        if !fails {
          isRunning := false;
        }
      }
    }

    /** `add_job`; `rejected` says whether building the trigger or
        registering the job with APScheduler raised.  A job registered under
        an existing id replaces it. */
    method AddJob(functionName: string, trigger: string, jobId: Option<string>, stamp: string, createdAt: string, rejected: bool)
      returns (id: Option<string>)
      requires Valid()
      modifies this
      ensures Valid()
      ensures isRunning == old(isRunning)
      ensures id.None? <==> (trigger != CronTrigger && trigger != IntervalTrigger) || rejected
      ensures id.None? ==> jobs == old(jobs)
      ensures id.Some? ==>
        && id.value == (if jobId.Some? then jobId.value else DefaultJobId(|old(jobs)|, stamp))
        && jobs == old(jobs)[id.value := JobInfo(functionName, trigger, createdAt)]
    {
      var name := if jobId.Some? then jobId.value else DefaultJobId(|jobs|, stamp);
      if trigger != CronTrigger && trigger != IntervalTrigger {
        return None;
      }
      if rejected {
        return None;
      }
      jobs := jobs[name := JobInfo(functionName, trigger, createdAt)];
      id := Some(name);
    }

    /** `remove_job`; `fails` says whether APScheduler's removal raised. */
    method RemoveJob(jobId: string, fails: bool) returns (removed: bool)
      requires Valid()
      modifies this
      ensures Valid()
      ensures isRunning == old(isRunning)
      ensures removed <==> jobId in old(jobs) && !fails
      ensures jobs == if removed then old(jobs) - {jobId} else old(jobs)
    {
      if jobId in jobs {
        if fails {
          return false;
        }
        jobs := jobs - {jobId};
        return true;
      }
      return false;
    }

    /** `get_job_status`. */
    function StatusOf(jobId: string): (s: Option<JobStatus>)
      reads this
      ensures s.Some? <==> jobId in jobs
      ensures s.Some? ==> s.value.jobId == jobId && s.value.trigger == jobs[jobId].trigger
    {
      if jobId in jobs then
        Some(JobStatus(jobId, jobs[jobId].functionName, jobs[jobId].trigger, jobs[jobId].createdAt))
      else None
    }

    /** `pause_job`: the registry does not record pausing. */
    method PauseJob(jobId: string, fails: bool) returns (paused: bool)
      ensures paused <==> jobId in jobs && !fails
    {
      paused := jobId in jobs && !fails;
    }

    /** `resume_job`. */
    method ResumeJob(jobId: string, fails: bool) returns (resumed: bool)
      ensures resumed <==> jobId in jobs && !fails
    {
      resumed := jobId in jobs && !fails;
    }
  }

  // ---------------------------------------------------------------- the sync history

  const MaxHistory: nat := 100
  const SyncFunctionName: string := "_sync_wrapper"
  const DailySyncId: string := "daily_sync"
  const HourlySyncId: string := "hourly_sync"

  /** The dict `sync_aws_data` returned; a missing key is `None`. */
  datatype SyncResult = SyncResult(status: Option<string>, dataPoints: Option<int>, insightsGenerated: Option<int>)

  /** A run of the sync: it returned, or it raised with a message. */
  datatype SyncOutcome = Returned(result: SyncResult) | Raised(error: string)

  datatype SyncRecord =
    | Synced(timestamp: string, status: Option<string>, dataPoints: int, insightsGenerated: int)
    | SyncFailed(timestamp: string, error: string)

  function OrZero(x: Option<int>): int { if x.Some? then x.value else 0 }

  function SyncedRecord(r: SyncResult, timestamp: string): SyncRecord
  {
    Synced(timestamp, r.status, OrZero(r.dataPoints), OrZero(r.insightsGenerated))
  }

  /** The history after a series of successful runs, each trimmed as
      `_sync_wrapper` trims. */
  function AfterSyncs(history: seq<SyncRecord>, records: seq<SyncRecord>): seq<SyncRecord>
  {
    if |records| == 0 then history
    else Newest(AfterSyncs(history, records[..|records| - 1]) + [records[|records| - 1]], MaxHistory)
  }

  /** After one or more successful runs the history is the newest hundred of
      all records, old and new, in order: trimming at every run loses
      nothing that a single trim at the end would keep. */
  lemma {:induction false} AfterSyncsNewest(history: seq<SyncRecord>, records: seq<SyncRecord>)
    requires |records| > 0
    ensures AfterSyncs(history, records) == Newest(history + records, MaxHistory)
    decreases |records|
  {
    var init := records[..|records| - 1];
    var x := records[|records| - 1];
    assert history + records == (history + init) + [x];
    if |init| > 0 {
      AfterSyncsNewest(history, init);
      NewestAppend(history + init, x, MaxHistory);
    }
  }

  datatype SchedulerStatus = SchedulerStatus(
    isRunning: bool,
    jobs: map<string, JobInfo>,
    syncHistoryCount: nat,
    lastSync: Option<SyncRecord>)

  class DataSyncScheduler {
    var scheduler: TaskScheduler
    var syncHistory: seq<SyncRecord>

    ghost predicate Valid()
      reads this, scheduler
    {
      scheduler.Valid()
    }

    constructor()
      ensures Valid() && fresh(scheduler)
      ensures syncHistory == [] && scheduler.jobs == map[] && !scheduler.isRunning
    {
      scheduler := new TaskScheduler();
      syncHistory := [];
    }

    method Start(fails: bool)
      modifies scheduler
      ensures scheduler.isRunning == (old(scheduler.isRunning) || !fails)
      ensures scheduler.jobs == old(scheduler.jobs)
    {
      scheduler.Start(fails);
    }

    method Stop(fails: bool)
      modifies scheduler
      ensures scheduler.isRunning == (old(scheduler.isRunning) && fails)
      ensures scheduler.jobs == old(scheduler.jobs)
    {
      scheduler.Stop(fails);
    }

    /** `schedule_daily_sync`: a cron job under the fixed id "daily_sync". */
    method ScheduleDailySync(createdAt: string, rejected: bool) returns (id: Option<string>)
      requires Valid()
      modifies scheduler
      ensures Valid()
      ensures id.Some? <==> !rejected
      ensures id.Some? ==>
        && id.value == DailySyncId
        && scheduler.jobs == old(scheduler.jobs)[DailySyncId := JobInfo(SyncFunctionName, CronTrigger, createdAt)]
      ensures id.None? ==> scheduler.jobs == old(scheduler.jobs)
    {
      id := scheduler.AddJob(SyncFunctionName, CronTrigger, Some(DailySyncId), "", createdAt, rejected);
    }

    /** `schedule_hourly_sync`: an interval job under the fixed id "hourly_sync". */
    method ScheduleHourlySync(createdAt: string, rejected: bool) returns (id: Option<string>)
      requires Valid()
      modifies scheduler
      ensures Valid()
      ensures id.Some? <==> !rejected
      ensures id.Some? ==>
        && id.value == HourlySyncId
        && scheduler.jobs == old(scheduler.jobs)[HourlySyncId := JobInfo(SyncFunctionName, IntervalTrigger, createdAt)]
      ensures id.None? ==> scheduler.jobs == old(scheduler.jobs)
    {
      id := scheduler.AddJob(SyncFunctionName, IntervalTrigger, Some(HourlySyncId), "", createdAt, rejected);
    }

    /** `schedule_custom_sync`: an interval job whose id names the interval. */
    method ScheduleCustomSync(intervalMinutes: int, createdAt: string, rejected: bool) returns (id: Option<string>)
      requires Valid()
      modifies scheduler
      ensures Valid()
      ensures id.Some? <==> !rejected
      ensures id.Some? ==>
        && id.value == "custom_sync_" + Text.IntToString(intervalMinutes) + "m"
        && scheduler.jobs == old(scheduler.jobs)[id.value := JobInfo(SyncFunctionName, IntervalTrigger, createdAt)]
      ensures id.None? ==> scheduler.jobs == old(scheduler.jobs)
    {
      var name := "custom_sync_" + Text.IntToString(intervalMinutes) + "m";
      id := scheduler.AddJob(SyncFunctionName, IntervalTrigger, Some(name), "", createdAt, rejected);
    }

    /** `_sync_wrapper`: a returned run is recorded and the history trimmed
        to the newest hundred; a raised run is recorded without trimming. */
    method SyncWrapper(outcome: SyncOutcome, timestamp: string)
      modifies this
      ensures scheduler == old(scheduler)
      ensures outcome.Returned? ==>
        syncHistory == Newest(old(syncHistory) + [SyncedRecord(outcome.result, timestamp)], MaxHistory)
      ensures outcome.Raised? ==> syncHistory == old(syncHistory) + [SyncFailed(timestamp, outcome.error)]
    {
      if outcome.Returned? {
        var result := outcome.result;
        var record := Synced(timestamp, result.status, OrZero(result.dataPoints), OrZero(result.insightsGenerated));
        syncHistory := syncHistory + [record];
        if |syncHistory| > MaxHistory {
          syncHistory := syncHistory[|syncHistory| - MaxHistory..];
        }
      } else {
        syncHistory := syncHistory + [SyncFailed(timestamp, outcome.error)];
      }
    }

    /** `get_sync_history(limit)`: the newest `limit` records; `limit == 0`
        gives all of them (`[-0:]` is `[0:]`), and a negative limit drops
        that many of the oldest. */
    function SyncHistory(limit: int): (r: seq<SyncRecord>)
      reads this
      ensures limit > 0 ==> r == Newest(syncHistory, limit)
      ensures limit == 0 ==> r == syncHistory
      ensures limit < 0 ==> r == syncHistory[if -limit <= |syncHistory| then -limit else |syncHistory|..]
    {
      PySuffix(syncHistory, -limit)
    }

    /** `get_scheduler_status`. */
    function Status(): (s: SchedulerStatus)
      reads this, scheduler
      ensures s.syncHistoryCount == |syncHistory|
      ensures s.lastSync.Some? <==> |syncHistory| > 0
      ensures s.lastSync.Some? ==> s.lastSync.value == syncHistory[|syncHistory| - 1]
    {
      SchedulerStatus(
        scheduler.isRunning,
        scheduler.jobs,
        |syncHistory|,
        if |syncHistory| > 0 then Some(syncHistory[|syncHistory| - 1]) else None)
    }
  }

  /** After a returned run the history holds at most a hundred records and
      ends with the new one; a raised run grows the history by one, past a
      hundred if need be. */
  lemma SyncWrapperBounds(history: seq<SyncRecord>, result: SyncResult, timestamp: string)
    ensures var h := Newest(history + [SyncedRecord(result, timestamp)], MaxHistory);
      |h| <= MaxHistory && h[|h| - 1] == SyncedRecord(result, timestamp)
      && (|history| < MaxHistory ==> h == history + [SyncedRecord(result, timestamp)])
  {
  }
}
