/** The manager of the periodic crawl (app/scheduler/tasks.py): a running
    flag, the scheduler's job table, and the last result of the crawl. The
    scheduler library itself is reduced to its job table; when a job fires
    next is an oracle, and the crawl's result (or the exception that escaped
    it) is a parameter of the wrapper. */
module Scheduler {
  import opened Results
  import Crawler
  import Store

  /** An instant, as the clock reports it. */
  type Timestamp = int

  datatype CronTrigger = CronTrigger(hour: nat, minute: nat)

  datatype Job = Job(id: string, name: string, trigger: CronTrigger)

  /** The `{"last_run": ..., "result": ...}` entry of the last-result map. */
  datatype LastRun = LastRun(lastRun: Timestamp, result: Crawler.JobResult)

  /** One entry of `get_task_info`; `lastResult` is `None` where the source
      reports `{}`. */
  datatype TaskInfo = TaskInfo(id: string, name: string, nextRun: Option<Timestamp>, lastResult: Option<LastRun>)

  const CrawlerTaskId: string := "crawler_task"

  /** The job `start` registers: daily at 02:00. */
  const CrawlerJob: Job := Job(CrawlerTaskId, "古诗文爬虫任务", CronTrigger(2, 0))

  const TaskErrorPrefix: string := "执行古诗文爬虫任务时出错: "

  // ---------------------------------------------------------------------------
  // The job table

  function Ids(jobs: seq<Job>): seq<string>
  {
    seq(|jobs|, i requires 0 <= i < |jobs| => jobs[i].id)
  }

  predicate UniqueIds(jobs: seq<Job>)
  {
    forall i, j :: 0 <= i < j < |jobs| ==> jobs[i].id != jobs[j].id
  }

  /** `add_job(..., replace_existing=True)`: the job takes the place of the
      one registered under its id, or is added after the others. */
  function Register(jobs: seq<Job>, job: Job): (r: seq<Job>)
    ensures job in r
    ensures forall j :: j in r ==> j == job || j in jobs
  {
    if jobs == [] then [job]
    else if jobs[0].id == job.id then [job] + jobs[1..]
    else [jobs[0]] + Register(jobs[1..], job)
  }

  /** Registering adds a job only when its id is new. */
  lemma {:induction false} RegisterLength(jobs: seq<Job>, job: Job)
    ensures |Register(jobs, job)| == if job.id in Ids(jobs) then |jobs| else |jobs| + 1
  {
    if jobs != [] {
      if jobs[0].id != job.id {
        RegisterLength(jobs[1..], job);
        assert Ids(jobs) == [jobs[0].id] + Ids(jobs[1..]);
      } else {
        assert Ids(jobs)[0] == job.id;
      }
    }
  }

  /** The job's id is registered afterwards, and no id but it and the ids
      already there. */
  lemma {:induction false} RegisterMembers(jobs: seq<Job>, job: Job)
    ensures job.id in Ids(Register(jobs, job))
    ensures forall k :: k in Ids(Register(jobs, job)) ==> k == job.id || k in Ids(jobs)
  {
    var r := Register(jobs, job);
    if jobs != [] && jobs[0].id != job.id {
      var rest := Register(jobs[1..], job);
      RegisterMembers(jobs[1..], job);
      assert r == [jobs[0]] + rest;
      assert Ids(r) == [jobs[0].id] + Ids(rest);
      assert Ids(jobs) == [jobs[0].id] + Ids(jobs[1..]);
    } else if jobs != [] {
      assert Ids(r) == [job.id] + Ids(jobs)[1..];
      assert Ids(r)[0] == job.id;
    } else {
      assert Ids(r)[0] == job.id;
    }
  }

  /** Every job with another id is kept. */
  lemma {:induction false} RegisterKeepsOthers(jobs: seq<Job>, job: Job)
    ensures forall x :: x in jobs && x.id != job.id ==> x in Register(jobs, job)
  {
    if jobs != [] {
      var r := Register(jobs, job);
      assert jobs == [jobs[0]] + jobs[1..];
      if jobs[0].id != job.id {
        RegisterKeepsOthers(jobs[1..], job);
        assert r == [jobs[0]] + Register(jobs[1..], job);
      } else {
        assert r == [job] + jobs[1..];
      }
    }
  }

  /** Registering keeps ids unique, and the registered job is then the only
      one with its id: a second registration replaces, never duplicates. */
  lemma {:induction false} RegisterKeepsIdsUnique(jobs: seq<Job>, job: Job)
    requires UniqueIds(jobs)
    ensures UniqueIds(Register(jobs, job))
    ensures forall i :: 0 <= i < |Register(jobs, job)| && Register(jobs, job)[i].id == job.id ==>
              Register(jobs, job)[i] == job
  {
    if jobs != [] {
      var r := Register(jobs, job);
      var tail := jobs[1..];
      if jobs[0].id != job.id {
        var rest := Register(tail, job);
        RegisterKeepsIdsUnique(tail, job);
        RegisterMembers(tail, job);
        assert r == [jobs[0]] + rest;
        forall j | 0 < j < |r| ensures r[j].id != jobs[0].id {
          assert r[j] == rest[j - 1] && r[j] in rest;
          if r[j] != job {
            var k :| 0 <= k < |tail| && tail[k] == r[j];
            assert jobs[k + 1] == r[j];
          }
        }
      } else {
        assert r == [job] + tail;
        forall j | 0 < j < |r| ensures r[j].id != job.id {
          assert r[j] == jobs[j];
        }
      }
    }
  }

  /** Registering the same job again changes nothing. */
  lemma {:induction false} RegisterIdempotent(jobs: seq<Job>, job: Job)
    ensures Register(Register(jobs, job), job) == Register(jobs, job)
  {
    if jobs != [] && jobs[0].id != job.id {
      RegisterIdempotent(jobs[1..], job);
      assert Register(jobs, job)[1..] == Register(jobs[1..], job);
    }
  }

  // ---------------------------------------------------------------------------
  // The wrapper

  /** What `_run_crawler_task` records and returns: the crawl's own result, or
      for an exception an `error` outcome carrying its message. */
  function Wrapped(inner: Result<Crawler.JobResult>): (r: Crawler.JobResult)
    ensures inner.Ok? ==> r == inner.value
    ensures inner.Fail? ==> r.status == Crawler.Error && r.data == None
                            && r.message == "执行古诗文爬虫任务时出错: " + inner.msg
  {
    match inner
    case Ok(result) => result
    case Fail(e) => Crawler.JobResult(Crawler.Error, TaskErrorPrefix + e, None)
  }

  /** The wrapper keeps outcomes well-formed: a well-formed result passes
      through, and an exception becomes a well-formed `error`. The crawl
      itself never raises, so a scheduled crawl records exactly what the crawl
      returned. */
  lemma WrapperNeverRaises(inner: Result<Crawler.JobResult>)
    ensures inner.Ok? && Crawler.WellFormed(inner.value) ==> Crawler.WellFormed(Wrapped(inner))
    ensures inner.Fail? ==> Crawler.WellFormed(Wrapped(inner))
  {
  }

  lemma WrappedCrawl(src: Crawler.Sources, name: string, fault: Crawler.StoreFault, m: map<string, Store.Collection>)
    ensures Wrapped(Ok(Crawler.Crawl(src, name, fault, m).result)) == Crawler.Crawl(src, name, fault, m).result
    ensures Crawler.WellFormed(Wrapped(Ok(Crawler.Crawl(src, name, fault, m).result)))
  {
  }

  /** The last-result map after a run that finished at `now`. */
  function Recorded(results: map<string, LastRun>, inner: Result<Crawler.JobResult>, now: Timestamp): map<string, LastRun>
  {
    results[CrawlerTaskId := LastRun(now, Wrapped(inner))]
  }

  /** Each run overwrites the one `crawler_task` entry and no other: only the
      latest run is remembered, whichever way it was started. */
  lemma RecordOverwrites(results: map<string, LastRun>, first: Result<Crawler.JobResult>, t1: Timestamp,
                         second: Result<Crawler.JobResult>, t2: Timestamp)
    ensures Recorded(Recorded(results, first, t1), second, t2) == Recorded(results, second, t2)
    ensures var after := Recorded(results, second, t2);
            CrawlerTaskId in after && after[CrawlerTaskId] == LastRun(t2, Wrapped(second))
            && after.Keys == results.Keys + {"crawler_task"}
            && (forall k :: k in results && k != "crawler_task" ==> after[k] == results[k])
  {
  }

  // ---------------------------------------------------------------------------
  // Task info

  function TaskInfoOf(job: Job, nextRunTime: string -> Option<Timestamp>, results: map<string, LastRun>): TaskInfo
  {
    TaskInfo(job.id, job.name, nextRunTime(job.id), if job.id in results then Some(results[job.id]) else None)
  }

  // ---------------------------------------------------------------------------
  // The manager

  class SchedulerManager {
    var running: bool
    /** The job store's contents, in registration order. */
    var jobs: seq<Job>
    var lastRunResults: map<string, LastRun>

    /** Job ids are unique, and a running manager has the crawl registered. */
    predicate Valid()
      reads this
    {
      UniqueIds(jobs) && (running ==> CrawlerTaskId in Ids(jobs))
    }

    /** A fresh manager is stopped, has no jobs and no recorded run. */
    constructor ()
      ensures Valid()
      ensures !running && jobs == [] && lastRunResults == map[]
    {
      running := false;
      jobs := [];
      lastRunResults := map[];
    }

    /** `start`: when stopped, registers the crawl (replacing an earlier
        registration) and runs; when running, does nothing. */
    method Start()
      requires Valid()
      modifies this
      ensures Valid()
      ensures old(running) ==> running == old(running) && jobs == old(jobs)
      ensures !old(running) ==> running && jobs == Register(old(jobs), CrawlerJob)
      ensures lastRunResults == old(lastRunResults)
    {
      if !running {
        RegisterMembers(jobs, CrawlerJob);
        RegisterKeepsIdsUnique(jobs, CrawlerJob);
        jobs := Register(jobs, CrawlerJob);
        running := true;
      }
    }

    /** `shutdown`: stops a running manager; on a stopped one it does nothing.
        The job table and the recorded results are kept. */
    method Shutdown()
      requires Valid()
      modifies this
      ensures Valid()
      ensures !running
      ensures jobs == old(jobs) && lastRunResults == old(lastRunResults)
    {
      if running {
        running := false;
      }
    }

    /** `_run_crawler_task`, given how the crawl ended and the time it ended:
        records and returns the wrapped outcome. */
    method RunCrawlerTask(inner: Result<Crawler.JobResult>, now: Timestamp) returns (r: Crawler.JobResult)
      requires Valid()
      modifies this
      ensures Valid()
      ensures r == Wrapped(inner)
      ensures lastRunResults == Recorded(old(lastRunResults), inner, now)
      ensures running == old(running) && jobs == old(jobs)
    {
      match inner {
        case Ok(result) =>
          lastRunResults := lastRunResults[CrawlerTaskId := LastRun(now, result)];
          r := result;
        case Fail(e) =>
          var error := Crawler.JobResult(Crawler.Error, TaskErrorPrefix + e, None);
          lastRunResults := lastRunResults[CrawlerTaskId := LastRun(now, error)];
          r := error;
      }
    }

    /** `run_crawler_now`: the same body as a scheduled run, so it leaves the
        same state and returns the same outcome. */
    method RunCrawlerNow(inner: Result<Crawler.JobResult>, now: Timestamp) returns (r: Crawler.JobResult)
      requires Valid()
      modifies this
      ensures Valid()
      ensures r == Wrapped(inner)
      ensures lastRunResults == Recorded(old(lastRunResults), inner, now)
      ensures running == old(running) && jobs == old(jobs)
    {
      r := RunCrawlerTask(inner, now);
    }

    /** `get_task_info`: one entry per registered job, in table order, with
        the job's next fire time and its recorded run, if any. A valid
        manager lists each id once, and once started it lists the crawl. */
    method GetTaskInfo(nextRunTime: string -> Option<Timestamp>) returns (tasks: seq<TaskInfo>)
      ensures |tasks| == |jobs|
      ensures forall i :: 0 <= i < |jobs| ==> tasks[i] == TaskInfoOf(jobs[i], nextRunTime, lastRunResults)
      ensures forall i :: 0 <= i < |jobs| ==>
                tasks[i].id == jobs[i].id && tasks[i].name == jobs[i].name
                && tasks[i].nextRun == nextRunTime(jobs[i].id)
                && (tasks[i].lastResult.None? <==> jobs[i].id !in lastRunResults)
                && (jobs[i].id in lastRunResults ==> tasks[i].lastResult == Some(lastRunResults[jobs[i].id]))
      ensures Valid() ==> forall i, j :: 0 <= i < j < |tasks| ==> tasks[i].id != tasks[j].id
      ensures Valid() && running ==> exists i :: 0 <= i < |tasks| && tasks[i].id == CrawlerTaskId
    {
      tasks := [];
      for i := 0 to |jobs|
        invariant |tasks| == i
        invariant forall k :: 0 <= k < i ==> tasks[k] == TaskInfoOf(jobs[k], nextRunTime, lastRunResults)
      {
        var job := jobs[i];
        var last: Option<LastRun> := None;
        if job.id in lastRunResults {
          last := Some(lastRunResults[job.id]);
        }
        tasks := tasks + [TaskInfo(job.id, job.name, nextRunTime(job.id), last)];
      }
      if Valid() && running {
        var k :| 0 <= k < |jobs| && Ids(jobs)[k] == CrawlerTaskId;
        assert tasks[k].id == CrawlerTaskId;
      }
    }
  }

  /** Started from fresh, the manager lists exactly the crawl, with no recorded
      run; after a run it lists the crawl with that run's outcome. */
  method FreshManagerLifecycle(inner: Result<Crawler.JobResult>, now: Timestamp, nextRunTime: string -> Option<Timestamp>)
    returns (before: seq<TaskInfo>, after: seq<TaskInfo>)
    ensures before == [TaskInfo("crawler_task", "古诗文爬虫任务", nextRunTime("crawler_task"), None)]
    ensures after == [TaskInfo("crawler_task", "古诗文爬虫任务", nextRunTime("crawler_task"), Some(LastRun(now, Wrapped(inner))))]
  {
    var manager := new SchedulerManager();
    manager.Start();
    manager.Start();
    before := manager.GetTaskInfo(nextRunTime);
    var _ := manager.RunCrawlerNow(inner, now);
    after := manager.GetTaskInfo(nextRunTime);
  }
}
