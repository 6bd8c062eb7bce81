/**
 The certificate worker as an object over shared job pointers. Each method is one
 indivisible action of a goroutine and moves the abstract pipeline by one step: the same
 job object sits in the map, in a channel and in a goroutine's hand, and updating it
 through one of them updates it for all.
 */
module CertificateWorkers {
  import opened JobPipeline

  class JobObject {
    const id: JobId
    const kind: JobKind
    const user: int
    const name: string
    var status: JobStatus
    var started: bool
    var ended: bool

    constructor (id: JobId, kind: JobKind, user: int, name: string)
      ensures this.id == id && Value() == Job(kind, user, name, Pending, false, false)
    {
      this.id, this.kind, this.user, this.name := id, kind, user, name;
      status, started, ended := Pending, false, false;
    }

    function Value(): Job
      reads this
    {
      Job(kind, user, name, status, started, ended)
    }

    method Begin()
      modifies this
      ensures Value() == old(Value()).(status := Processing, started := true)
    {
      status := Processing;
      started := true;
    }

    method End(outcome: JobStatus)
      modifies this
      ensures Value() == old(Value()).(status := outcome, ended := true)
    {
      ended := true;
      status := outcome;
    }
  }

  class CertificateWorker {
    const queueSize: nat
    var shutdown: bool
    var jobsByID: map<JobId, JobObject>
    var jobs: seq<JobObject>
    var results: seq<JobObject>
    var workers: seq<Worker>
    var collector: Collector
    ghost var core: Core

    /** The object's fields are the pipeline's, with pointers in place of identifiers. */
    ghost predicate Valid()
      reads this, jobsByID.Values
    {
      && core.capacity == queueSize && core.closed == shutdown
      && core.workers == workers && core.collector == collector
      && Carries(core.jobs) && Points(jobs, core.queue) && Points(results, core.results)
    }

    /** The registered objects carry these fields. */
    ghost predicate Carries(values: map<JobId, Job>)
      reads this`jobsByID, jobsByID.Values
    {
      && jobsByID.Keys == values.Keys
      && forall id :: id in jobsByID ==> jobsByID[id].id == id && jobsByID[id].Value() == values[id]
    }

    /** A channel holds the registered objects of these identifiers, in this order. */
    ghost predicate Points(channel: seq<JobObject>, ids: seq<JobId>)
      reads this`jobsByID
    {
      && |channel| == |ids|
      && forall i :: 0 <= i < |ids| ==> ids[i] in jobsByID && channel[i] == jobsByID[ids[i]]
    }

    constructor (workerCount: nat, queueSize: nat)
      ensures Valid() && core == Start(workerCount, queueSize)
    {
      this.queueSize := queueSize;
      shutdown, jobsByID, jobs, results := false, map[], [], [];
      workers, collector := seq(workerCount, _ => Idle), Ready;
      core := Start(workerCount, queueSize);
    }

    /** The locked map write of SubmitJob. */
    method RegisterJob(id: JobId, kind: JobKind, user: int, name: string) returns (job: JobObject)
      requires Valid() && CoreEnabled(core, Register(id, kind, user, name))
      modifies this
      ensures Valid() && core == CoreNext(old(core), Register(id, kind, user, name))
      ensures fresh(job) && jobsByID == old(jobsByID)[id := job]
    {
      job := new JobObject(id, kind, user, name);
      jobsByID := jobsByID[id := job];
      core := CoreNext(core, Register(id, kind, user, name));
    }

    /** The send arm of SubmitJob's select. */
    method SendJob(job: JobObject)
      requires Valid() && CoreEnabled(core, Enqueue(job.id)) && job.id in jobsByID && jobsByID[job.id] == job
      modifies this`jobs, this`core
      ensures Valid() && core == CoreNext(old(core), Enqueue(job.id))
      ensures jobs == old(jobs) + [job]
    {
      jobs := jobs + [job];
      core := CoreNext(core, Enqueue(job.id));
    }

    /** A worker's receive from the jobs channel. */
    method ReceiveJob(w: nat) returns (job: JobObject)
      requires Valid() && CoreEnabled(core, Take(w))
      modifies this`jobs, this`workers, this`core
      ensures Valid() && core == CoreNext(old(core), Take(w))
      ensures job == old(jobs)[0] && jobs == old(jobs)[1..] && workers[w] == Taken(job.id)
    {
      job := jobs[0];
      jobs := jobs[1..];
      workers := workers[w := Taken(job.id)];
      core := CoreNext(core, Take(w));
    }

    /** The registered objects other than `job` carry these fields. */
    ghost predicate CarriesBut(values: map<JobId, Job>, job: JobObject)
      reads this`jobsByID, jobsByID.Values
    {
      && jobsByID.Keys == values.Keys
      && forall id :: id in jobsByID ==> jobsByID[id].id == id && (id == job.id || jobsByID[id].Value() == values[id])
    }

    /** Changing one object changes one entry. */
    lemma OneChanged(values: map<JobId, Job>, job: JobObject)
      requires CarriesBut(values, job) && job.id in jobsByID && jobsByID[job.id] == job
      ensures Carries(values[job.id := job.Value()])
    {
    }

    /** The first assignments of processJob. */
    method BeginJob(w: nat, job: JobObject)
      requires Valid() && CoreEnabled(core, Begin(w)) && workers[w].job == job.id && jobsByID[job.id] == job
      modifies this`workers, this`core, job
      ensures Valid() && core == CoreNext(old(core), Begin(w))
    {
      job.Begin();
      OneChanged(core.jobs, job);
      workers := workers[w := Working(job.id)];
      core := CoreNext(core, Begin(w));
    }

    /** The last assignments of processJob, given how the job went. */
    method FinishJob(w: nat, job: JobObject, ok: bool)
      requires Valid() && CoreEnabled(core, Finish(w, ok)) && workers[w].job == job.id && jobsByID[job.id] == job
      modifies this`workers, this`core, job
      ensures Valid() && core == CoreNext(old(core), Finish(w, ok))
    {
      job.End(if ok then Completed else Failed);
      OneChanged(core.jobs, job);
      workers := workers[w := Posting(job.id)];
      core := CoreNext(core, Finish(w, ok));
    }

    /** The send that ends processJob. */
    method PostResult(w: nat, job: JobObject)
      requires Valid() && CoreEnabled(core, Post(w)) && workers[w].job == job.id
      requires job.id in jobsByID && jobsByID[job.id] == job
      modifies this`results, this`workers, this`core
      ensures Valid() && core == CoreNext(old(core), Post(w))
      ensures results == old(results) + [job]
    {
      results := results + [job];
      workers := workers[w := Idle];
      core := CoreNext(core, Post(w));
    }

    /** The collector's receive, and its write of the object back into the map: the object that is there already. */
    method ReceiveResult() returns (job: JobObject)
      requires Valid() && CoreEnabled(core, Receive)
      modifies this`results, this`collector, this`core, this`jobsByID
      ensures Valid() && core == CoreNext(old(core), Receive)
      ensures job == old(results)[0] && results == old(results)[1..] && jobsByID == old(jobsByID)
    {
      job := results[0];
      assert core.results[0] in jobsByID && job.id == core.results[0];
      assert jobsByID[job.id := job] == jobsByID;
      results := results[1..];
      jobsByID := jobsByID[job.id := job];
      collector := Delivering(job.id);
      core := CoreNext(core, Receive);
    }

    /** The collector is done with a job. */
    method EndCollection()
      requires Valid() && CoreEnabled(core, Collect)
      modifies this`collector, this`core
      ensures Valid() && core == CoreNext(old(core), Collect)
    {
      collector := Ready;
      core := CoreNext(core, Collect);
    }

    /** A worker's receive from the shutdown channel. */
    method LeaveWorker(w: nat)
      requires Valid() && CoreEnabled(core, ExitWorker(w))
      modifies this`workers, this`core
      ensures Valid() && core == CoreNext(old(core), ExitWorker(w))
    {
      workers := workers[w := Exited];
      core := CoreNext(core, ExitWorker(w));
    }

    /** The collector's receive from the shutdown channel. */
    method LeaveCollector()
      requires Valid() && CoreEnabled(core, ExitCollector)
      modifies this`collector, this`core
      ensures Valid() && core == CoreNext(old(core), ExitCollector)
    {
      collector := Stopped;
      core := CoreNext(core, ExitCollector);
    }

    /** The close in Stop. */
    method CloseShutdown()
      requires Valid() && CoreEnabled(core, Close)
      modifies this`shutdown, this`core
      ensures Valid() && core == CoreNext(old(core), Close)
    {
      shutdown := true;
      core := CoreNext(core, Close);
    }

    /** GetJob: the registered object, or none. */
    method GetJob(id: JobId) returns (job: JobObject?)
      requires Valid()
      ensures job != null <==> id in core.jobs
      ensures job != null ==> job.id == id && job.Value() == core.jobs[id]
    {
      job := if id in jobsByID then jobsByID[id] else null;
    }
  }
}
