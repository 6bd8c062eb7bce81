/**
 The certificate worker's queues and goroutines as a labelled step system.

 Every step is one indivisible action of one goroutine: a map write under the lock, a
 channel send or receive, a status assignment, the closing of the shutdown channel.
 What a job does between "processing" and its outcome is opaque here; CertService
 refines it.
 */
module JobPipeline {
  import opened Sequences

  type JobId = nat

  datatype JobKind = GenerateCert | RevokeCert | RenewCert

  datatype JobStatus = Pending | Processing | Completed | Failed

  /** A job object; `started` and `ended` say whether StartedAt and CompletedAt are set. */
  datatype Job = Job(kind: JobKind, user: int, name: string, status: JobStatus, started: bool, ended: bool)

  /** The program counter of one worker goroutine. */
  datatype Worker =
    | Idle
    | Taken(job: JobId)
    | Working(job: JobId)
    | Posting(job: JobId)
    | Exited
  {
    predicate Busy() { Taken? || Working? || Posting? }
  }

  datatype Collector = Ready | Delivering(job: JobId) | Stopped

  /** The stage a job has reached. Waiting and Aborted are its submitter's program counter. */
  datatype Stage = Waiting | Aborted | Queued | Held(worker: nat) | Posted | Delivered | Collected
  {
    predicate Received() { Delivered? || Collected? }
    predicate Begun() { Held? || Posted? || Received() }
    predicate Enqueued() { Queued? || Begun() }
  }

  datatype Core = Core(
    capacity: nat,
    closed: bool,
    jobs: map<JobId, Job>,
    stage: map<JobId, Stage>,
    queue: seq<JobId>,
    results: seq<JobId>,
    workers: seq<Worker>,
    collector: Collector,
    enqueued: seq<JobId>,
    taken: seq<JobId>,
    collected: seq<JobId>)

  datatype CoreStep =
    | Register(id: JobId, kind: JobKind, user: int, name: string)
    | Enqueue(id: JobId)
    | GiveUp(id: JobId)
    | Take(w: nat)
    | Begin(w: nat)
    | Finish(w: nat, ok: bool)
    | Post(w: nat)
    | ExitWorker(w: nat)
    | Receive
    | Collect
    | ExitCollector
    | Close

  function Start(workers: nat, capacity: nat): Core {
    Core(capacity, false, map[], map[], [], [], seq(workers, _ => Idle), Ready, [], [], [])
  }

  predicate CoreEnabled(c: Core, step: CoreStep) {
    match step
    case Register(id, _, _, _) => id !in c.jobs
    case Enqueue(id) => id in c.stage && c.stage[id].Waiting? && |c.queue| < c.capacity
    case GiveUp(id) => id in c.stage && c.stage[id].Waiting?
    case Take(w) => w < |c.workers| && c.workers[w].Idle? && c.queue != []
    case Begin(w) => w < |c.workers| && c.workers[w].Taken? && c.workers[w].job in c.jobs
    case Finish(w, ok) =>
      && w < |c.workers| && c.workers[w].Working? && c.workers[w].job in c.jobs
      && (ok ==> !c.jobs[c.workers[w].job].kind.RenewCert?)
    case Post(w) => w < |c.workers| && c.workers[w].Posting? && |c.results| < c.capacity
    case ExitWorker(w) => w < |c.workers| && c.workers[w].Idle? && c.closed
    case Receive => c.collector.Ready? && c.results != []
    case Collect => c.collector.Delivering?
    case ExitCollector => c.collector.Ready? && c.closed
    case Close => !c.closed
  }

  function CoreNext(c: Core, step: CoreStep): Core
    requires CoreEnabled(c, step)
  {
    match step
    case Register(id, kind, user, name) =>
      c.(jobs := c.jobs[id := Job(kind, user, name, Pending, false, false)], stage := c.stage[id := Waiting])
    case Enqueue(id) =>
      c.(queue := c.queue + [id], enqueued := c.enqueued + [id], stage := c.stage[id := Queued])
    case GiveUp(id) =>
      c.(stage := c.stage[id := Aborted])
    case Take(w) =>
      var id := c.queue[0];
      c.(queue := c.queue[1..], taken := c.taken + [id], workers := c.workers[w := Taken(id)],
         stage := c.stage[id := Held(w)])
    case Begin(w) =>
      var id := c.workers[w].job;
      c.(workers := c.workers[w := Working(id)],
         jobs := c.jobs[id := c.jobs[id].(status := Processing, started := true)])
    case Finish(w, ok) =>
      var id := c.workers[w].job;
      c.(workers := c.workers[w := Posting(id)],
         jobs := c.jobs[id := c.jobs[id].(status := if ok then Completed else Failed, ended := true)])
    case Post(w) =>
      var id := c.workers[w].job;
      c.(results := c.results + [id], workers := c.workers[w := Idle], stage := c.stage[id := Posted])
    case ExitWorker(w) =>
      c.(workers := c.workers[w := Exited])
    case Receive =>
      var id := c.results[0];
      c.(results := c.results[1..], collector := Delivering(id), stage := c.stage[id := Delivered])
    case Collect =>
      var id := c.collector.job;
      c.(collector := Ready, collected := c.collected + [id], stage := c.stage[id := Collected])
    case ExitCollector =>
      c.(collector := Stopped)
    case Close =>
      c.(closed := true)
  }

  /** Jobs are never forgotten and never change kind or owner. */
  ghost predicate JobsKept(c: Core, d: Core) {
    forall id :: id in c.jobs ==>
      && id in d.jobs && d.jobs[id].kind == c.jobs[id].kind
      && d.jobs[id].user == c.jobs[id].user && d.jobs[id].name == c.jobs[id].name
  }

  lemma JobsKeptStep(c: Core, step: CoreStep)
    requires CoreEnabled(c, step)
    ensures JobsKept(c, CoreNext(c, step))
  {
  }

  /** A job not seen before is the one being registered. */
  lemma JobAdded(c: Core, step: CoreStep, id: JobId)
    requires CoreEnabled(c, step) && id in CoreNext(c, step).jobs && id !in c.jobs
    ensures step.Register? && step.id == id
    ensures CoreNext(c, step).jobs[id].kind == step.kind && CoreNext(c, step).jobs[id].user == step.user
  {
  }

  // ---------------------------------------------------------------- invariant

  /** What a job's fields must be at each stage. */
  ghost predicate FieldsMatch(c: Core, id: JobId)
    requires id in c.jobs && id in c.stage
  {
    var j := c.jobs[id];
    match c.stage[id]
    case Waiting => j.status == Pending && !j.started && !j.ended
    case Aborted => j.status == Pending && !j.started && !j.ended
    case Queued => j.status == Pending && !j.started && !j.ended
    case Held(w) =>
      && w < |c.workers|
      && (match c.workers[w]
          case Taken(k) => k == id && j.status == Pending && !j.started && !j.ended
          case Working(k) => k == id && j.status == Processing && j.started && !j.ended
          case Posting(k) => k == id && j.status in {Completed, Failed} && j.started && j.ended
          case _ => false)
    case _ => j.status in {Completed, Failed} && j.started && j.ended
  }

  ghost predicate QueueMatch(c: Core) {
    && Distinct(c.queue) && |c.queue| <= c.capacity
    && (forall id :: id in c.queue <==> id in c.stage && c.stage[id].Queued?)
  }

  ghost predicate ResultsMatch(c: Core) {
    && Distinct(c.results) && |c.results| <= c.capacity
    && (forall id :: id in c.results <==> id in c.stage && c.stage[id].Posted?)
  }

  ghost predicate CollectedMatch(c: Core) {
    && Distinct(c.collected)
    && (forall id :: id in c.collected <==> id in c.stage && c.stage[id].Collected?)
  }

  ghost predicate WorkersMatch(c: Core) {
    forall w :: 0 <= w < |c.workers| && c.workers[w].Busy() ==>
      c.workers[w].job in c.stage && c.stage[c.workers[w].job] == Held(w)
  }

  ghost predicate CollectorMatch(c: Core) {
    && (c.collector.Delivering? ==> c.collector.job in c.stage)
    && (forall id :: id in c.stage ==> (c.stage[id].Delivered? <==> c.collector == Delivering(id)))
  }

  ghost predicate EnqueuedMatch(c: Core) {
    && Distinct(c.enqueued)
    && (forall id :: id in c.enqueued <==> id in c.stage && c.stage[id].Enqueued())
  }

  ghost predicate TakenMatch(c: Core) {
    && Distinct(c.taken)
    && (forall id :: id in c.taken <==> id in c.stage && c.stage[id].Begun())
  }

  ghost predicate JobsMatch(c: Core) {
    && c.stage.Keys == c.jobs.Keys
    && (forall id :: id in c.jobs ==> FieldsMatch(c, id))
  }

  ghost predicate RenewalsFail(c: Core) {
    forall id :: id in c.jobs && c.jobs[id].kind.RenewCert? ==> c.jobs[id].status != Completed
  }

  ghost predicate CoreInv(c: Core) {
    && JobsMatch(c) && RenewalsFail(c)
    && QueueMatch(c) && ResultsMatch(c) && CollectedMatch(c)
    && WorkersMatch(c) && CollectorMatch(c)
    && EnqueuedMatch(c) && TakenMatch(c)
  }

  lemma StartInv(workers: nat, capacity: nat)
    ensures CoreInv(Start(workers, capacity))
  {
  }

  lemma QueueStep(c: Core, step: CoreStep)
    requires CoreEnabled(c, step)
    requires JobsMatch(c) && QueueMatch(c) && ResultsMatch(c) && WorkersMatch(c) && CollectorMatch(c)
    ensures QueueMatch(CoreNext(c, step))
  {
    match step
    case Enqueue(id) => DistinctSnoc(c.queue, id);
    case Take(w) => DistinctTail(c.queue);
    case _ =>
  }

  lemma ResultsStep(c: Core, step: CoreStep)
    requires CoreEnabled(c, step)
    requires JobsMatch(c) && QueueMatch(c) && ResultsMatch(c) && WorkersMatch(c) && CollectorMatch(c)
    ensures ResultsMatch(CoreNext(c, step))
  {
    match step
    case Post(w) => DistinctSnoc(c.results, c.workers[w].job);
    case Receive => DistinctTail(c.results);
    case _ =>
  }

  lemma CollectedStep(c: Core, step: CoreStep)
    requires CoreEnabled(c, step)
    requires JobsMatch(c) && QueueMatch(c) && ResultsMatch(c) && CollectedMatch(c)
    requires WorkersMatch(c) && CollectorMatch(c)
    ensures CollectedMatch(CoreNext(c, step))
  {
    match step
    case Collect => DistinctSnoc(c.collected, c.collector.job);
    case _ =>
  }

  lemma WorkersStep(c: Core, step: CoreStep)
    requires CoreEnabled(c, step)
    requires JobsMatch(c) && QueueMatch(c) && ResultsMatch(c) && WorkersMatch(c) && CollectorMatch(c)
    ensures WorkersMatch(CoreNext(c, step))
  {
    match step
    case Take(w) => assert c.queue[0] in c.queue;
    case Receive => assert c.results[0] in c.results;
    case _ =>
  }

  lemma CollectorStep(c: Core, step: CoreStep)
    requires CoreEnabled(c, step)
    requires JobsMatch(c) && QueueMatch(c) && ResultsMatch(c) && WorkersMatch(c) && CollectorMatch(c)
    ensures CollectorMatch(CoreNext(c, step))
  {
    match step
    case Take(w) => assert c.queue[0] in c.queue;
    case _ =>
  }

  /** Only its own enqueue step makes a job an enqueued one, and nothing undoes it. */
  lemma EnqueuedSame(c: Core, step: CoreStep, id: JobId)
    requires CoreEnabled(c, step) && !step.Enqueue?
    requires JobsMatch(c) && QueueMatch(c) && ResultsMatch(c) && WorkersMatch(c) && CollectorMatch(c)
    ensures id in CoreNext(c, step).stage && CoreNext(c, step).stage[id].Enqueued() <==>
            id in c.stage && c.stage[id].Enqueued()
  {
    match step
    case Take(w) => assert c.queue[0] in c.queue;
    case Receive => assert c.results[0] in c.results;
    case _ =>
  }

  lemma EnqueuedStep(c: Core, step: CoreStep)
    requires CoreEnabled(c, step)
    requires JobsMatch(c) && QueueMatch(c) && ResultsMatch(c) && WorkersMatch(c) && CollectorMatch(c)
    requires EnqueuedMatch(c)
    ensures EnqueuedMatch(CoreNext(c, step))
  {
    match step
    case Enqueue(id) => DistinctSnoc(c.enqueued, id);
    case _ =>
      forall id: JobId { EnqueuedSame(c, step, id); }
      assert CoreNext(c, step).enqueued == c.enqueued;
  }

  lemma BegunSame(c: Core, step: CoreStep, id: JobId)
    requires CoreEnabled(c, step) && !step.Take?
    requires JobsMatch(c) && QueueMatch(c) && ResultsMatch(c) && WorkersMatch(c) && CollectorMatch(c)
    ensures id in CoreNext(c, step).stage && CoreNext(c, step).stage[id].Begun() <==>
            id in c.stage && c.stage[id].Begun()
  {
    match step
    case Receive => assert c.results[0] in c.results;
    case _ =>
  }

  lemma TakenStep(c: Core, step: CoreStep)
    requires CoreEnabled(c, step)
    requires JobsMatch(c) && QueueMatch(c) && ResultsMatch(c) && WorkersMatch(c) && CollectorMatch(c)
    requires TakenMatch(c)
    ensures TakenMatch(CoreNext(c, step))
  {
    match step
    case Take(w) =>
      assert c.queue[0] in c.queue;
      DistinctSnoc(c.taken, c.queue[0]);
    case _ =>
      forall id: JobId { BegunSame(c, step, id); }
      assert CoreNext(c, step).taken == c.taken;
  }

  lemma FieldsStep(c: Core, step: CoreStep, id: JobId)
    requires CoreEnabled(c, step)
    requires JobsMatch(c) && QueueMatch(c) && ResultsMatch(c) && WorkersMatch(c) && CollectorMatch(c)
    requires id in CoreNext(c, step).jobs && id in CoreNext(c, step).stage
    ensures FieldsMatch(CoreNext(c, step), id)
  {
    match step
    case Register(_, _, _, _) => SubmitterFieldsStep(c, step, id);
    case Enqueue(_) => SubmitterFieldsStep(c, step, id);
    case GiveUp(_) => SubmitterFieldsStep(c, step, id);
    case Begin(_) => WorkerFieldsStep(c, step, id);
    case Finish(_, _) => WorkerFieldsStep(c, step, id);
    case Post(_) => WorkerFieldsStep(c, step, id);
    case _ => ChannelFieldsStep(c, step, id);
  }

  lemma SubmitterFieldsStep(c: Core, step: CoreStep, id: JobId)
    requires CoreEnabled(c, step) && (step.Register? || step.Enqueue? || step.GiveUp?) && JobsMatch(c)
    requires id in CoreNext(c, step).jobs && id in CoreNext(c, step).stage
    ensures FieldsMatch(CoreNext(c, step), id)
  {
    assert id in c.jobs ==> FieldsMatch(c, id);
  }

  lemma ChannelFieldsStep(c: Core, step: CoreStep, id: JobId)
    requires CoreEnabled(c, step) && JobsMatch(c) && QueueMatch(c) && ResultsMatch(c) && CollectorMatch(c)
    requires step.Take? || step.Receive? || step.Collect? || step.ExitWorker? || step.ExitCollector? || step.Close?
    requires id in CoreNext(c, step).jobs && id in CoreNext(c, step).stage
    ensures FieldsMatch(CoreNext(c, step), id)
  {
    assert FieldsMatch(c, id);
    if step.Take? {
      assert c.queue[0] in c.queue && FieldsMatch(c, c.queue[0]);
    } else if step.Receive? {
      assert c.results[0] in c.results;
    }
  }

  lemma WorkerFieldsStep(c: Core, step: CoreStep, id: JobId)
    requires CoreEnabled(c, step) && (step.Begin? || step.Finish? || step.Post?)
    requires JobsMatch(c) && WorkersMatch(c) && id in c.jobs && id in c.stage
    ensures FieldsMatch(CoreNext(c, step), id)
  {
    assert FieldsMatch(c, id);
    match step
    case Begin(w) => assert c.workers[w].Busy();
    case Finish(w, _) => assert c.workers[w].Busy();
    case Post(w) => assert c.workers[w].Busy();
  }

  lemma JobsStep(c: Core, step: CoreStep)
    requires CoreEnabled(c, step)
    requires JobsMatch(c) && QueueMatch(c) && ResultsMatch(c) && WorkersMatch(c) && CollectorMatch(c)
    ensures JobsMatch(CoreNext(c, step))
  {
    var d := CoreNext(c, step);
    assert d.stage.Keys == d.jobs.Keys by {
      match step
      case Take(w) => assert c.queue[0] in c.queue;
      case Receive => assert c.results[0] in c.results;
      case _ =>
    }
    forall id | id in d.jobs ensures FieldsMatch(d, id) {
      FieldsStep(c, step, id);
    }
  }

  lemma CoreStepInv(c: Core, step: CoreStep)
    requires CoreInv(c) && CoreEnabled(c, step)
    ensures CoreInv(CoreNext(c, step))
  {
    JobsStep(c, step);
    QueueStep(c, step);
    ResultsStep(c, step);
    CollectedStep(c, step);
    WorkersStep(c, step);
    CollectorStep(c, step);
    EnqueuedStep(c, step);
    TakenStep(c, step);
    assert RenewalsFail(CoreNext(c, step));
  }

  /** A worker inside a job was inside it before, or has just begun it. */
  lemma WorkingBefore(c: Core, step: CoreStep, w: nat)
    requires CoreEnabled(c, step)
    ensures |CoreNext(c, step).workers| == |c.workers|
    ensures w < |c.workers| && CoreNext(c, step).workers[w].Working? ==>
            c.workers[w] == CoreNext(c, step).workers[w] || step == Begin(w)
  {
  }

  /** The steps of the worker and collector loops. */
  predicate LoopAction(step: CoreStep) {
    !step.Register? && !step.Enqueue? && !step.GiveUp?
  }

  /** The loops register nothing and leave waiting submitters waiting. */
  lemma LoopsKeepWaiting(c: Core, step: CoreStep)
    requires CoreInv(c) && CoreEnabled(c, step) && LoopAction(step)
    ensures CoreNext(c, step).jobs.Keys == c.jobs.Keys
    ensures CoreNext(c, step).stage.Keys == c.stage.Keys
    ensures forall id :: id in c.stage ==> (CoreNext(c, step).stage[id].Waiting? <==> c.stage[id].Waiting?)
  {
    match step
    case Take(w) => assert c.queue[0] in c.queue;
    case Receive => assert c.results[0] in c.results;
    case _ =>
  }

  /** A collected job is never touched again. */
  lemma CollectedStays(c: Core, step: CoreStep, id: JobId)
    requires CoreInv(c) && CoreEnabled(c, step) && id in c.stage && c.stage[id].Collected?
    ensures id in CoreNext(c, step).stage && CoreNext(c, step).stage[id].Collected?
    ensures id in c.jobs && id in CoreNext(c, step).jobs && CoreNext(c, step).jobs[id] == c.jobs[id]
  {
    match step
    case Take(w) => assert c.queue[0] in c.queue;
    case Receive => assert c.results[0] in c.results;
    case _ =>
  }

  /** A job a worker has taken never goes back, and stays in that worker's hand until it is posted. */
  lemma BegunStays(c: Core, step: CoreStep, id: JobId)
    requires CoreInv(c) && CoreEnabled(c, step) && id in c.stage && c.stage[id].Begun()
    ensures id in CoreNext(c, step).stage
    ensures var d := CoreNext(c, step);
            && d.stage[id].Begun() && |d.workers| == |c.workers|
            && (d.stage[id].Held? ==>
                  var w := d.stage[id].worker;
                  && c.stage[id] == d.stage[id] && w < |c.workers|
                  && (d.workers[w] == c.workers[w]
                      || (step == Begin(w) && c.workers[w].Taken?)
                      || (step.Finish? && step.w == w && d.workers[w].Posting?)))
  {
    assert FieldsMatch(c, id);
    match step
    case Take(w) => assert c.queue[0] in c.queue;
    case Receive => assert c.results[0] in c.results;
    case _ =>
  }

  /** A submitter that gave up never sends. */
  lemma AbortedStays(c: Core, step: CoreStep, id: JobId)
    requires CoreInv(c) && CoreEnabled(c, step) && id in c.stage && c.stage[id].Aborted?
    ensures id in CoreNext(c, step).stage && CoreNext(c, step).stage[id].Aborted?
  {
    match step
    case Take(w) => assert c.queue[0] in c.queue;
    case Receive => assert c.results[0] in c.results;
    case _ =>
  }
}
