/** What the pipeline's invariant says about one job, about counts and about order. */
module PipelineFacts {
  import opened Sequences
  import opened JobPipeline

  // ---------------------------------------------------------------- one place per job

  /** A concrete holder of a job pointer. */
  datatype Spot =
    | Submitter
    | Dropped
    | QueueSlot(i: nat)
    | WorkerHand(w: nat)
    | ResultSlot(i: nat)
    | CollectorHand
    | Archive(i: nat)

  ghost predicate At(c: Core, id: JobId, spot: Spot) {
    match spot
    case Submitter => id in c.stage && c.stage[id].Waiting?
    case Dropped => id in c.stage && c.stage[id].Aborted?
    case QueueSlot(i) => i < |c.queue| && c.queue[i] == id
    case WorkerHand(w) => w < |c.workers| && c.workers[w].Busy() && c.workers[w].job == id
    case ResultSlot(i) => i < |c.results| && c.results[i] == id
    case CollectorHand => c.collector == Delivering(id)
    case Archive(i) => i < |c.collected| && c.collected[i] == id
  }

  /** The job fields a holder implies. */
  ghost predicate FieldsAt(c: Core, j: Job, spot: Spot) {
    match spot
    case WorkerHand(w) =>
      && w < |c.workers|
      && j.started == !c.workers[w].Taken? && j.ended == c.workers[w].Posting?
      && (if c.workers[w].Taken? then j.status == Pending
          else if c.workers[w].Working? then j.status == Processing
          else j.status in {Completed, Failed})
    case _ =>
      var untouched := spot.Submitter? || spot.Dropped? || spot.QueueSlot?;
      && j.started == j.ended == !untouched
      && (if untouched then j.status == Pending else j.status in {Completed, Failed})
  }

  lemma SpotExists(c: Core, id: JobId) returns (spot: Spot)
    requires CoreInv(c) && id in c.jobs
    ensures At(c, id, spot)
  {
    assert FieldsMatch(c, id);
    match c.stage[id]
    case Waiting => spot := Submitter;
    case Aborted => spot := Dropped;
    case Queued =>
      var i :| 0 <= i < |c.queue| && c.queue[i] == id;
      spot := QueueSlot(i);
    case Held(w) => spot := WorkerHand(w);
    case Posted =>
      var i :| 0 <= i < |c.results| && c.results[i] == id;
      spot := ResultSlot(i);
    case Delivered => spot := CollectorHand;
    case Collected =>
      var i :| 0 <= i < |c.collected| && c.collected[i] == id;
      spot := Archive(i);
  }

  /** Two holders of one job are the same holder; in particular no channel holds it twice. */
  lemma SpotUnique(c: Core, id: JobId, p: Spot, q: Spot)
    requires CoreInv(c) && At(c, id, p) && At(c, id, q)
    ensures p == q
  {
    assert p.QueueSlot? ==> id in c.queue;
    assert p.ResultSlot? ==> id in c.results;
    assert p.Archive? ==> id in c.collected;
    assert q.QueueSlot? ==> id in c.queue;
    assert q.ResultSlot? ==> id in c.results;
    assert q.Archive? ==> id in c.collected;
  }

  lemma SpotFixesFields(c: Core, id: JobId, spot: Spot)
    requires CoreInv(c) && At(c, id, spot)
    ensures id in c.jobs && FieldsAt(c, c.jobs[id], spot)
  {
    assert spot.QueueSlot? ==> id in c.queue;
    assert spot.ResultSlot? ==> id in c.results;
    assert spot.Archive? ==> id in c.collected;
    assert FieldsMatch(c, id);
  }

  // ---------------------------------------------------------------- status only moves forward

  predicate StatusMoves(a: JobStatus, b: JobStatus) {
    a == b || (a.Pending? && b.Processing?) || (a.Processing? && (b.Completed? || b.Failed?))
  }

  /** A step keeps every job, its kind, its user and its name, and moves its status at most one place on. */
  lemma StepMovesStatusForward(c: Core, step: CoreStep, id: JobId)
    requires CoreInv(c) && CoreEnabled(c, step) && id in c.jobs
    ensures id in CoreNext(c, step).jobs
    ensures var j, k := c.jobs[id], CoreNext(c, step).jobs[id];
            && StatusMoves(j.status, k.status)
            && k.kind == j.kind && k.user == j.user && k.name == j.name
            && (j.started ==> k.started) && (j.ended ==> k.ended)
  {
    assert FieldsMatch(c, id);
  }

  // ---------------------------------------------------------------- counting

  function BusyCount(ws: seq<Worker>): (n: nat)
    ensures n <= |ws|
  {
    if ws == [] then 0 else BusyCount(ws[1..]) + if ws[0].Busy() then 1 else 0
  }

  lemma {:induction false} BusyCountUpdate(ws: seq<Worker>, w: nat, x: Worker)
    requires w < |ws|
    ensures BusyCount(ws[w := x]) ==
            BusyCount(ws) + (if x.Busy() then 1 else 0) - if ws[w].Busy() then 1 else 0
  {
    if w == 0 {
      assert ws[0 := x][1..] == ws[1..];
    } else {
      assert ws[w := x][1..] == ws[1..][w - 1 := x];
      BusyCountUpdate(ws[1..], w - 1, x);
    }
  }

  lemma {:induction false} NobodyBusy(ws: seq<Worker>)
    requires BusyCount(ws) == 0
    ensures forall w :: 0 <= w < |ws| ==> !ws[w].Busy()
  {
    if ws != [] {
      NobodyBusy(ws[1..]);
      forall w | 0 <= w < |ws| ensures !ws[w].Busy() {
        if w > 0 { assert ws[1..][w - 1] == ws[w]; }
      }
    }
  }

  lemma {:induction false} AllIdleAtStart(n: nat)
    ensures BusyCount(seq(n, _ => Idle)) == 0
  {
    if n > 0 {
      var ws := seq(n, _ => Idle);
      assert ws[1..] == seq(n - 1, _ => Idle);
      AllIdleAtStart(n - 1);
    }
  }

  /** Enqueued jobs the collector has not received. */
  function InFlight(c: Core): nat {
    |c.queue| + BusyCount(c.workers) + |c.results|
  }

  /** No job is lost or duplicated between the submitters and the collector. */
  ghost predicate Conserved(c: Core) {
    |c.enqueued| == InFlight(c) + (if c.collector.Delivering? then 1 else 0) + |c.collected|
  }

  lemma ConservedStep(c: Core, step: CoreStep)
    requires CoreInv(c) && Conserved(c) && CoreEnabled(c, step)
    ensures Conserved(CoreNext(c, step))
  {
    match step
    case Take(w) => BusyCountUpdate(c.workers, w, Taken(c.queue[0]));
    case Begin(w) => BusyCountUpdate(c.workers, w, Working(c.workers[w].job));
    case Finish(w, ok) => BusyCountUpdate(c.workers, w, Posting(c.workers[w].job));
    case Post(w) => BusyCountUpdate(c.workers, w, Idle);
    case ExitWorker(w) => BusyCountUpdate(c.workers, w, Exited);
    case _ =>
  }

  lemma {:induction false} AllBusy(ws: seq<Worker>)
    ensures BusyCount(ws) == |ws| <==> forall w :: 0 <= w < |ws| ==> ws[w].Busy()
  {
    if ws != [] {
      AllBusy(ws[1..]);
      if BusyCount(ws) == |ws| {
        forall w | 0 <= w < |ws| ensures ws[w].Busy() {
          if w > 0 { assert ws[1..][w - 1] == ws[w]; }
        }
      } else if ws[0].Busy() {
        var v :| 0 <= v < |ws[1..]| && !ws[1..][v].Busy();
        assert !ws[v + 1].Busy();
      }
    }
  }

  /** Every place a sent job can wait in is taken. */
  ghost predicate Full(c: Core) {
    && |c.queue| == c.capacity && |c.results| == c.capacity && c.collector.Delivering?
    && forall w :: 0 <= w < |c.workers| ==> c.workers[w].Busy()
  }

  /**
   The backlog between a submitter's send and the collector's receive is bounded by the buffers and the hands;
   with the job in the collector's hands it goes one beyond exactly when every place is taken.
   */
  lemma BacklogBound(c: Core)
    requires CoreInv(c) && Conserved(c)
    ensures InFlight(c) <= 2 * c.capacity + |c.workers|
    ensures |c.enqueued| - |c.collected| <= 2 * c.capacity + |c.workers| + 1
    ensures |c.enqueued| - |c.collected| > 2 * c.capacity + |c.workers| <==> Full(c)
  {
    AllBusy(c.workers);
  }

  // ---------------------------------------------------------------- one worker: first in, first out

  function HandOf(w: Worker): seq<JobId> {
    if w.Busy() then [w.job] else []
  }

  function CollectorHandOf(k: Collector): seq<JobId> {
    if k.Delivering? then [k.job] else []
  }

  /** Everything enqueued, oldest first, read off the places it now occupies. */
  ghost predicate InOrder(c: Core)
    requires |c.workers| == 1
  {
    c.enqueued == c.collected + CollectorHandOf(c.collector) + c.results + HandOf(c.workers[0]) + c.queue
  }

  lemma InOrderEnqueue(c: Core, id: JobId)
    requires |c.workers| == 1 && InOrder(c) && CoreEnabled(c, Enqueue(id))
    ensures |CoreNext(c, Enqueue(id)).workers| == 1 && InOrder(CoreNext(c, Enqueue(id)))
  {
    Regroup(c.collected + CollectorHandOf(c.collector) + c.results + HandOf(c.workers[0]), c.queue, [id]);
  }

  lemma InOrderTake(c: Core, w: nat)
    requires |c.workers| == 1 && InOrder(c) && CoreEnabled(c, Take(w))
    ensures |CoreNext(c, Take(w)).workers| == 1 && InOrder(CoreNext(c, Take(w)))
  {
    var before := c.collected + CollectorHandOf(c.collector) + c.results;
    assert c.queue == [c.queue[0]] + c.queue[1..];
    assert before + [] == before;
    Regroup(before, [c.queue[0]], c.queue[1..]);
  }

  lemma InOrderPost(c: Core, w: nat)
    requires |c.workers| == 1 && InOrder(c) && CoreEnabled(c, Post(w))
    ensures |CoreNext(c, Post(w)).workers| == 1 && InOrder(CoreNext(c, Post(w)))
  {
    var front, all := c.collected + CollectorHandOf(c.collector), c.results + [c.workers[0].job];
    Regroup(front, c.results, [c.workers[0].job]);
    assert front + all + [] == front + all;
  }

  lemma InOrderReceive(c: Core)
    requires |c.workers| == 1 && InOrder(c) && CoreEnabled(c, Receive)
    ensures |CoreNext(c, Receive).workers| == 1 && InOrder(CoreNext(c, Receive))
  {
    assert c.results == [c.results[0]] + c.results[1..];
    assert c.collected + [] == c.collected;
    Regroup(c.collected, [c.results[0]], c.results[1..]);
  }

  lemma InOrderCollect(c: Core)
    requires |c.workers| == 1 && InOrder(c) && CoreEnabled(c, Collect)
    ensures |CoreNext(c, Collect).workers| == 1 && InOrder(CoreNext(c, Collect))
  {
    var collected := c.collected + [c.collector.job];
    assert collected + [] == collected;
  }

  /** The other steps move no job between places. */
  lemma InOrderStays(c: Core, step: CoreStep)
    requires |c.workers| == 1 && InOrder(c) && CoreEnabled(c, step)
    requires !step.Enqueue? && !step.Take? && !step.Post? && !step.Receive? && !step.Collect?
    ensures |CoreNext(c, step).workers| == 1 && InOrder(CoreNext(c, step))
  {
    var d := CoreNext(c, step);
    assert HandOf(d.workers[0]) == HandOf(c.workers[0]) && CollectorHandOf(d.collector) == CollectorHandOf(c.collector);
  }

  lemma InOrderStep(c: Core, step: CoreStep)
    requires |c.workers| == 1 && InOrder(c) && CoreEnabled(c, step)
    ensures |CoreNext(c, step).workers| == 1 && InOrder(CoreNext(c, step))
  {
    match step
    case Enqueue(id) => InOrderEnqueue(c, id);
    case Take(w) => InOrderTake(c, w);
    case Post(w) => InOrderPost(c, w);
    case Receive => InOrderReceive(c);
    case Collect => InOrderCollect(c);
    case _ => InOrderStays(c, step);
  }

  /** With one worker, what has been collected is a prefix of what was submitted. */
  lemma CollectedIsPrefix(c: Core)
    requires |c.workers| == 1 && InOrder(c)
    ensures |c.collected| <= |c.enqueued| && c.collected == c.enqueued[..|c.collected|]
  {
  }
}
