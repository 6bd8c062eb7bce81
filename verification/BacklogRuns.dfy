/** A run that takes every place a sent job can wait in, for every number of workers and every capacity. */
module BacklogRuns {
  import opened JobPipeline
  import opened PipelineFacts
  import opened CertService
  import opened ServiceInvariant
  import opened Registers
  import opened ServiceTheorems
  import opened WitnessRuns

  /** What the rest of the filling needs to know of a state. */
  ghost predicate Filling(b: State, s: State, capacity: nat) {
    && b == Boot(|b.core.workers|, capacity) && Leads(b, s, false)
    && !s.core.closed && s.core.capacity == capacity && |s.core.workers| == |b.core.workers| && 0 in s.users
  }

  lemma FillingFacts(b: State, s: State, capacity: nat)
    requires Filling(b, s, capacity)
    ensures |s.phases| == |s.core.workers| && |s.ops| !in s.core.jobs
  {
    LeadsReaches(|b.core.workers|, capacity, s, false);
    ReachableOk(s);
    forall id | id in s.core.jobs ensures id < |s.ops| { assert JobOk(s, id); }
  }

  /** One more deletion of the user sends one more revoke job. */
  lemma SendOne(b: State, s: State, capacity: nat) returns (t: State)
    requires Filling(b, s, capacity) && |s.core.queue| < capacity
    ensures Filling(b, t, capacity)
    ensures |t.core.queue| == |s.core.queue| + 1 && (s.core.queue != [] ==> t.core.queue[0] == s.core.queue[0])
    ensures t.core.workers == s.core.workers && t.core.results == s.core.results && t.core.collector == s.core.collector
    ensures t.core.collected == s.core.collected
    ensures s.core.queue == [] ==> JobIs(t, t.core.queue[0], RevokeCert)
  {
    FillingFacts(b, s, capacity);
    t := DeleteRun(b, s, false, 0);
  }

  /** A worker takes the one job in the queue. */
  lemma TakeOne(b: State, s: State, capacity: nat, w: nat) returns (t: State)
    requires Filling(b, s, capacity) && |s.core.queue| == 1 && w < |s.core.workers| && s.core.workers[w].Idle?
    ensures Filling(b, t, capacity) && t.core.queue == []
    ensures t.core.workers == s.core.workers[w := Taken(s.core.queue[0])]
    ensures t.core.results == s.core.results && t.core.collector == s.core.collector
    ensures t.core.collected == s.core.collected && t.core.jobs == s.core.jobs
  {
    t := Go(b, s, false, InLoop(TakeJob(w)));
  }

  /** A worker begins the job in its hands, easy-rsa's first command fails, and so does the job. */
  lemma FailOne(b: State, s: State, w: nat, id: JobId) returns (t: State)
    requires Leads(b, s, false) && w < |s.core.workers| && |s.phases| == |s.core.workers|
    requires s.core.workers[w] == Taken(id) && id in s.core.jobs && !s.core.jobs[id].kind.RenewCert?
    ensures Leads(b, t, false) && t.core.workers == s.core.workers[w := Posting(id)] && t.users == s.users
    ensures t.core.queue == s.core.queue && t.core.results == s.core.results && t.core.collector == s.core.collector
    ensures t.core.collected == s.core.collected && t.core.closed == s.core.closed && t.core.capacity == s.core.capacity
  {
    t := Go(b, s, false, InLoop(BeginJob(w)));
    LoopCore(s, BeginJob(w));
    assert t.core.workers == s.core.workers[w := Working(id)] && t.phases[w] == FirstPhase(s.core.jobs[id].kind);
    t := WorkFails(b, t, w, id);
    t := FailedRun(b, t, w, id);
    assert s.core.workers[w := Working(id)][w := Posting(id)] == s.core.workers[w := Posting(id)];
  }

  lemma WorkFails(b: State, s: State, w: nat, id: JobId) returns (t: State)
    requires Leads(b, s, false) && w < |s.core.workers| && |s.phases| == |s.core.workers|
    requires s.core.workers[w] == Working(id) && id in s.core.jobs && (s.phases[w].Issuing? || s.phases[w].Revoking?)
    ensures Leads(b, t, false) && t == Enter(s, w, Finishing(false))
  {
    if s.phases[w].Issuing? {
      t := Go(b, s, false, InJob(w, Issue(false)));
    } else {
      t := Go(b, s, false, InJob(w, RevokeCertificate(false)));
    }
  }

  lemma FailedRun(b: State, s: State, w: nat, id: JobId) returns (t: State)
    requires Leads(b, s, false) && w < |s.core.workers| && |s.phases| == |s.core.workers|
    requires s.core.workers[w] == Working(id) && id in s.core.jobs && s.phases[w] == Finishing(false)
    ensures Leads(b, t, false) && t.core.workers == s.core.workers[w := Posting(id)] && t.users == s.users
    ensures t.core.queue == s.core.queue && t.core.results == s.core.results && t.core.collector == s.core.collector
    ensures t.core.collected == s.core.collected && t.core.closed == s.core.closed && t.core.capacity == s.core.capacity
  {
    t := Go(b, s, false, InLoop(FinishJob(w)));
  }

  /** A worker fails the job in its hands and posts it. */
  lemma PassOne(b: State, s: State, capacity: nat, w: nat) returns (t: State)
    requires Filling(b, s, capacity) && w < |s.core.workers| && s.core.workers[w].Taken?
    requires s.core.workers[w].job in s.core.jobs && !s.core.jobs[s.core.workers[w].job].kind.RenewCert?
    requires |s.core.results| < capacity
    ensures Filling(b, t, capacity) && t.core.workers == s.core.workers[w := Idle] && t.core.queue == s.core.queue
    ensures |t.core.results| == |s.core.results| + 1 && t.core.collector == s.core.collector
    ensures t.core.collected == s.core.collected
  {
    var id := s.core.workers[w].job;
    FillingFacts(b, s, capacity);
    t := FailOne(b, s, w, id);
    var failed := t;
    t := Go(b, t, false, InLoop(PostJob(w)));
    LoopCore(failed, PostJob(w));
    assert s.core.workers[w := Posting(id)][w := Idle] == s.core.workers[w := Idle];
  }

  /** A revoke job sent, failed and brought to the results by worker 0. */
  lemma ThroughOne(b: State, s: State, capacity: nat) returns (t: State)
    requires Filling(b, s, capacity) && capacity >= 1 && s.core.queue == [] && |s.core.results| < capacity
    requires |s.core.workers| >= 1 && s.core.workers[0].Idle?
    ensures Filling(b, t, capacity) && t.core.queue == [] && t.core.workers == s.core.workers
    ensures |t.core.results| == |s.core.results| + 1 && t.core.collector == s.core.collector
    ensures t.core.collected == s.core.collected
  {
    t := SendOne(b, s, capacity);
    var sent := t;
    t := TakeOne(b, t, capacity, 0);
    t := PassOne(b, t, capacity, 0);
    assert s.core.workers[0 := Taken(sent.core.queue[0])][0 := Idle] == s.core.workers;
  }

  /** The user is created; its generate job, failed, is in the collector's hands. */
  lemma FirstDelivered(workers: nat, capacity: nat) returns (b: State, s: State)
    requires workers >= 1 && capacity >= 1
    ensures b == Boot(workers, capacity) && Filling(b, s, capacity) && s.core.workers == b.core.workers
    ensures s.core.queue == [] && s.core.results == [] && s.core.collector.Delivering? && s.core.collected == []
  {
    b := Boot(workers, capacity);
    Here(b, false);
    AliceIsValid();
    s := CreateRun(b, b, false, "alice");
    assert s.core.queue == [0] && 0 in s.core.jobs && s.core.jobs[0].kind == GenerateCert;
    s := TakeOne(b, s, capacity, 0);
    s := PassOne(b, s, capacity, 0);
    assert b.core.workers[0 := Taken(0)][0 := Idle] == b.core.workers;
    s := Go(b, s, false, InLoop(ReceiveResult));
  }

  /** Results full, the collector busy, nothing queued, every worker idle. */
  lemma ResultsFilled(workers: nat, capacity: nat) returns (b: State, s: State)
    requires workers >= 1 && capacity >= 1
    ensures b == Boot(workers, capacity) && Filling(b, s, capacity) && s.core.workers == b.core.workers
    ensures s.core.queue == [] && |s.core.results| == capacity && s.core.collector.Delivering? && s.core.collected == []
  {
    b, s := FirstDelivered(workers, capacity);
    while |s.core.results| < capacity
      invariant Filling(b, s, capacity) && s.core.workers == b.core.workers && s.core.queue == []
      invariant s.core.collector.Delivering? && s.core.collected == [] && |s.core.results| <= capacity
      decreases capacity - |s.core.results|
    {
      s := ThroughOne(b, s, capacity);
    }
  }

  /** And a job in every worker's hands. */
  lemma HandsFilled(workers: nat, capacity: nat) returns (b: State, s: State)
    requires workers >= 1 && capacity >= 1
    ensures b == Boot(workers, capacity) && Filling(b, s, capacity) && s.core.queue == [] && |s.core.workers| == workers
    ensures forall v :: 0 <= v < workers ==> s.core.workers[v].Busy()
    ensures |s.core.results| == capacity && s.core.collector.Delivering? && s.core.collected == []
  {
    b, s := ResultsFilled(workers, capacity);
    var w := 0;
    while w < workers
      invariant 0 <= w <= workers && Filling(b, s, capacity) && s.core.queue == [] && |s.core.workers| == workers
      invariant forall v :: 0 <= v < w ==> s.core.workers[v].Busy()
      invariant forall v :: w <= v < workers ==> s.core.workers[v].Idle?
      invariant |s.core.results| == capacity && s.core.collector.Delivering? && s.core.collected == []
    {
      s := SendOne(b, s, capacity);
      s := TakeOne(b, s, capacity, w);
      w := w + 1;
    }
  }

  /**
   For every number of workers and every capacity there is a run that takes every place: two full buffers, a
   job in each worker's hands and one in the collector's, none collected.
   */
  lemma BacklogFills(workers: nat, capacity: nat) returns (s: State)
    requires workers >= 1 && capacity >= 1
    ensures Leads(Boot(workers, capacity), s, false) && Full(s.core) && s.core.collected == []
    ensures |s.core.enqueued| == 2 * capacity + workers + 1
  {
    var b;
    b, s := HandsFilled(workers, capacity);
    while |s.core.queue| < capacity
      invariant Filling(b, s, capacity) && |s.core.queue| <= capacity && |s.core.workers| == workers
      invariant forall v :: 0 <= v < workers ==> s.core.workers[v].Busy()
      invariant |s.core.results| == capacity && s.core.collector.Delivering? && s.core.collected == []
      decreases capacity - |s.core.queue|
    {
      s := SendOne(b, s, capacity);
    }
    AllBusy(s.core.workers);
    LeadsReaches(workers, capacity, s, false);
    ReachableOk(s);
  }
}
