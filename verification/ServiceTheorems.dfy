/** What holds after every run of the service, for every interleaving. */
module ServiceTheorems {
  import opened Sequences
  import opened JobPipeline
  import opened PipelineFacts
  import opened CertService
  import opened ServiceInvariant
  import opened Registers
  import opened Statuses
  import opened Configs
  import opened OneWorker
  import opened Progress

  // ---------------------------------------------------------------- the invariant over runs

  ghost predicate ServiceOk(s: State) {
    RegistersOk(s) && StatusesOk(s) && ConfigsOk(s) && EffectsOk(s) && LoopsOpen(s.core)
  }

  lemma BootOk(workers: nat, capacity: nat)
    ensures ServiceOk(Boot(workers, capacity))
  {
    var s := Boot(workers, capacity);
    StartInv(workers, capacity);
    AllIdleAtStart(workers);
    assert PipelineOk(s) && PhasesOk(s) && CallsOk(s) && JobsOk(s) && UsersOk(s) && CarriedOk(s);
    assert StatusesOk(s);
    assert ConfigsOk(s);
  }

  lemma LoopsOpenAlong(s: State, step: Step)
    requires LoopsOpen(s.core) && Enabled(s, step)
    ensures LoopsOpen(Next(s, step).core)
  {
    var moved, c := CoreOfStep(s, step);
    if moved { LoopsOpenStep(s.core, c); }
  }

  lemma ServiceStep(s: State, step: Step)
    requires ServiceOk(s) && Enabled(s, step)
    ensures ServiceOk(Next(s, step))
  {
    RegistersStep(s, step);
    StatusesStep(s, step);
    ConfigsStep(s, step);
    EffectsStep(s, step);
    LoopsOpenAlong(s, step);
  }

  lemma {:induction false} RunKeeps(s: State, steps: seq<Step>)
    requires ServiceOk(s) && IsRun(s, steps)
    ensures ServiceOk(After(s, steps))
    decreases |steps|
  {
    if steps != [] {
      ServiceStep(s, steps[0]);
      RunKeeps(Next(s, steps[0]), steps[1..]);
    }
  }

  /** A state the service can get into. */
  ghost predicate Reachable(s: State) {
    exists workers: nat, capacity: nat, steps ::
      IsRun(Boot(workers, capacity), steps) && s == After(Boot(workers, capacity), steps)
  }

  lemma ReachableOk(s: State)
    requires Reachable(s)
    ensures ServiceOk(s)
  {
    var workers: nat, capacity: nat, steps :|
      IsRun(Boot(workers, capacity), steps) && s == After(Boot(workers, capacity), steps);
    BootOk(workers, capacity);
    RunKeeps(Boot(workers, capacity), steps);
  }

  // ---------------------------------------------------------------- jobs

  /** Every registered job is in exactly one place, and the place fixes its fields. */
  lemma EveryJobInOnePlace(s: State, id: JobId)
    requires Reachable(s) && id in s.core.jobs
    ensures exists p :: At(s.core, id, p)
    ensures forall p, q :: At(s.core, id, p) && At(s.core, id, q) ==> p == q
    ensures forall p :: At(s.core, id, p) ==> FieldsAt(s.core, s.core.jobs[id], p)
  {
    ReachableOk(s);
    var spot := SpotExists(s.core, id);
    forall p, q | At(s.core, id, p) && At(s.core, id, q) ensures p == q { SpotUnique(s.core, id, p, q); }
    forall p | At(s.core, id, p) ensures FieldsAt(s.core, s.core.jobs[id], p) { SpotFixesFields(s.core, id, p); }
  }

  /** No job is sent, processed or collected twice; only sent jobs are processed, only processed ones collected. */
  lemma AtMostOnce(s: State)
    requires Reachable(s)
    ensures Distinct(s.core.enqueued) && Distinct(s.core.taken) && Distinct(s.core.collected)
    ensures forall id :: id in s.core.collected ==> id in s.core.taken
    ensures forall id :: id in s.core.taken ==> id in s.core.enqueued
  {
    ReachableOk(s);
  }

  /** The order pending, processing, completed-or-failed. */
  predicate Forward(a: JobStatus, b: JobStatus) {
    a == b || a.Pending? || (a.Processing? && !b.Pending?)
  }

  /** Along any run a job keeps its kind, user and name, and its status only moves forward. */
  lemma {:induction false} StatusOnlyForward(s: State, steps: seq<Step>, id: JobId)
    requires ServiceOk(s) && IsRun(s, steps) && id in s.core.jobs
    ensures id in After(s, steps).core.jobs
    ensures var j, k := s.core.jobs[id], After(s, steps).core.jobs[id];
            k.kind == j.kind && k.user == j.user && k.name == j.name && Forward(j.status, k.status)
    decreases |steps|
  {
    if steps != [] {
      var moved, c := CoreOfStep(s, steps[0]);
      if moved { StepMovesStatusForward(s.core, c, id); }
      ServiceStep(s, steps[0]);
      StatusOnlyForward(Next(s, steps[0]), steps[1..], id);
    }
  }

  /** The backlog between submitters and collector is bounded by two buffers and one job per worker. */
  lemma BacklogIsBounded(s: State)
    requires Reachable(s)
    ensures InFlight(s.core) <= 2 * s.core.capacity + |s.core.workers|
    ensures |s.core.enqueued| ==
            InFlight(s.core) + (if s.core.collector.Delivering? then 1 else 0) + |s.core.collected|
    ensures |s.core.enqueued| - |s.core.collected| > 2 * s.core.capacity + |s.core.workers| <==> Full(s.core)
  {
    ReachableOk(s);
    BacklogBound(s.core);
  }

  // ---------------------------------------------------------------- users

  /** An active user's generate job completed and was collected; a revoked user was deleted by someone. */
  lemma StatusHasReason(s: State, user: UserId)
    requires Reachable(s) && user in s.users
    ensures s.users[user].status.Active? ==> Activated(s, user) && user in s.core.collected
    ensures s.users[user].status.Revoked? ==> user in s.deletes
  {
    ReachableOk(s);
    assert Justified(s, user, s.users[user].status);
  }

  /** Names are unique whatever CreateUser calls race. */
  lemma NamesAreUnique(s: State, u: UserId, v: UserId)
    requires Reachable(s) && u in s.users && v in s.users && s.users[u].name == s.users[v].name
    ensures u == v
  {
    ReachableOk(s);
  }

  /** The goroutine that has this job in its hands takes the step. */
  predicate StepOnJob(s: State, step: Step, id: JobId) {
    match step
    case InJob(w, _) => w < |s.core.workers| && s.core.workers[w] == Working(id)
    case InLoop(BeginJob(w)) => w < |s.core.workers| && s.core.workers[w] == Taken(id)
    case InLoop(FinishJob(w)) => w < |s.core.workers| && s.core.workers[w] == Working(id)
    case InLoop(PostJob(w)) => w < |s.core.workers| && s.core.workers[w] == Posting(id)
    case InLoop(CollectResult(_)) => s.core.collector == Delivering(id)
    case _ => false
  }

  /** No user, file, cached row or collected update has changed, and the job has not completed. */
  predicate NothingDone(s: State, t: State, id: JobId) {
    && t.users == s.users && t.files == s.files && t.cache == s.cache && t.effects == s.effects
    && t.landed == s.landed && id in t.core.jobs && !t.core.jobs[id].status.Completed?
  }

  /**
   A renewal never completes; whatever worker or collector has it in hand changes no user, file, cached row or
   collected update with it, and a worker has no statement to run between beginning and failing it.
   */
  lemma RenewalsDoNothing(s: State, id: JobId, step: Step)
    requires Reachable(s) && JobIs(s, id, RenewCert)
    ensures !s.core.jobs[id].status.Completed?
    ensures Enabled(s, step) && StepOnJob(s, step, id) ==> !step.InJob? && NothingDone(s, Next(s, step), id)
  {
    ReachableOk(s);
    if Enabled(s, step) && StepOnJob(s, step, id) {
      match step {
        case InJob(w, work) => RenewalHasNoWork(s, w, work, id);
        case InLoop(loop) => RenewalLoop(s, loop, id);
      }
    }
  }

  lemma RenewalHasNoWork(s: State, w: nat, work: WorkStep, id: JobId)
    requires PhasesOk(s) && JobIs(s, id, RenewCert) && w < |s.core.workers| && s.core.workers[w] == Working(id)
    ensures !WorkEnabled(s, w, work)
  {
    assert PhaseFits(s.core.jobs[id].kind, s.phases[w]);
  }

  lemma RenewalLoop(s: State, loop: LoopStep, id: JobId)
    requires ServiceOk(s) && JobIs(s, id, RenewCert) && LoopEnabled(s, loop) && StepOnJob(s, InLoop(loop), id)
    ensures NothingDone(s, NextLoop(s, loop), id)
  {
    match loop {
      case BeginJob(w) => RenewalBegins(s, w, id);
      case FinishJob(w) =>
        assert PhaseFits(s.core.jobs[id].kind, s.phases[w]);
        RenewalFails(s, w, id);
      case PostJob(w) => RenewalPosted(s, w, id);
      case CollectResult(_) => RenewalCollected(s, loop, id);
    }
  }

  lemma RenewalBegins(s: State, w: nat, id: JobId)
    requires LoopEnabled(s, BeginJob(w)) && s.core.workers[w] == Taken(id)
    ensures NothingDone(s, NextLoop(s, BeginJob(w)), id)
  {
  }

  lemma RenewalFails(s: State, w: nat, id: JobId)
    requires LoopEnabled(s, FinishJob(w)) && s.core.workers[w] == Working(id) && s.phases[w] == Finishing(false)
    ensures NothingDone(s, NextLoop(s, FinishJob(w)), id)
  {
  }

  lemma RenewalPosted(s: State, w: nat, id: JobId)
    requires LoopEnabled(s, PostJob(w)) && id in s.core.jobs && !s.core.jobs[id].status.Completed?
    ensures NothingDone(s, NextLoop(s, PostJob(w)), id)
  {
  }

  lemma RenewalCollected(s: State, loop: LoopStep, id: JobId)
    requires LoopEnabled(s, loop) && loop.CollectResult? && s.core.collector == Delivering(id)
    requires JobIs(s, id, RenewCert) && !s.core.jobs[id].status.Completed?
    ensures NothingDone(s, NextLoop(s, loop), id)
  {
  }

  // ---------------------------------------------------------------- configs

  /**
   A copy of a user's config is a prefix of what that user's own generate job wrote; unless that very copy was
   read with bytes still to come it is all the job wrote, and equal to the file while that exists.
   */
  ghost predicate Genuine(s: State, user: UserId, copy: Copy) {
    && OwnJobWrote(s, user) && user in s.written && copy.data <= s.written[user]
    && (!copy.torn ==>
          && copy.data == s.written[user]
          && (user in s.users && s.users[user].name in s.files ==> s.files[s.users[user].name] == copy.data))
  }

  lemma SnapshotGenuine(s: State, user: UserId, copy: Copy)
    requires ServiceOk(s) && Snapshot(s, user, copy)
    ensures Genuine(s, user, copy)
  {
    assert OwnJobWrote(s, user);
    if user in s.users && s.users[user].name in s.files {
      var name := s.users[user].name;
      assert FileOk(s, name);
      var u :| KnownAs(s, u, name) && u in s.written && s.files[name] == s.written[u];
    }
  }

  /** Cached configs are genuine. */
  lemma CacheIsGenuine(s: State, r: RowId)
    requires Reachable(s) && r in s.cache
    ensures Genuine(s, s.cache[r].user, s.cache[r].copy)
  {
    ReachableOk(s);
    SnapshotGenuine(s, s.cache[r].user, s.cache[r].copy);
  }

  /** Configs that GetUserConfig returned are genuine. */
  lemma ReplyIsGenuine(s: State, i: nat)
    requires Reachable(s) && i < |s.ops| && s.ops[i].Returned? && s.ops[i].reply.Config?
    ensures Genuine(s, s.ops[i].reply.user, s.ops[i].reply.copy)
  {
    ReachableOk(s);
    assert CarriesData(s, s.ops[i]);
    SnapshotGenuine(s, s.ops[i].reply.user, s.ops[i].reply.copy);
  }

  /**
   However many rows racing saves leave for a user, of any two one begins the other; a whole copy begins with
   every other one, and whole copies agree.
   */
  lemma CacheReadsAsMap(s: State, q: RowId, r: RowId)
    requires Reachable(s) && q in s.cache && r in s.cache && s.cache[q].user == s.cache[r].user
    ensures var a, b := s.cache[q].copy, s.cache[r].copy;
            && (a.data <= b.data || b.data <= a.data)
            && (!b.torn ==> a.data <= b.data)
            && (!a.torn && !b.torn ==> a.data == b.data)
  {
    CacheIsGenuine(s, q);
    CacheIsGenuine(s, r);
    PrefixesCompare(s.cache[q].copy.data, s.cache[r].copy.data, s.written[s.cache[q].user]);
  }

  lemma PrefixesCompare(a: Data, b: Data, whole: Data)
    requires a <= whole && b <= whole
    ensures a <= b || b <= a
  {
    assert a == whole[..|a|] && b == whole[..|b|];
  }

  // ---------------------------------------------------------------- one worker

  ghost predicate OrderlyRun(s: State, steps: seq<Step>)
    decreases |steps|
  {
    steps != [] ==>
      Enabled(s, steps[0]) && Orderly(s, steps[0]) && OrderlyRun(Next(s, steps[0]), steps[1..])
  }

  lemma {:induction false} OrderlyRunIsRun(s: State, steps: seq<Step>)
    requires OrderlyRun(s, steps)
    ensures IsRun(s, steps)
    decreases |steps|
  {
    if steps != [] { OrderlyRunIsRun(Next(s, steps[0]), steps[1..]); }
  }

  ghost function OrderlyAfter(s: State, steps: seq<Step>): State
    requires OrderlyRun(s, steps)
  {
    OrderlyRunIsRun(s, steps);
    After(s, steps)
  }

  lemma {:induction false} OrderlyRunKeeps(s: State, steps: seq<Step>)
    requires ServiceOk(s) && OrderOk(s) && OrderlyRun(s, steps) && IsRun(s, steps)
    ensures var t := After(s, steps); ServiceOk(t) && OrderOk(t) && s.landed <= t.landed
    decreases |steps|
  {
    if steps != [] {
      ServiceStep(s, steps[0]);
      OrderStep(s, steps[0]);
      LandedGrows(s, steps[0]);
      OrderlyRunKeeps(Next(s, steps[0]), steps[1..]);
    }
  }

  lemma LandedGrows(s: State, step: Step)
    requires Enabled(s, step)
    ensures s.landed <= Next(s, step).landed
  {
    match step {
      case Open(call) => OpenFrame(s, call);
      case InCreate(i, act) => CreateFrame(s, i, act);
      case InDelete(i, act) => DeleteFrame(s, i, act);
      case InSubmit(i, act) => SubmitFrame(s, i, act);
      case InFetch(i, act) => FetchFrame(s, i, act);
      case InJob(w, work) => WorkFrame(s, w, work);
      case InLoop(loop) => LoopFrame(s, loop);
    }
  }

  lemma OneWorkerBoot(capacity: nat)
    ensures OrderOk(Boot(1, capacity))
  {
  }

  /**
   With one worker, and deletions that wait for the user's creation to return: once the
   collector has stored a user's revocation, the status is "revoked" in every later state.
   */
  lemma RevocationIsFinal(capacity: nat, front: seq<Step>, back: seq<Step>, user: UserId)
    requires OrderlyRun(Boot(1, capacity), front) && OrderlyRun(OrderlyAfter(Boot(1, capacity), front), back)
    requires user in OrderlyAfter(Boot(1, capacity), front).landed
    ensures var t := OrderlyAfter(OrderlyAfter(Boot(1, capacity), front), back);
            user in t.users && t.users[user].status.Revoked?
  {
    var b := Boot(1, capacity);
    var m := OrderlyAfter(b, front);
    BootOk(1, capacity);
    OneWorkerBoot(capacity);
    OrderlyRunIsRun(b, front);
    OrderlyRunIsRun(m, back);
    OrderlyRunKeeps(b, front);
    OrderlyRunKeeps(m, back);
    assert Final(OrderlyAfter(m, back), user);
  }

  lemma {:induction false} OneWorkerInOrder(s: State, steps: seq<Step>)
    requires |s.core.workers| == 1 && InOrder(s.core) && IsRun(s, steps)
    ensures |After(s, steps).core.workers| == 1 && InOrder(After(s, steps).core)
    decreases |steps|
  {
    if steps != [] {
      var moved, c := CoreOfStep(s, steps[0]);
      if moved { InOrderStep(s.core, c); }
      OneWorkerInOrder(Next(s, steps[0]), steps[1..]);
    }
  }

  /**
   With one worker the concurrent pipeline is the sequential one: jobs are collected in the
   order they were sent, and the status updates issued are those of the collected jobs'
   outcomes in that order.
   */
  lemma OneWorkerIsSequential(capacity: nat, steps: seq<Step>)
    requires IsRun(Boot(1, capacity), steps)
    ensures var t := After(Boot(1, capacity), steps);
            && |t.core.workers| == 1 && InOrder(t.core)
            && |t.core.collected| <= |t.core.enqueued|
            && t.core.collected == t.core.enqueued[..|t.core.collected|]
            && t.effects == Effects(t.core.jobs, t.core.enqueued[..|t.core.collected|])
  {
    BootOk(1, capacity);
    RunKeeps(Boot(1, capacity), steps);
    OneWorkerInOrder(Boot(1, capacity), steps);
    CollectedIsPrefix(After(Boot(1, capacity), steps).core);
  }

  // ---------------------------------------------------------------- liveness

  /** From any state the service can be in before a shutdown, the loops alone collect everything enqueued. */
  lemma ReachableDrains(s: State, pick: State -> Step)
    requires Reachable(s) && Scheduler(pick)
    requires !s.core.closed && |s.core.workers| >= 1 && s.core.capacity >= 1
    ensures (ReachableOk(s); forall id :: id in s.core.enqueued ==> id in Drain(s, pick).core.collected)
  {
    ReachableOk(s);
    EverythingDrains(s, pick);
  }

  /**
   From any state after the close from which Stop cannot hang, every scheduler ends the loops: the results
   buffer has room for all in flight, or every worker has left.
   */
  lemma ReachableStops(s: State, pick: State -> Step)
    requires Reachable(s) && Scheduler(pick) && s.core.closed
    requires InFlight(s.core) <= s.core.capacity || !SomeoneStays(s.core)
    ensures (ReachableOk(s); AllGone(Drain(s, pick).core))
  {
    ReachableOk(s);
    StopReturns(s, pick);
  }

  /** From any state after the close, Stop can hang exactly if too much is in flight and a worker has not left. */
  lemma ReachableHangsIff(s: State)
    requires Reachable(s) && s.core.closed
    ensures (exists steps :: SystemRun(s, steps) && Stuck(After(s, steps).core))
            <==> InFlight(s.core) > s.core.capacity && SomeoneStays(s.core)
  {
    ReachableOk(s);
    StopCanHangIff(s);
  }
}
