/**
 With a single worker the pipeline is first in, first out, and a revocation that went
 through the collector is final for users whose CreateUser had returned before their
 DeleteUser began.
 */
module OneWorker {
  import opened Sequences
  import opened JobPipeline
  import opened PipelineFacts
  import opened CertService
  import opened ServiceInvariant
  import opened Registers
  import opened Statuses
  import opened Revocations

  // ---------------------------------------------------------------- what the collector issued

  /** The status updates a list of collected jobs calls for, in that order. */
  function Effects(jobs: map<JobId, Job>, ids: seq<JobId>): seq<(UserId, UserStatus)> {
    if ids == [] then []
    else Effects(jobs, ids[..|ids| - 1])
         + if ids[|ids| - 1] in jobs then EffectOf(jobs[ids[|ids| - 1]]) else []
  }

  lemma {:induction false} EffectsAgree(jobs: map<JobId, Job>, later: map<JobId, Job>, ids: seq<JobId>)
    requires forall id :: id in ids ==> id in jobs && id in later && later[id] == jobs[id]
    ensures Effects(later, ids) == Effects(jobs, ids)
  {
    if ids != [] {
      EffectsAgree(jobs, later, ids[..|ids| - 1]);
    }
  }

  ghost predicate EffectsOk(s: State) {
    s.effects == Effects(s.core.jobs, s.core.collected)
  }

  lemma CollectedGrows(c: Core, step: CoreStep)
    requires CoreEnabled(c, step)
    ensures CoreNext(c, step).collected == if step.Collect? then c.collected + [c.collector.job] else c.collected
  {
  }

  /** Only a collection issues a status update. */
  lemma NoEffect(s: State, step: Step)
    requires Enabled(s, step) && !(step.InLoop? && step.loop.CollectResult?)
    ensures Next(s, step).effects == s.effects
  {
    match step {
      case Open(call) => OpenFrame(s, call);
      case InCreate(i, act) => CreateFrame(s, i, act);
      case InDelete(i, act) => DeleteFrame(s, i, act);
      case InSubmit(i, act) => SubmitFrame(s, i, act);
      case InFetch(i, act) => FetchFrame(s, i, act);
      case InJob(w, work) => WorkFrame(s, w, work);
      case InLoop(loop) =>
    }
  }

  /** Every other step leaves the collected jobs and what they called for. */
  lemma EffectsStay(s: State, step: Step)
    requires PipelineOk(s) && EffectsOk(s) && Enabled(s, step) && !(step.InLoop? && step.loop.CollectResult?)
    ensures EffectsOk(Next(s, step))
  {
    var t := Next(s, step);
    var moved, c := CoreOfStep(s, step);
    if moved { CollectedGrows(s.core, c); }
    forall id | id in s.core.collected
      ensures id in s.core.jobs && id in t.core.jobs && t.core.jobs[id] == s.core.jobs[id]
    {
      if moved { CollectedStays(s.core, c, id); }
    }
    EffectsAgree(s.core.jobs, t.core.jobs, s.core.collected);
    NoEffect(s, step);
  }

  lemma EffectsStep(s: State, step: Step)
    requires PipelineOk(s) && EffectsOk(s) && Enabled(s, step)
    ensures EffectsOk(Next(s, step))
  {
    if step.InLoop? && step.loop.CollectResult? {
      CollectEffects(s, step.loop);
    } else {
      EffectsStay(s, step);
    }
  }

  lemma EffectsSnoc(jobs: map<JobId, Job>, ids: seq<JobId>, id: JobId)
    requires id in jobs
    ensures Effects(jobs, ids + [id]) == Effects(jobs, ids) + EffectOf(jobs[id])
  {
    assert (ids + [id])[..|ids|] == ids;
  }

  /** What collecting a job adds to the histories. */
  lemma CollectMoves(s: State, loop: LoopStep)
    requires LoopEnabled(s, loop) && loop.CollectResult?
    ensures s.core.collector.job in s.core.jobs
    ensures var t, id := NextLoop(s, loop), s.core.collector.job;
            && t.core.jobs == s.core.jobs && t.core.collected == s.core.collected + [id]
            && t.effects == s.effects + EffectOf(s.core.jobs[id])
  {
  }

  lemma CollectEffects(s: State, loop: LoopStep)
    requires LoopEnabled(s, loop) && loop.CollectResult? && EffectsOk(s)
    ensures EffectsOk(NextLoop(s, loop))
  {
    CollectMoves(s, loop);
    EffectsSnoc(s.core.jobs, s.core.collected, s.core.collector.job);
  }

  // ---------------------------------------------------------------- orderly deletions

  /** The CreateUser call that generated this user has returned. */
  predicate CreateOver(s: State, user: UserId) {
    user < 0 || (user < |s.ops| && s.ops[user].Returned?)
  }

  /** DeleteUser is only ever called for a user whose CreateUser has returned. */
  predicate Orderly(s: State, step: Step) {
    step.Open? && step.call.DeleteUser? ==> CreateOver(s, step.call.user)
  }

  ghost predicate DeletesOrderly(s: State) {
    && (forall i :: 0 <= i < |s.ops| && Deleting(s.ops[i]) ==> CreateOver(s, s.ops[i].user))
    && (forall id :: id in s.core.jobs && s.core.jobs[id].kind.RevokeCert? ==>
          CreateOver(s, s.core.jobs[id].user))
  }

  lemma CreateOverStays(s: State, step: Step, user: UserId)
    requires Enabled(s, step) && CreateOver(s, user)
    ensures CreateOver(Next(s, step), user)
  {
    match step {
      case Open(call) =>
        OpenFrame(s, call);
        if user >= 0 { assert NextOpen(s, call).ops[user] == NextOpen(s, call).ops[..|s.ops|][user]; }
      case InCreate(i, act) => CreateFrame(s, i, act);
      case InDelete(i, act) => DeleteFrame(s, i, act);
      case InSubmit(i, act) => SubmitFrame(s, i, act);
      case InFetch(i, act) => FetchFrame(s, i, act);
      case InJob(w, work) => WorkFrame(s, w, work);
      case InLoop(loop) => LoopFrame(s, loop);
    }
  }

  lemma DeleteGoes(s: State, i: nat, act: DeleteStep)
    requires DeleteEnabled(s, i, act) && |NextDelete(s, i, act).ops| == |s.ops|
    ensures Deleting(s.ops[i])
    ensures Deleting(NextDelete(s, i, act).ops[i]) ==> NextDelete(s, i, act).ops[i].user == s.ops[i].user
  {
    match act {
      case FindUser(_) =>
      case SubmitRevoke =>
      case MarkRevoked(_) =>
      case DropCache(_) =>
    }
  }

  lemma CreateNeverDeletes(s: State, i: nat, act: CreateStep)
    requires CreateEnabled(s, i, act) && |NextCreate(s, i, act).ops| == |s.ops|
    ensures !Deleting(NextCreate(s, i, act).ops[i])
  {
  }

  /** Where a deletion's target comes from. */
  lemma DeletingBefore(s: State, step: Step, i: nat)
    requires RegistersOk(s) && Enabled(s, step) && i < |Next(s, step).ops| && Deleting(Next(s, step).ops[i])
    ensures || (i < |s.ops| && Deleting(s.ops[i]) && Next(s, step).ops[i].user == s.ops[i].user)
            || step == Open(DeleteUser(Next(s, step).ops[i].user))
  {
    match step {
      case Open(call) =>
        OpenFrame(s, call);
        if i < |s.ops| { assert NextOpen(s, call).ops[i] == NextOpen(s, call).ops[..|s.ops|][i]; }
      case InCreate(k, act) =>
        CreateFrame(s, k, act);
        CreateNeverDeletes(s, k, act);
      case InDelete(k, act) =>
        DeleteFrame(s, k, act);
        DeleteGoes(s, k, act);
      case InSubmit(k, act) => SubmitFrame(s, k, act);
      case InFetch(k, act) =>
        FetchFrame(s, k, act);
        assert CallOk(s, k, s.ops[k]);
        FetchGoes(s, k, act);
      case InJob(w, work) => WorkFrame(s, w, work);
      case InLoop(loop) => LoopFrame(s, loop);
    }
  }

  /** Where a revoke job's target comes from. */
  lemma RevokeJobBefore(s: State, step: Step, id: JobId)
    requires Enabled(s, step) && JobIs(Next(s, step), id, RevokeCert)
    ensures || (JobIs(s, id, RevokeCert) && s.core.jobs[id].user == Next(s, step).core.jobs[id].user)
            || (id < |s.ops| && Deleting(s.ops[id]) && s.ops[id].user == Next(s, step).core.jobs[id].user)
  {
    JobsKeptAlong(s, step);
    var moved, c := CoreOfStep(s, step);
    if id !in s.core.jobs { JobAdded(s.core, c, id); }
  }

  lemma DeletesOrderlyStep(s: State, step: Step)
    requires RegistersOk(s) && DeletesOrderly(s) && Enabled(s, step) && Orderly(s, step)
    ensures DeletesOrderly(Next(s, step))
  {
    var t := Next(s, step);
    forall i | 0 <= i < |t.ops| && Deleting(t.ops[i]) ensures CreateOver(t, t.ops[i].user) {
      DeletingBefore(s, step, i);
      CreateOverStays(s, step, t.ops[i].user);
    }
    forall id | id in t.core.jobs && t.core.jobs[id].kind.RevokeCert? ensures CreateOver(t, t.core.jobs[id].user) {
      RevokeJobBefore(s, step, id);
      CreateOverStays(s, step, t.core.jobs[id].user);
    }
  }

  // ---------------------------------------------------------------- generate before revoke

  ghost predicate Before(ids: seq<JobId>, a: JobId, b: JobId) {
    exists i, j :: 0 <= i < j < |ids| && ids[i] == a && ids[j] == b
  }

  lemma BeforeSnoc(ids: seq<JobId>, a: JobId, b: JobId, x: JobId)
    requires Before(ids, a, b) || (a in ids && b == x)
    ensures Before(ids + [x], a, b)
  {
    var more := ids + [x];
    if Before(ids, a, b) {
      var i, j :| 0 <= i < j < |ids| && ids[i] == a && ids[j] == b;
      assert more[i] == a && more[j] == b;
    } else {
      var i :| 0 <= i < |ids| && ids[i] == a;
      assert more[i] == a && more[|ids|] == b;
    }
  }

  /** An enqueued revoke job comes after its user's generate job, if that was enqueued at all. */
  ghost predicate GenerateFirst(s: State, id: JobId)
    requires id in s.core.jobs
  {
    var u := s.core.jobs[id].user;
    0 <= u && JobIs(s, u, GenerateCert) && u in s.core.enqueued ==> Before(s.core.enqueued, u, id)
  }

  ghost predicate QueueOrderly(s: State) {
    forall id :: id in s.core.enqueued && JobIs(s, id, RevokeCert) ==> GenerateFirst(s, id)
  }

  lemma EnqueuedGrows(c: Core, step: CoreStep)
    requires CoreEnabled(c, step)
    ensures CoreNext(c, step).enqueued == if step.Enqueue? then c.enqueued + [step.id] else c.enqueued
    ensures step.Enqueue? ==> CoreNext(c, step).jobs == c.jobs
  {
  }

  lemma SendOrderly(s: State, i: nat)
    requires RegistersOk(s) && DeletesOrderly(s) && QueueOrderly(s) && SubmitEnabled(s, i, Send)
    ensures QueueOrderly(NextSubmit(s, i, Send))
  {
    var t := NextSubmit(s, i, Send);
    EnqueuedGrows(s.core, Enqueue(i));
    forall id | id in t.core.enqueued && JobIs(t, id, RevokeCert) ensures GenerateFirst(t, id) {
      var u := t.core.jobs[id].user;
      if 0 <= u && JobIs(t, u, GenerateCert) && u in t.core.enqueued {
        assert CreateOver(s, u);
        assert u != i;
        if id != i { assert GenerateFirst(s, id); }
        BeforeSnoc(s.core.enqueued, u, id, i);
      }
    }
  }

  lemma QueueOrderlyStep(s: State, step: Step)
    requires RegistersOk(s) && DeletesOrderly(s) && QueueOrderly(s) && Enabled(s, step)
    ensures QueueOrderly(Next(s, step))
  {
    var t := Next(s, step);
    if step.InSubmit? && step.submit.Send? {
      SendOrderly(s, step.i);
    } else {
      NotSent(s, step);
      JobsKeptAlong(s, step);
      forall id | id in t.core.enqueued && JobIs(t, id, RevokeCert) ensures GenerateFirst(t, id) {
        assert id in s.core.jobs by { assert EnqueuedMatch(s.core); assert JobsMatch(s.core); }
        assert GenerateFirst(s, id);
        var u := t.core.jobs[id].user;
        if 0 <= u && JobIs(t, u, GenerateCert) && u in t.core.enqueued {
          assert u in s.core.jobs by { assert EnqueuedMatch(s.core); assert JobsMatch(s.core); }
        }
      }
    }
  }

  lemma NotSent(s: State, step: Step)
    requires Enabled(s, step) && !(step.InSubmit? && step.submit.Send?)
    ensures Next(s, step).core.enqueued == s.core.enqueued
  {
    match step {
      case Open(call) =>
      case InCreate(i, act) =>
      case InDelete(i, act) =>
      case InSubmit(i, act) =>
      case InFetch(i, act) => FetchFrame(s, i, act);
      case InJob(w, work) => WorkFrame(s, w, work);
      case InLoop(loop) => EnqueuedGrows(s.core, Inner(s, loop));
    }
  }

  // ---------------------------------------------------------------- a revocation that landed

  /** Nothing is left of the user's generate job that could still write a status. */
  ghost predicate Settled(s: State, user: UserId) {
    0 <= user && JobIs(s, user, GenerateCert) ==>
      user in s.core.stage && (s.core.stage[user].Aborted? || s.core.stage[user].Collected?)
  }

  ghost predicate Final(s: State, user: UserId) {
    && user in s.users && s.users[user].status.Revoked?
    && CreateOver(s, user) && Settled(s, user)
  }

  ghost predicate LandedOk(s: State) {
    forall u :: u in s.landed ==> Final(s, u)
  }

  ghost predicate OrderOk(s: State) {
    && |s.core.workers| == 1 && InOrder(s.core)
    && DeletesOrderly(s) && QueueOrderly(s) && LandedOk(s)
  }

  lemma SettledStays(s: State, step: Step, user: UserId)
    requires RegistersOk(s) && Enabled(s, step) && Settled(s, user) && CreateOver(s, user)
    ensures Settled(Next(s, step), user)
  {
    var t := Next(s, step);
    if 0 <= user && JobIs(t, user, GenerateCert) {
      var moved, c := CoreOfStep(s, step);
      JobsKeptAlong(s, step);
      if user in s.core.jobs {
        if moved {
          if s.core.stage[user].Aborted? { AbortedStays(s.core, c, user); } else { CollectedStays(s.core, c, user); }
        }
      } else {
        JobAdded(s.core, c, user);
      }
    }
  }

  /** Nothing of a settled user whose creation is over can write a status. */
  lemma FinalIsDead(s: State, user: UserId)
    requires RegistersOk(s) && Final(s, user)
    ensures !Live(s, user)
  {
  }

  /** With one worker, a revoke job reaches the collector after its user's generate job left it. */
  lemma GenerateCollectedFirst(s: State, user: UserId)
    requires RegistersOk(s) && OrderOk(s) && s.core.collector.Delivering?
    requires JobIs(s, s.core.collector.job, RevokeCert) && s.core.jobs[s.core.collector.job].user == user
    ensures Settled(s, user) && CreateOver(s, user)
  {
    var c, r := s.core, s.core.collector.job;
    assert c.stage[r].Delivered?;
    assert r in c.enqueued && GenerateFirst(s, r);
    if 0 <= user && JobIs(s, user, GenerateCert) {
      assert JobOk(s, user);
      if user in c.enqueued {
        var i, j :| 0 <= i < j < |c.enqueued| && c.enqueued[i] == user && c.enqueued[j] == r;
        assert c.enqueued[|c.collected|] == r;
        assert j == |c.collected|;
        assert c.collected[i] == user;
        assert user in c.collected;
      } else {
        assert !c.stage[user].Enqueued();
        assert !c.stage[user].Waiting?;
      }
    }
  }

  lemma LandedStep(s: State, step: Step)
    requires RegistersOk(s) && OrderOk(s) && Enabled(s, step)
    ensures LandedOk(Next(s, step))
  {
    var t := Next(s, step);
    forall u | u in t.landed ensures Final(t, u) {
      if u in s.landed {
        assert Final(s, u);
        FinalIsDead(s, u);
        RevokedStays(s, step, u);
      } else {
        LandsNow(s, step, u);
      }
      SettledStays(s, step, u);
      CreateOverStays(s, step, u);
    }
  }

  lemma CollectLands(s: State, loop: LoopStep, u: UserId)
    requires RegistersOk(s) && OrderOk(s) && LoopEnabled(s, loop) && u in NextLoop(s, loop).landed && u !in s.landed
    ensures Settled(s, u) && CreateOver(s, u)
    ensures u in NextLoop(s, loop).users && NextLoop(s, loop).users[u].status.Revoked?
  {
    LandsOf(s, loop, u);
    var id := s.core.collector.job;
    assert JobOk(s, id) && KnownAs(s, u, s.core.jobs[id].name);
    GenerateCollectedFirst(s, u);
    StoredRevoked(s, u);
  }

  /** A revocation lands when the collector stores that of a revoke job of the user's. */
  lemma LandsOf(s: State, loop: LoopStep, u: UserId)
    requires LoopEnabled(s, loop) && u in NextLoop(s, loop).landed && u !in s.landed
    ensures loop.CollectResult? && s.core.collector.Delivering? && JobIs(s, s.core.collector.job, RevokeCert)
    ensures s.core.jobs[s.core.collector.job].user == u && NextLoop(s, loop).users == SetStatus(s.users, u, Revoked)
  {
    if !loop.CollectResult? { NothingLands(s, loop); } else { CollectWrites(s, loop); }
  }

  lemma NothingLands(s: State, loop: LoopStep)
    requires LoopEnabled(s, loop) && !loop.CollectResult?
    ensures NextLoop(s, loop).landed == s.landed
  {
  }

  lemma StoredRevoked(s: State, u: UserId)
    requires u in s.users
    ensures var users := SetStatus(s.users, u, Revoked); u in users && users[u].status.Revoked?
  {
  }

  lemma LandsNow(s: State, step: Step, u: UserId)
    requires RegistersOk(s) && OrderOk(s) && Enabled(s, step) && u in Next(s, step).landed && u !in s.landed
    ensures Settled(s, u) && CreateOver(s, u)
    ensures u in Next(s, step).users && Next(s, step).users[u].status.Revoked?
  {
    match step {
      case Open(call) => OpenFrame(s, call);
      case InCreate(i, act) => CreateFrame(s, i, act);
      case InDelete(i, act) => DeleteFrame(s, i, act);
      case InSubmit(i, act) => SubmitFrame(s, i, act);
      case InFetch(i, act) => FetchFrame(s, i, act);
      case InJob(w, work) => WorkFrame(s, w, work);
      case InLoop(loop) => CollectLands(s, loop, u);
    }
  }

  lemma OrderStep(s: State, step: Step)
    requires RegistersOk(s) && OrderOk(s) && Enabled(s, step) && Orderly(s, step)
    ensures OrderOk(Next(s, step))
  {
    var moved, c := CoreOfStep(s, step);
    if moved { InOrderStep(s.core, c); }
    DeletesOrderlyStep(s, step);
    QueueOrderlyStep(s, step);
    LandedStep(s, step);
  }
}
