/** Why a user row says "active" or "revoked", for any number of workers. */
module Statuses {
  import opened JobPipeline
  import opened CertService
  import opened ServiceInvariant
  import opened Registers
  import opened Revocations

  /** The user's generate job completed and went through the collector. */
  ghost predicate Activated(s: State, user: UserId) {
    && 0 <= user && JobIs(s, user, GenerateCert) && s.core.jobs[user].user == user
    && s.core.jobs[user].status.Completed?
    && user in s.core.stage && s.core.stage[user].Collected?
  }

  ghost predicate Justified(s: State, user: UserId, status: UserStatus) {
    && (status.Active? ==> Activated(s, user))
    && (status.Revoked? ==> user in s.deletes)
  }

  predicate Deleting(op: Op) {
    op.DeleteFind? || op.DeleteSubmit? || op.DeleteWait? || op.DeleteMark? || op.DeleteDrop?
  }

  ghost predicate RowsJustified(s: State) {
    forall u :: u in s.users ==> Justified(s, u, s.users[u].status)
  }

  ghost predicate CarriedJustified(s: State) {
    forall w: nat :: w < |s.phases| && InPhase(s, w) && s.phases[w].Storing? ==>
      Justified(s, JobOf(s, w).user, s.phases[w].row.status)
  }

  ghost predicate DeletesNoted(s: State) {
    && (forall i :: 0 <= i < |s.ops| && Deleting(s.ops[i]) ==> s.ops[i].user in s.deletes)
    && (forall id :: id in s.core.jobs && s.core.jobs[id].kind.RevokeCert? ==> s.core.jobs[id].user in s.deletes)
  }

  ghost predicate StatusesOk(s: State) {
    RowsJustified(s) && CarriedJustified(s) && DeletesNoted(s)
  }

  lemma ActivatedStays(s: State, step: Step, user: UserId)
    requires PipelineOk(s) && Enabled(s, step) && Activated(s, user)
    ensures Activated(Next(s, step), user)
  {
    var moved, c := CoreOfStep(s, step);
    if moved { CollectedStays(s.core, c, user); }
  }

  /** Justifications only accumulate. */
  ghost predicate JustKept(s: State, t: State) {
    s.deletes <= t.deletes && forall u :: Activated(s, u) ==> Activated(t, u)
  }

  lemma JustKeptAlong(s: State, step: Step)
    requires PipelineOk(s) && Enabled(s, step)
    ensures JustKept(s, Next(s, step))
  {
    forall u | Activated(s, u) ensures Activated(Next(s, step), u) { ActivatedStays(s, step, u); }
    match step {
      case Open(call) => OpenFrame(s, call);
      case InCreate(i, act) => CreateFrame(s, i, act);
      case InDelete(i, act) => DeleteFrame(s, i, act);
      case InSubmit(i, act) => SubmitFrame(s, i, act);
      case InFetch(i, act) => FetchFrame(s, i, act);
      case InJob(w, work) => WorkFrame(s, w, work);
      case InLoop(loop) => LoopFrame(s, loop);
    }
  }

  // ---------------------------------------------------------------- deletes

  lemma OpenDeletes(s: State, call: Call)
    requires DeletesNoted(s) && OpenEnabled(s, call)
    ensures DeletesNoted(NextOpen(s, call))
  {
    var t := NextOpen(s, call);
    OpenFrame(s, call);
    forall i | 0 <= i < |t.ops| && Deleting(t.ops[i]) ensures t.ops[i].user in t.deletes {
      if i < |s.ops| { assert t.ops[i] == t.ops[..|s.ops|][i]; }
    }
  }

  lemma CallDeletes(s: State, t: State, i: nat)
    requires DeletesNoted(s) && i < |s.ops| && CallFrame(s, t, i) && JobsKept(s.core, t.core)
    requires Deleting(t.ops[i]) ==> Deleting(s.ops[i]) && t.ops[i].user == s.ops[i].user
    requires forall id :: id in t.core.jobs && id !in s.core.jobs && t.core.jobs[id].kind.RevokeCert? ==>
               Deleting(s.ops[i]) && t.core.jobs[id].user == s.ops[i].user
    ensures DeletesNoted(t)
  {
    forall k | 0 <= k < |t.ops| && Deleting(t.ops[k]) ensures t.ops[k].user in t.deletes {
      if k != i { assert t.ops[k] == s.ops[k]; }
    }
  }

  lemma CreateDeletes(s: State, i: nat, act: CreateStep)
    requires DeletesNoted(s) && CreateEnabled(s, i, act)
    ensures DeletesNoted(NextCreate(s, i, act))
  {
    CreateFrame(s, i, act);
    JobsKeptAlong(s, InCreate(i, act));
    CallDeletes(s, NextCreate(s, i, act), i);
  }

  lemma DeleteDeletes(s: State, i: nat, act: DeleteStep)
    requires DeletesNoted(s) && DeleteEnabled(s, i, act)
    ensures DeletesNoted(NextDelete(s, i, act))
  {
    DeleteFrame(s, i, act);
    JobsKeptAlong(s, InDelete(i, act));
    CallDeletes(s, NextDelete(s, i, act), i);
  }

  lemma SubmitDeletes(s: State, i: nat, act: SubmitStep)
    requires DeletesNoted(s) && SubmitEnabled(s, i, act)
    ensures DeletesNoted(NextSubmit(s, i, act))
  {
    SubmitFrame(s, i, act);
    JobsKeptAlong(s, InSubmit(i, act));
    CallDeletes(s, NextSubmit(s, i, act), i);
  }

  lemma FetchDeletes(s: State, i: nat, act: FetchStep)
    requires DeletesNoted(s) && FetchEnabled(s, i, act) && CallOk(s, i, s.ops[i])
    ensures DeletesNoted(NextFetch(s, i, act))
  {
    FetchFrame(s, i, act);
    FetchGoes(s, i, act);
    CallDeletes(s, NextFetch(s, i, act), i);
  }

  lemma LoopDeletes(s: State, loop: LoopStep)
    requires PipelineOk(s) && DeletesNoted(s) && LoopEnabled(s, loop)
    ensures DeletesNoted(NextLoop(s, loop))
  {
    LoopFrame(s, loop);
    JobsKeptAlong(s, InLoop(loop));
    LoopsKeepWaiting(s.core, Inner(s, loop));
  }

  lemma DeletesStep(s: State, step: Step)
    requires RegistersOk(s) && DeletesNoted(s) && Enabled(s, step)
    ensures DeletesNoted(Next(s, step))
  {
    match step {
      case Open(call) => OpenDeletes(s, call);
      case InCreate(i, act) => CreateDeletes(s, i, act);
      case InDelete(i, act) => DeleteDeletes(s, i, act);
      case InSubmit(i, act) => SubmitDeletes(s, i, act);
      case InFetch(i, act) =>
        assert CallOk(s, i, s.ops[i]);
        FetchDeletes(s, i, act);
      case InJob(w, work) => WorkFrame(s, w, work);
      case InLoop(loop) => LoopDeletes(s, loop);
    }
  }

  // ---------------------------------------------------------------- rows

  /** The steps that write a status, and what they write. */
  lemma StatusWrites(s: State, step: Step, u: UserId)
    requires RegistersOk(s) && StatusesOk(s) && Enabled(s, step) && JustKept(s, Next(s, step))
    requires u in Next(s, step).users
    ensures Justified(Next(s, step), u, Next(s, step).users[u].status)
  {
    assert u in s.users ==> Justified(s, u, s.users[u].status);
    match step {
      case Open(call) => OpenFrame(s, call);
      case InCreate(i, act) => CreateWrites(s, i, act, u);
      case InDelete(i, act) => DeleteWrites(s, i, act, u);
      case InSubmit(i, act) => SubmitFrame(s, i, act);
      case InFetch(i, act) => FetchFrame(s, i, act);
      case InJob(w, work) => WorkWrites(s, w, work, u);
      case InLoop(loop) => LoopWrites(s, loop, u);
    }
  }

  lemma CreateWrites(s: State, i: nat, act: CreateStep, u: UserId)
    requires CreateEnabled(s, i, act) && u in NextCreate(s, i, act).users
    ensures var t := NextCreate(s, i, act);
            t.users[u].status.Inactive? || (u in s.users && t.users[u] == s.users[u])
  {
    match act {
      case CheckName(_) =>
      case InsertUser(_) =>
      case SubmitGenerate =>
    }
  }

  lemma DeleteWrites(s: State, i: nat, act: DeleteStep, u: UserId)
    requires DeletesNoted(s) && DeleteEnabled(s, i, act) && u in NextDelete(s, i, act).users
    ensures var t := NextDelete(s, i, act);
            && u in s.users && t.deletes == s.deletes
            && (t.users[u] == s.users[u] || (t.users[u].status.Revoked? && u in s.deletes))
  {
    match act {
      case FindUser(_) =>
      case SubmitRevoke =>
      case MarkRevoked(_) =>
      case DropCache(_) =>
    }
  }

  lemma WorkWrites(s: State, w: nat, work: WorkStep, u: UserId)
    requires CarriedJustified(s) && WorkEnabled(s, w, work) && u in NextWork(s, w, work).users
    ensures var t := NextWork(s, w, work);
            && u in s.users && t.core == s.core && t.deletes == s.deletes
            && (t.users[u] == s.users[u] || Justified(s, u, t.users[u].status))
  {
    WorkFrame(s, w, work);
    if work.StoreUser? {
      assert Justified(s, JobOf(s, w).user, s.phases[w].row.status);
    }
  }

  lemma LoopWrites(s: State, loop: LoopStep, u: UserId)
    requires RegistersOk(s) && DeletesNoted(s) && LoopEnabled(s, loop) && u in NextLoop(s, loop).users
    ensures u in s.users
    ensures var t := NextLoop(s, loop);
            t.users[u] == s.users[u] || Justified(t, u, t.users[u].status)
  {
    if loop.CollectResult? {
      CollectTouches(s, loop, u);
      if s.core.jobs[s.core.collector.job].user == u {
        assert JobOk(s, s.core.collector.job);
        CollectJustified(s, loop, u);
      }
    } else {
      OnlyCollectWrites(s, loop);
    }
  }

  /** What the collector stores for the job's user has its reason. */
  lemma CollectJustified(s: State, loop: LoopStep, u: UserId)
    requires DeletesNoted(s) && LoopEnabled(s, loop) && loop.CollectResult? && JobOk(s, s.core.collector.job)
    requires s.core.jobs[s.core.collector.job].user == u && u in s.users && u in NextLoop(s, loop).users
    ensures var t := NextLoop(s, loop); t.users[u] == s.users[u] || Justified(t, u, t.users[u].status)
  {
    LoopFrame(s, loop);
    LoopCore(s, loop);
  }

  // ---------------------------------------------------------------- carried rows

  lemma CallCarries(s: State, t: State)
    requires PhasesOk(s) && CarriedJustified(s) && JustKept(s, t)
    requires t.phases == s.phases && t.core.workers == s.core.workers && JobsKept(s.core, t.core)
    ensures CarriedJustified(t)
  {
    forall w: nat | w < |t.phases| && InPhase(t, w) && t.phases[w].Storing?
      ensures Justified(t, JobOf(t, w).user, t.phases[w].row.status)
    {
      assert InPhase(s, w);
      assert Justified(s, JobOf(s, w).user, s.phases[w].row.status);
    }
  }

  lemma WorkCarries(s: State, v: nat, work: WorkStep)
    requires PhasesOk(s) && CarriedJustified(s) && RowsJustified(s) && WorkEnabled(s, v, work)
    requires JustKept(s, NextWork(s, v, work))
    ensures CarriedJustified(NextWork(s, v, work))
  {
    var t := NextWork(s, v, work);
    WorkFrame(s, v, work);
    forall w: nat | w < |t.phases| && InPhase(t, w) && t.phases[w].Storing?
      ensures Justified(t, JobOf(t, w).user, t.phases[w].row.status)
    {
      if w != v {
        assert t.phases[w] == s.phases[w];
        assert Justified(s, JobOf(s, w).user, s.phases[w].row.status);
      } else {
        assert work.LoadUser?;
        assert Justified(s, JobOf(s, w).user, s.users[JobOf(s, w).user].status);
      }
    }
  }

  lemma LoopCarries(s: State, loop: LoopStep)
    requires RegistersOk(s) && CarriedJustified(s) && LoopEnabled(s, loop) && JustKept(s, NextLoop(s, loop))
    ensures CarriedJustified(NextLoop(s, loop))
  {
    var t := NextLoop(s, loop);
    LoopFrame(s, loop);
    JobsKeptAlong(s, InLoop(loop));
    forall w: nat | w < |t.phases| && InPhase(t, w) && t.phases[w].Storing?
      ensures Justified(t, JobOf(t, w).user, t.phases[w].row.status)
    {
      WorkingBefore(s.core, Inner(s, loop), w);
      if loop != BeginJob(w) {
        assert t.phases[w] == s.phases[w] && InPhase(s, w);
        assert Justified(s, JobOf(s, w).user, s.phases[w].row.status);
      }
    }
  }

  lemma CarriesStep(s: State, step: Step)
    requires RegistersOk(s) && StatusesOk(s) && Enabled(s, step) && JustKept(s, Next(s, step))
    ensures CarriedJustified(Next(s, step))
  {
    JobsKeptAlong(s, step);
    match step {
      case Open(call) =>
        OpenFrame(s, call);
        CallCarries(s, NextOpen(s, call));
      case InCreate(i, act) =>
        CreateFrame(s, i, act);
        CallCarries(s, NextCreate(s, i, act));
      case InDelete(i, act) =>
        DeleteFrame(s, i, act);
        CallCarries(s, NextDelete(s, i, act));
      case InSubmit(i, act) =>
        SubmitFrame(s, i, act);
        CallCarries(s, NextSubmit(s, i, act));
      case InFetch(i, act) =>
        FetchFrame(s, i, act);
        CallCarries(s, NextFetch(s, i, act));
      case InJob(w, work) => WorkCarries(s, w, work);
      case InLoop(loop) => LoopCarries(s, loop);
    }
  }

  lemma StatusesStep(s: State, step: Step)
    requires RegistersOk(s) && StatusesOk(s) && Enabled(s, step)
    ensures StatusesOk(Next(s, step))
  {
    JustKeptAlong(s, step);
    DeletesStep(s, step);
    CarriesStep(s, step);
    forall u | u in Next(s, step).users ensures Justified(Next(s, step), u, Next(s, step).users[u].status) {
      StatusWrites(s, step, u);
    }
  }
}
