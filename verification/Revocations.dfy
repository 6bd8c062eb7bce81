/** What can still take the status "revoked" from a user: the rest of that user's own creation. */
module Revocations {
  import opened JobPipeline
  import opened CertService
  import opened ServiceInvariant
  import opened Registers

  /** The job can still complete: it is on its way and has not failed. */
  predicate Hopeful(s: State, id: JobId) {
    && id in s.core.stage && id in s.core.jobs
    && match s.core.stage[id]
       case Waiting => true
       case Queued => true
       case Held(w) =>
         && w < |s.core.workers| && w < |s.phases|
         && (match s.core.workers[w]
             case Taken(_) => true
             case Working(_) => s.phases[w] != Finishing(false)
             case Posting(_) => s.core.jobs[id].status.Completed?
             case _ => false)
       case Posted => s.core.jobs[id].status.Completed?
       case Delivered => s.core.jobs[id].status.Completed?
       case _ => false
  }

  /** The user's CreateUser call has its generate job still to register, or that job can still complete. */
  predicate Live(s: State, user: UserId) {
    && 0 <= user < |s.ops|
    && (s.ops[user].CreateSubmit?
        || (user in s.core.jobs && s.core.jobs[user].kind.GenerateCert? && Hopeful(s, user)))
  }

  ghost predicate RevokedDead(s: State, user: UserId) {
    user in s.users && s.users[user].status.Revoked? && !Live(s, user)
  }

  /** No step takes the status "revoked" from a user whose creation has nothing left to write. */
  lemma RevokedStays(s: State, step: Step, user: UserId)
    requires RegistersOk(s) && Enabled(s, step) && RevokedDead(s, user)
    ensures user in Next(s, step).users && Next(s, step).users[user].status.Revoked?
  {
    match step {
      case Open(call) => OpenFrame(s, call);
      case InCreate(i, act) => CreateKeepsRevoked(s, i, act, user);
      case InDelete(i, act) => DeleteKeepsRevoked(s, i, act, user);
      case InSubmit(i, act) => SubmitFrame(s, i, act);
      case InFetch(i, act) => FetchFrame(s, i, act);
      case InJob(w, work) => WorkKeepsRevoked(s, w, work, user);
      case InLoop(loop) => LoopKeepsRevoked(s, loop, user);
    }
  }

  lemma CreateKeepsRevoked(s: State, i: nat, act: CreateStep, user: UserId)
    requires RegistersOk(s) && CreateEnabled(s, i, act) && RevokedDead(s, user)
    ensures user in NextCreate(s, i, act).users && NextCreate(s, i, act).users[user].status.Revoked?
  {
    assert CallOk(s, i, s.ops[i]);
    CreateKeepsRows(s, i, act);
  }

  lemma CreateKeepsRows(s: State, i: nat, act: CreateStep)
    requires CreateEnabled(s, i, act) && CallOk(s, i, s.ops[i])
    ensures var t := NextCreate(s, i, act);
            forall u :: u in s.users ==> u in t.users && t.users[u] == s.users[u]
  {
    match act {
      case CheckName(_) =>
      case InsertUser(_) =>
      case SubmitGenerate =>
    }
  }

  lemma DeleteKeepsRevoked(s: State, i: nat, act: DeleteStep, user: UserId)
    requires DeleteEnabled(s, i, act) && user in s.users && s.users[user].status.Revoked?
    ensures user in NextDelete(s, i, act).users && NextDelete(s, i, act).users[user].status.Revoked?
  {
    match act {
      case FindUser(_) =>
      case SubmitRevoke =>
      case MarkRevoked(_) =>
      case DropCache(_) =>
    }
  }

  lemma WorkKeepsRevoked(s: State, w: nat, work: WorkStep, user: UserId)
    requires RegistersOk(s) && WorkEnabled(s, w, work) && RevokedDead(s, user)
    ensures user in NextWork(s, w, work).users && NextWork(s, w, work).users[user].status.Revoked?
  {
    if work.StoreUser? {
      var id := s.core.workers[w].job;
      assert JobOk(s, id) && PhaseFits(s.core.jobs[id].kind, s.phases[w]);
      assert s.core.stage[id] == Held(w);
    } else {
      assert NextWork(s, w, work).users == s.users;
    }
  }

  /** What collecting a job can write. */
  lemma CollectWrites(s: State, loop: LoopStep)
    requires LoopEnabled(s, loop) && loop.CollectResult? && s.core.collector.job in s.core.jobs
    ensures var j, t := s.core.jobs[s.core.collector.job], NextLoop(s, loop);
            || (t.users == s.users && t.landed == s.landed)
            || (j.kind.GenerateCert? && t.users == SetStatus(s.users, j.user, Active) && t.landed == s.landed)
            || (j.kind.RevokeCert? && t.users == SetStatus(s.users, j.user, Revoked) && t.landed == s.landed + {j.user})
  {
  }

  lemma OnlyCollectWrites(s: State, loop: LoopStep)
    requires LoopEnabled(s, loop) && !loop.CollectResult?
    ensures NextLoop(s, loop).users == s.users
  {
  }

  /** Collecting a job changes no row but its user's. */
  lemma CollectTouches(s: State, loop: LoopStep, u: UserId)
    requires LoopEnabled(s, loop) && loop.CollectResult?
    ensures s.core.collector.Delivering? && s.core.collector.job in s.core.jobs
    ensures u in NextLoop(s, loop).users <==> u in s.users
    ensures u in s.users && s.core.jobs[s.core.collector.job].user != u ==> NextLoop(s, loop).users[u] == s.users[u]
  {
  }

  lemma LoopKeepsRevoked(s: State, loop: LoopStep, user: UserId)
    requires RegistersOk(s) && LoopEnabled(s, loop) && RevokedDead(s, user)
    ensures user in NextLoop(s, loop).users && NextLoop(s, loop).users[user].status.Revoked?
  {
    if loop.CollectResult? {
      CollectTouches(s, loop, user);
      var id := s.core.collector.job;
      if s.core.jobs[id].user == user {
        assert s.core.stage[id].Delivered? && JobOk(s, id);
        OwnCollected(s, loop, user);
      }
    } else {
      OnlyCollectWrites(s, loop);
    }
  }

  /** Of the user's own jobs only a completed generate job could change a revoked status. */
  lemma OwnCollected(s: State, loop: LoopStep, user: UserId)
    requires LoopEnabled(s, loop) && loop.CollectResult? && RevokedDead(s, user) && user < |s.ops|
    requires s.core.jobs[s.core.collector.job].user == user
    requires var id := s.core.collector.job;
             id in s.core.stage && s.core.stage[id].Delivered? && (s.core.jobs[id].kind.GenerateCert? ==> id == user)
    ensures user in NextLoop(s, loop).users && NextLoop(s, loop).users[user].status.Revoked?
  {
  }

  // ---------------------------------------------------------------- nothing comes to life again

  lemma SameHope(s: State, t: State, id: JobId)
    requires Hopeful(t, id) && id in s.core.jobs && id in s.core.stage
    requires t.core.jobs[id] == s.core.jobs[id] && t.core.stage[id] == s.core.stage[id]
    requires t.core.workers == s.core.workers && t.phases == s.phases
    ensures Hopeful(s, id)
  {
  }

  /** A call's statement brings no known user's creation to life. */
  lemma CreateHope(s: State, i: nat, act: CreateStep, user: UserId)
    requires RegistersOk(s) && CreateEnabled(s, i, act) && user in s.users && Live(NextCreate(s, i, act), user)
    ensures Live(s, user)
  {
    var t := NextCreate(s, i, act);
    CreateFrame(s, i, act);
    CreateCore(s, i, act);
    assert CallOk(s, i, s.ops[i]);
    if i == user {
      assert act.SubmitGenerate?;
    } else if !t.ops[user].CreateSubmit? {
      SameHope(s, t, user);
    }
  }

  lemma DeleteHope(s: State, i: nat, act: DeleteStep, user: UserId)
    requires RegistersOk(s) && DeleteEnabled(s, i, act) && user in s.users && Live(NextDelete(s, i, act), user)
    ensures Live(s, user)
  {
    var t := NextDelete(s, i, act);
    DeleteFrame(s, i, act);
    DeleteCore(s, i, act);
    DeleteGoesOn(s, i, act);
    if !t.ops[user].CreateSubmit? { SameHope(s, t, user); }
  }

  lemma DeleteGoesOn(s: State, i: nat, act: DeleteStep)
    requires DeleteEnabled(s, i, act) && |NextDelete(s, i, act).ops| == |s.ops|
    ensures !NextDelete(s, i, act).ops[i].CreateSubmit?
  {
    match act {
      case FindUser(_) =>
      case SubmitRevoke =>
      case MarkRevoked(_) =>
      case DropCache(_) =>
    }
  }

  lemma SubmitHope(s: State, i: nat, act: SubmitStep, user: UserId)
    requires RegistersOk(s) && SubmitEnabled(s, i, act) && user in s.users && Live(NextSubmit(s, i, act), user)
    ensures Live(s, user)
  {
    var t := NextSubmit(s, i, act);
    SubmitFrame(s, i, act);
    assert t.core.jobs == s.core.jobs && !t.ops[i].CreateSubmit?;
    if i != user && !t.ops[user].CreateSubmit? { SameHope(s, t, user); }
  }

  lemma FetchHope(s: State, i: nat, act: FetchStep, user: UserId)
    requires RegistersOk(s) && FetchEnabled(s, i, act) && Live(NextFetch(s, i, act), user)
    ensures Live(s, user)
  {
    var t := NextFetch(s, i, act);
    FetchFrame(s, i, act);
    assert CallOk(s, i, s.ops[i]);
    FetchGoes(s, i, act);
    if !t.ops[user].CreateSubmit? { SameHope(s, t, user); }
  }

  lemma WorkHope(s: State, w: nat, work: WorkStep, user: UserId)
    requires RegistersOk(s) && WorkEnabled(s, w, work) && Live(NextWork(s, w, work), user)
    ensures Live(s, user)
  {
    WorkFrame(s, w, work);
    assert !s.phases[w].Finishing?;
  }

  lemma TakeHope(s: State, w: nat, id: JobId)
    requires RegistersOk(s) && LoopEnabled(s, TakeJob(w)) && Hopeful(NextLoop(s, TakeJob(w)), id)
    ensures Hopeful(s, id)
  {
    var c := s.core;
    assert c.queue[0] in c.queue && FieldsMatch(c, id);
  }

  lemma BeginHope(s: State, w: nat, id: JobId)
    requires RegistersOk(s) && LoopEnabled(s, BeginJob(w)) && Hopeful(NextLoop(s, BeginJob(w)), id)
    ensures Hopeful(s, id)
  {
    var c := s.core;
    assert c.workers[w].Busy() && FieldsMatch(c, id);
  }

  lemma FinishHope(s: State, w: nat, id: JobId)
    requires RegistersOk(s) && LoopEnabled(s, FinishJob(w)) && Hopeful(NextLoop(s, FinishJob(w)), id)
    ensures Hopeful(s, id)
  {
    var c := s.core;
    assert c.workers[w].Busy() && FieldsMatch(c, id);
  }

  lemma PostHope(s: State, w: nat, id: JobId)
    requires RegistersOk(s) && LoopEnabled(s, PostJob(w)) && Hopeful(NextLoop(s, PostJob(w)), id)
    ensures Hopeful(s, id)
  {
    var c := s.core;
    assert c.workers[w].Busy() && FieldsMatch(c, id);
  }

  lemma LeaveHope(s: State, w: nat, id: JobId)
    requires RegistersOk(s) && LoopEnabled(s, LeaveWorker(w)) && Hopeful(NextLoop(s, LeaveWorker(w)), id)
    ensures Hopeful(s, id)
  {
    assert FieldsMatch(s.core, id);
  }

  lemma ReceiveHope(s: State, id: JobId)
    requires RegistersOk(s) && LoopEnabled(s, ReceiveResult) && Hopeful(NextLoop(s, ReceiveResult), id)
    ensures Hopeful(s, id)
  {
    assert s.core.results[0] in s.core.results && FieldsMatch(s.core, id);
  }

  lemma CollectHope(s: State, loop: LoopStep, id: JobId)
    requires LoopEnabled(s, loop) && Hopeful(NextLoop(s, loop), id)
    requires loop.CollectResult? || loop.LeaveCollector? || loop.Shutdown?
    ensures Hopeful(s, id)
  {
    LoopFrame(s, loop);
    LoopCore(s, loop);
  }

  /** The loops hand a job on and decide it once; they revive nothing. */
  lemma LoopHope(s: State, loop: LoopStep, user: UserId)
    requires RegistersOk(s) && LoopEnabled(s, loop) && Live(NextLoop(s, loop), user)
    ensures Live(s, user)
  {
    var t := NextLoop(s, loop);
    LoopFrame(s, loop);
    JobsKeptAlong(s, InLoop(loop));
    LoopsKeepWaiting(s.core, Inner(s, loop));
    if !s.ops[user].CreateSubmit? {
      match loop {
        case TakeJob(w) => TakeHope(s, w, user);
        case BeginJob(w) => BeginHope(s, w, user);
        case FinishJob(w) => FinishHope(s, w, user);
        case PostJob(w) => PostHope(s, w, user);
        case LeaveWorker(w) => LeaveHope(s, w, user);
        case ReceiveResult => ReceiveHope(s, user);
        case _ => CollectHope(s, loop, user);
      }
    }
  }

  lemma OpenHope(s: State, call: Call, user: UserId)
    requires RegistersOk(s) && OpenEnabled(s, call) && user in s.users && Live(NextOpen(s, call), user)
    ensures Live(s, user)
  {
    var t := NextOpen(s, call);
    OpenFrame(s, call);
    assert t.ops[user] == t.ops[..|s.ops|][user];
    if !t.ops[user].CreateSubmit? { SameHope(s, t, user); }
  }

  /** Once nothing of a user's creation can write any more, that is for good. */
  lemma LiveBefore(s: State, step: Step, user: UserId)
    requires RegistersOk(s) && Enabled(s, step) && user in s.users && Live(Next(s, step), user)
    ensures Live(s, user)
  {
    match step {
      case Open(call) => OpenHope(s, call, user);
      case InCreate(i, act) => CreateHope(s, i, act, user);
      case InDelete(i, act) => DeleteHope(s, i, act, user);
      case InSubmit(i, act) => SubmitHope(s, i, act, user);
      case InFetch(i, act) => FetchHope(s, i, act, user);
      case InJob(w, work) => WorkHope(s, w, work, user);
      case InLoop(loop) => LoopHope(s, loop, user);
    }
  }

  lemma {:induction false} DeadStaysRevoked(s: State, steps: seq<Step>, user: UserId)
    requires RegistersOk(s) && IsRun(s, steps) && RevokedDead(s, user)
    ensures RevokedDead(After(s, steps), user)
    decreases |steps|
  {
    if steps != [] {
      var t := Next(s, steps[0]);
      RegistersStep(s, steps[0]);
      RevokedStays(s, steps[0], user);
      if Live(t, user) { LiveBefore(s, steps[0], user); }
      DeadStaysRevoked(t, steps[1..], user);
    }
  }
}
