/** When a revoked user can become active again, and a run that makes it so. */
module Reactivation {
  import opened JobPipeline
  import opened PipelineFacts
  import opened CertService
  import opened ServiceInvariant
  import opened Registers
  import opened Revocations
  import opened OneWorker
  import opened Progress
  import opened ServiceTheorems

  /** Before a shutdown, with a worker and a place in each channel. */
  ghost predicate Serving(s: State) {
    RegistersOk(s) && LoopsOpen(s.core) && !s.core.closed && |s.core.workers| >= 1 && s.core.capacity >= 1
  }

  ghost predicate IsGenerate(s: State, user: UserId) {
    0 <= user && JobIs(s, user, GenerateCert) && s.core.jobs[user].user == user && user in s.users
  }

  ghost predicate OnItsWay(s: State, user: UserId) {
    Serving(s) && IsGenerate(s, user) && Hopeful(s, user) && s.core.stage[user].Enqueued()
  }

  // ---------------------------------------------------------------- one more step toward the collector

  /** The job is still on its way, or its status stored. */
  ghost predicate Near(t: State, user: UserId) {
    || (user in t.users && t.users[user].status.Active?)
    || (0 <= user && Hopeful(t, user) && t.core.stage[user].Enqueued())
  }

  /** A step of the loops that leaves the job near. */
  ghost predicate Nearer(s: State, step: Step, user: UserId) {
    System(step) && Enabled(s, step) && Near(Next(s, step), user)
  }

  lemma NearerByLoop(s: State, loop: LoopStep, user: UserId)
    requires LoopEnabled(s, loop) && !loop.Shutdown? && Near(NextLoop(s, loop), user)
    ensures Nearer(s, InLoop(loop), user)
  {
  }

  lemma NearerByWork(s: State, w: nat, work: WorkStep, user: UserId)
    requires WorkEnabled(s, w, work) && Near(NextWork(s, w, work), user)
    ensures Nearer(s, InJob(w, work), user)
  {
  }

  /** A job in nobody's hands is none the worse for what is done with other jobs. */
  lemma Untouched(s: State, t: State, user: JobId)
    requires Hopeful(s, user) && s.core.stage[user].Enqueued() && !s.core.stage[user].Held?
    requires user in t.core.jobs && user in t.core.stage
    requires t.core.jobs[user] == s.core.jobs[user] && t.core.stage[user] == s.core.stage[user]
    ensures Hopeful(t, user) && t.core.stage[user].Enqueued()
  {
  }

  /** A job in a worker's hands, while the collector is at work. */
  lemma StillHeld(s: State, t: State, user: JobId)
    requires Hopeful(s, user) && s.core.stage[user].Held?
    requires user in t.core.jobs && user in t.core.stage
    requires t.core.jobs[user] == s.core.jobs[user] && t.core.stage[user] == s.core.stage[user]
    requires t.core.workers == s.core.workers && t.phases == s.phases
    ensures Hopeful(t, user) && t.core.stage[user].Enqueued()
  {
  }

  lemma CollectNearer(s: State, user: UserId) returns (step: Step)
    requires OnItsWay(s, user) && s.core.collector.Delivering?
    ensures Nearer(s, step, user)
  {
    if s.core.collector.job == user {
      step := CollectOwn(s, user);
    } else {
      step := CollectOther(s, user);
    }
  }

  lemma CollectStores(s: State, user: JobId)
    requires LoopEnabled(s, CollectResult(false)) && s.core.collector == Delivering(user)
    requires EffectOf(s.core.jobs[user]) == [(user as int, Active)] && user in s.users
    ensures var t := NextLoop(s, CollectResult(false)); user in t.users && t.users[user].status.Active?
  {
  }

  lemma CollectOwn(s: State, user: UserId) returns (step: Step)
    requires OnItsWay(s, user) && s.core.collector == Delivering(user)
    ensures Nearer(s, step, user)
  {
    assert s.core.stage[user].Delivered?;
    CollectStores(s, user);
    NearerByLoop(s, CollectResult(false), user);
    step := InLoop(CollectResult(false));
  }

  lemma CollectOther(s: State, user: UserId) returns (step: Step)
    requires OnItsWay(s, user) && s.core.collector.Delivering? && s.core.collector.job != user
    ensures Nearer(s, step, user)
  {
    assert s.core.collector.job in s.core.stage;
    var t := NextLoop(s, CollectResult(true));
    LoopCore(s, CollectResult(true));
    LoopFrame(s, CollectResult(true));
    if s.core.stage[user].Held? { StillHeld(s, t, user); } else { Untouched(s, t, user); }
    NearerByLoop(s, CollectResult(true), user);
    step := InLoop(CollectResult(true));
  }

  lemma ReceiveHopes(s: State, user: JobId)
    requires LoopEnabled(s, ReceiveResult) && Hopeful(s, user) && s.core.stage[user].Enqueued()
    requires s.core.results[0] == user ==> s.core.stage[user].Posted?
    ensures var t := NextLoop(s, ReceiveResult); Hopeful(t, user) && t.core.stage[user].Enqueued()
  {
    if s.core.results[0] != user {
      if s.core.stage[user].Held? {
        StillHeld(s, NextLoop(s, ReceiveResult), user);
      } else {
        Untouched(s, NextLoop(s, ReceiveResult), user);
      }
    }
  }

  lemma ReceiveNearer(s: State, user: UserId) returns (step: Step)
    requires OnItsWay(s, user) && s.core.collector.Ready? && s.core.results != []
    ensures Nearer(s, step, user)
  {
    assert s.core.results[0] in s.core.results;
    ReceiveHopes(s, user);
    NearerByLoop(s, ReceiveResult, user);
    step := InLoop(ReceiveResult);
  }

  /** The statement that brings a generate job on, going well. */
  function GoingWell(p: Phase): WorkStep {
    match p
    case Issuing => Issue(true)
    case Rendering => Render(true, "x")
    case Writing(data, done) => if done < |data| then Append(|data| - done) else EndWrite(true)
    case Inspecting => Inspect("")
    case Reading(_) => LoadUser(true)
    case _ => StoreUser(true)
  }

  lemma WorkHopes(s: State, user: JobId, w: nat, work: WorkStep)
    requires WorkEnabled(s, w, work) && s.core.workers[w] == Working(user)
    requires user in s.core.stage && s.core.stage[user] == Held(w)
    requires w < |NextWork(s, w, work).phases| && NextWork(s, w, work).phases[w] != Finishing(false)
    ensures Hopeful(NextWork(s, w, work), user) && NextWork(s, w, work).core.stage[user].Enqueued()
  {
    WorkFrame(s, w, work);
  }

  lemma FinishHopes(s: State, user: JobId, w: nat)
    requires LoopEnabled(s, FinishJob(w)) && s.core.workers[w] == Working(user) && s.phases[w] == Finishing(true)
    requires user in s.core.stage && s.core.stage[user] == Held(w)
    ensures var t := NextLoop(s, FinishJob(w)); Hopeful(t, user) && t.core.stage[user].Enqueued()
  {
  }

  lemma WorkNearer(s: State, user: UserId, w: nat) returns (step: Step)
    requires OnItsWay(s, user) && s.core.stage[user] == Held(w)
    requires w < |s.core.workers| && s.core.workers[w] == Working(user)
    ensures Nearer(s, step, user)
  {
    assert PhaseFits(s.core.jobs[user].kind, s.phases[w]);
    if s.phases[w].Finishing? {
      FinishHopes(s, user, w);
      NearerByLoop(s, FinishJob(w), user);
      step := InLoop(FinishJob(w));
    } else {
      WellPut(s, w);
      WorkHopes(s, user, w, GoingWell(s.phases[w]));
      NearerByWork(s, w, GoingWell(s.phases[w]), user);
      step := InJob(w, GoingWell(s.phases[w]));
    }
  }

  /** Going well ends in no failure. */
  lemma WellPut(s: State, w: nat)
    requires InPhase(s, w) && PhaseFits(GenerateCert, s.phases[w]) && !s.phases[w].Finishing?
    ensures WorkEnabled(s, w, GoingWell(s.phases[w]))
    ensures var t := NextWork(s, w, GoingWell(s.phases[w])); w < |t.phases| && t.phases[w] != Finishing(false)
  {
    match s.phases[w] {
      case Issuing =>
      case Rendering =>
      case Writing(_, _) =>
      case Inspecting =>
      case Reading(_) =>
      case Storing(_) =>
    }
  }

  lemma BeginHopes(s: State, user: JobId, w: nat)
    requires LoopEnabled(s, BeginJob(w)) && s.core.workers[w] == Taken(user) && s.core.jobs[user].kind.GenerateCert?
    requires user in s.core.stage && s.core.stage[user] == Held(w)
    ensures var t := NextLoop(s, BeginJob(w)); Hopeful(t, user) && t.core.stage[user].Enqueued()
  {
  }

  lemma BeginNearer(s: State, user: UserId, w: nat) returns (step: Step)
    requires OnItsWay(s, user) && s.core.stage[user] == Held(w)
    requires w < |s.core.workers| && s.core.workers[w] == Taken(user)
    ensures Nearer(s, step, user)
  {
    BeginHopes(s, user, w);
    NearerByLoop(s, BeginJob(w), user);
    step := InLoop(BeginJob(w));
  }

  lemma PostHopes(s: State, user: JobId, w: nat)
    requires LoopEnabled(s, PostJob(w)) && s.core.workers[w] == Posting(user)
    requires user in s.core.jobs && s.core.jobs[user].status.Completed?
    ensures var t := NextLoop(s, PostJob(w)); Hopeful(t, user) && t.core.stage[user].Enqueued()
  {
  }

  lemma PostNearer(s: State, user: UserId, w: nat) returns (step: Step)
    requires OnItsWay(s, user) && s.core.results == [] && s.core.stage[user] == Held(w)
    requires w < |s.core.workers| && s.core.workers[w] == Posting(user)
    ensures Nearer(s, step, user)
  {
    assert FieldsMatch(s.core, user);
    PostHopes(s, user, w);
    NearerByLoop(s, PostJob(w), user);
    step := InLoop(PostJob(w));
  }

  lemma HandNearer(s: State, user: UserId) returns (step: Step)
    requires OnItsWay(s, user) && s.core.results == [] && s.core.stage[user].Held?
    ensures Nearer(s, step, user)
  {
    var w := s.core.stage[user].worker;
    assert FieldsMatch(s.core, user);
    match s.core.workers[w] {
      case Taken(_) => step := BeginNearer(s, user, w);
      case Posting(_) => step := PostNearer(s, user, w);
      case Working(_) => step := WorkNearer(s, user, w);
    }
  }

  lemma QueueNearer(s: State, user: UserId) returns (step: Step)
    requires OnItsWay(s, user) && s.core.results == [] && s.core.stage[user].Queued?
    ensures Nearer(s, step, user)
  {
    assert user in s.core.queue;
    if BusyCount(s.core.workers) > 0 {
      var w := SomeoneBusy(s.core.workers);
      step := WorkerMoves(s, w);
      OthersMove(s, user, w, step);
    } else {
      NobodyBusy(s.core.workers);
      TakeHopes(s, user);
      NearerByLoop(s, TakeJob(0), user);
      step := InLoop(TakeJob(0));
    }
  }

  lemma TakeHopes(s: State, user: JobId)
    requires LoopEnabled(s, TakeJob(0)) && Hopeful(s, user) && s.core.stage[user].Queued? && 0 < |s.phases|
    ensures Near(NextLoop(s, TakeJob(0)), user)
  {
    if s.core.queue[0] != user { Untouched(s, NextLoop(s, TakeJob(0)), user); }
  }

  lemma OthersMove(s: State, user: UserId, w: nat, step: Step)
    requires OnItsWay(s, user) && s.core.stage[user].Queued? && Enabled(s, step)
    requires w < |s.core.workers| && s.core.workers[w].Busy()
    requires step.InJob? ==> step.w == w
    requires step.InJob? || (step.InLoop? && step.loop in {BeginJob(w), FinishJob(w), PostJob(w)})
    ensures Hopeful(Next(s, step), user) && Next(s, step).core.stage[user].Enqueued()
  {
    assert s.core.stage[s.core.workers[w].job] == Held(w);
    match step {
      case InJob(_, work) =>
        WorkFrame(s, w, work);
        Untouched(s, Next(s, step), user);
      case InLoop(loop) =>
        LoopCore(s, loop);
        Untouched(s, Next(s, step), user);
    }
  }

  lemma StepNearer(s: State, user: UserId) returns (step: Step)
    requires OnItsWay(s, user)
    ensures Nearer(s, step, user)
  {
    if s.core.collector.Delivering? {
      step := CollectNearer(s, user);
    } else if s.core.results != [] {
      step := ReceiveNearer(s, user);
    } else if s.core.stage[user].Held? {
      step := HandNearer(s, user);
    } else {
      assert !s.core.stage[user].Posted? && !s.core.stage[user].Delivered?;
      step := QueueNearer(s, user);
    }
  }

  // ---------------------------------------------------------------- all the way

  /** A run in which nobody calls the service. */
  ghost predicate Quiet(s: State, steps: seq<Step>) {
    IsRun(s, steps) && forall i :: 0 <= i < |steps| ==> !steps[i].Open?
  }

  lemma QuietCons(s: State, step: Step, rest: seq<Step>)
    requires Enabled(s, step) && !step.Open? && Quiet(Next(s, step), rest)
    ensures Quiet(s, [step] + rest) && After(s, [step] + rest) == After(Next(s, step), rest)
  {
    var steps := [step] + rest;
    assert steps[1..] == rest;
    forall i | 0 <= i < |steps| ensures !steps[i].Open? {
      if i > 0 { assert steps[i] == rest[i - 1]; }
    }
  }

  lemma {:induction false} QuietIsOrderly(s: State, steps: seq<Step>)
    requires Quiet(s, steps)
    ensures OrderlyRun(s, steps)
    decreases |steps|
  {
    if steps != [] {
      assert forall i :: 0 <= i < |steps[1..]| ==> steps[1..][i] == steps[i + 1];
      QuietIsOrderly(Next(s, steps[0]), steps[1..]);
    }
  }

  lemma ServingStep(s: State, step: Step)
    requires Serving(s) && System(step) && Enabled(s, step)
    ensures Serving(Next(s, step)) && UsersKept(s, Next(s, step)) && JobsKept(s.core, Next(s, step).core)
  {
    RegistersStep(s, step);
    SystemStep(s, step);
    JobsKeptAlong(s, step);
  }

  /** A sent job that can still complete can be brought to complete and be collected. */
  lemma Complete(s: State, user: UserId) returns (steps: seq<Step>)
    requires OnItsWay(s, user)
    ensures Quiet(s, steps) && user in After(s, steps).users && After(s, steps).users[user].status.Active?
    decreases Rank(s), Bytes(s)
  {
    var step := StepNearer(s, user);
    var t := Next(s, step);
    ServingStep(s, step);
    SystemStepsDescend(s, step);
    var rest := [];
    if !(user in t.users && t.users[user].status.Active?) { rest := Complete(t, user); }
    QuietCons(s, step, rest);
    steps := [step] + rest;
  }

  lemma QuietConcat(s: State, front: seq<Step>, back: seq<Step>)
    requires Quiet(s, front) && Quiet(After(s, front), back)
    ensures Quiet(s, front + back) && After(s, front + back) == After(After(s, front), back)
  {
    var steps := front + back;
    RunConcat(s, front, back);
    forall i | 0 <= i < |steps| ensures !steps[i].Open? {
      if i >= |front| { assert steps[i] == back[i - |front|]; }
    }
  }

  /** A waiting submitter can be given a place in the queue. */
  lemma GetQueued(s: State, user: UserId) returns (steps: seq<Step>)
    requires Serving(s) && IsGenerate(s, user) && WaitingIn(s, user)
    ensures Quiet(s, steps) && OnItsWay(After(s, steps), user) && After(s, steps).core.stage[user].Queued?
    decreases Rank(s), Bytes(s)
  {
    if |s.core.queue| < s.core.capacity {
      SendNow(s, user);
      QuietCons(s, InSubmit(user, Send), []);
      steps := [InSubmit(user, Send)] + [];
    } else {
      var step := FullMoves(s, user);
      SystemStepsDescend(s, step);
      var rest := GetQueued(Next(s, step), user);
      QuietCons(s, step, rest);
      steps := [step] + rest;
    }
  }

  /** With the queue full some loop can move, and the submitter goes on waiting. */
  lemma FullMoves(s: State, user: UserId) returns (step: Step)
    requires Serving(s) && IsGenerate(s, user) && WaitingIn(s, user) && |s.core.queue| >= s.core.capacity
    ensures System(step) && Enabled(s, step)
    ensures var t := Next(s, step); Serving(t) && IsGenerate(t, user) && WaitingIn(t, user)
  {
    assert |s.core.enqueued| > |s.core.collected|;
    WorkMeansProgress(s);
    step :| System(step) && Enabled(s, step);
    ServingStep(s, step);
    SystemKeepsWaiting(s, step, user);
  }

  lemma SystemKeepsWaiting(s: State, step: Step, id: JobId)
    requires Serving(s) && System(step) && Enabled(s, step) && WaitingIn(s, id)
    ensures WaitingIn(Next(s, step), id)
  {
    match step {
      case InJob(w, work) => WorkFrame(s, w, work);
      case InLoop(loop) =>
        LoopCore(s, loop);
        LoopsKeepWaiting(s.core, Inner(s, loop));
    }
  }

  lemma SendNow(s: State, user: UserId)
    requires Serving(s) && IsGenerate(s, user) && WaitingIn(s, user) && |s.core.queue| < s.core.capacity
    ensures Enabled(s, InSubmit(user, Send))
    ensures var t := Next(s, InSubmit(user, Send)); OnItsWay(t, user) && t.core.stage[user].Queued?
  {
    var send := InSubmit(user, Send);
    assert JobOk(s, user);
    assert Enabled(s, send);
    var t := Next(s, send);
    RegistersStep(s, send);
    SubmitFrame(s, user, Send);
    LoopsOpenAlong(s, send);
    assert t.core.stage[user].Queued? && t.core.jobs == s.core.jobs;
  }

  lemma RegisterNow(s: State, user: UserId) returns (step: Step)
    requires Serving(s) && 0 <= user < |s.ops| && s.ops[user].CreateSubmit? && user in s.users
    ensures !step.Open? && Enabled(s, step)
    ensures var t := Next(s, step); Serving(t) && IsGenerate(t, user) && WaitingIn(t, user)
  {
    step := InCreate(user, SubmitGenerate);
    assert CallOk(s, user, s.ops[user]);
    assert Enabled(s, step);
    var t := Next(s, step);
    RegistersStep(s, step);
    CreateCore(s, user, SubmitGenerate);
    CreateFrame(s, user, SubmitGenerate);
    LoopsOpenAlong(s, step);
    assert WaitingIn(t, user) && JobIs(t, user, GenerateCert) && t.core.jobs[user].user == user;
  }

  /** Whoever's creation is live can get its generate job sent, if it is not already, without a further call. */
  lemma LiveIsSent(s: State, user: UserId) returns (steps: seq<Step>)
    requires Serving(s) && user in s.users && Live(s, user)
    ensures Quiet(s, steps) && OnItsWay(After(s, steps), user)
    ensures steps == [] || After(s, steps).core.stage[user].Queued?
  {
    if s.ops[user].CreateSubmit? {
      var step := RegisterNow(s, user);
      var rest := GetQueued(Next(s, step), user);
      QuietCons(s, step, rest);
      steps := [step] + rest;
    } else {
      assert JobOk(s, user);
      steps := [];
      if s.core.stage[user].Waiting? { steps := GetQueued(s, user); }
    }
  }

  /** Whoever's creation is live can be made active without a further call. */
  lemma LiveActivates(s: State, user: UserId) returns (steps: seq<Step>)
    requires Serving(s) && user in s.users && Live(s, user)
    ensures Quiet(s, steps) && user in After(s, steps).users && After(s, steps).users[user].status.Active?
  {
    var front := LiveIsSent(s, user);
    var back := Complete(After(s, front), user);
    QuietConcat(s, front, back);
    steps := front + back;
  }

  /**
   A revoked user of a running service can lose that status, in some continuation, if and only if the user's
   creation is live: its generate job is not registered yet, or not yet collected and not failed.
   */
  lemma ReactivationIff(s: State, user: UserId)
    requires Reachable(s) && !s.core.closed && |s.core.workers| >= 1 && s.core.capacity >= 1
    requires user in s.users && s.users[user].status.Revoked?
    ensures (exists steps :: IsRun(s, steps)
                             && !(user in After(s, steps).users && After(s, steps).users[user].status.Revoked?))
            <==> Live(s, user)
  {
    ReachableOk(s);
    if Live(s, user) {
      var steps := LiveActivates(s, user);
      assert IsRun(s, steps) && !After(s, steps).users[user].status.Revoked?;
    } else {
      forall steps | IsRun(s, steps) ensures RevokedDead(After(s, steps), user) { DeadStaysRevoked(s, steps, user); }
    }
  }
}
