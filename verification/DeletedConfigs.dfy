/**
 When a config can still be cached or returned, a deleted user's in particular: DeleteUser drops the cached rows and
 its revoke job removes the file, but calls in flight may carry what they read before.
 */
module DeletedConfigs {
  import opened JobPipeline
  import opened PipelineFacts
  import opened CertService
  import opened ServiceInvariant
  import opened Registers
  import opened Statuses
  import opened Configs
  import opened OneWorker
  import opened Progress
  import opened Revocations
  import opened ServiceTheorems
  import opened Reactivation
  import opened CacheTheorems
  import opened WitnessRuns

  // ---------------------------------------------------------------- where a config can come from

  ghost predicate FileThere(s: State, user: UserId) {
    user in s.users && s.users[user].name in s.files
  }

  /** The user's creation can still complete, and has yet to create the config file. */
  ghost predicate MayRender(s: State, user: UserId) {
    Live(s, user) && !PastRender(s, user)
  }

  /** A call has read the user's config and has yet to look for a row, or to insert one. */
  predicate Carrying(op: Op, user: UserId) {
    (op.ConfigSelect? || op.ConfigInsert?) && op.user == user
  }

  ghost predicate Carried(s: State, user: UserId) {
    exists i :: 0 <= i < |s.ops| && Carrying(s.ops[i], user)
  }

  /** A call has read the user's config and found a row to put it into. */
  ghost predicate Overwriting(s: State, user: UserId) {
    exists i :: 0 <= i < |s.ops| && s.ops[i].ConfigUpdate? && s.ops[i].user == user
  }

  ghost predicate Storable(s: State, user: UserId) {
    HasRow(s, user) || Carried(s, user) || FileThere(s, user) || MayRender(s, user)
  }

  ghost predicate Servable(s: State, user: UserId) {
    Storable(s, user) || Overwriting(s, user)
  }

  /** The step is a call's last and returns a config of the user. */
  ghost predicate Serves(s: State, step: Step, user: UserId) {
    && Enabled(s, step) && step.InFetch? && step.i < |Next(s, step).ops|
    && var op := Next(s, step).ops[step.i];
       op.Returned? && op.reply.Config? && op.reply.user == user
  }

  /** In some continuation a config of the user is cached. */
  ghost predicate CanStore(s: State, user: UserId) {
    exists t :: Leads(s, t, false) && HasRow(t, user)
  }

  /** In some continuation a call returns a config of the user. */
  ghost predicate CanServe(s: State, user: UserId) {
    exists t, step :: Leads(s, t, false) && Serves(t, step, user)
  }

  // ---------------------------------------------------------------- nothing else brings one back

  lemma FetchTakes(s: State, i: nat, act: FetchStep, user: UserId)
    requires FetchEnabled(s, i, act) && CallOk(s, i, s.ops[i]) && |NextFetch(s, i, act).ops| == |s.ops|
    requires Carrying(NextFetch(s, i, act).ops[i], user)
    ensures Carrying(s.ops[i], user) || FileThere(s, user)
  {
    match act {
      case GetCached(_) => LooksOnly(s, i, act);
      case FindName(_) => LooksOnly(s, i, act);
      case ReadFile(_) => assert KnownAs(s, s.ops[i].user, s.ops[i].name);
      case _ => SavesOwn(s, i, act);
    }
  }

  lemma LooksOnly(s: State, i: nat, act: FetchStep)
    requires FetchEnabled(s, i, act) && |NextFetch(s, i, act).ops| == |s.ops| && (act.GetCached? || act.FindName?)
    ensures var op := NextFetch(s, i, act).ops[i]; op.Returned? || op.ConfigFind? || op.ConfigRead?
  {
  }

  lemma SavesOwn(s: State, i: nat, act: FetchStep)
    requires FetchEnabled(s, i, act) && |NextFetch(s, i, act).ops| == |s.ops|
    requires act.SelectRow? || act.UpdateRow? || act.InsertRow?
    ensures var op := NextFetch(s, i, act).ops[i];
            op.Returned? || ((op.ConfigUpdate? || op.ConfigInsert?) && Carrying(s.ops[i], op.user))
  {
  }

  lemma FetchOverwrites(s: State, i: nat, act: FetchStep, user: UserId)
    requires FetchEnabled(s, i, act) && |NextFetch(s, i, act).ops| == |s.ops|
    requires NextFetch(s, i, act).ops[i].ConfigUpdate? && NextFetch(s, i, act).ops[i].user == user
    ensures Carrying(s.ops[i], user)
  {
    match act {
      case GetCached(_) => LooksOnly(s, i, act);
      case FindName(_) => LooksOnly(s, i, act);
      case ReadFile(_) =>
      case _ => SavesOwn(s, i, act);
    }
  }

  /** The call stands between its read and its answer. */
  predicate Saving(op: Op) {
    op.ConfigSelect? || op.ConfigInsert? || op.ConfigUpdate?
  }

  lemma CreateSavesNothing(s: State, i: nat, act: CreateStep)
    requires CreateEnabled(s, i, act)
    ensures |NextCreate(s, i, act).ops| == |s.ops| && !Saving(NextCreate(s, i, act).ops[i])
  {
    match act {
      case CheckName(_) =>
      case InsertUser(_) =>
      case SubmitGenerate =>
    }
  }

  lemma DeleteSavesNothing(s: State, i: nat, act: DeleteStep)
    requires DeleteEnabled(s, i, act)
    ensures |NextDelete(s, i, act).ops| == |s.ops| && !Saving(NextDelete(s, i, act).ops[i])
  {
    match act {
      case FindUser(_) =>
      case SubmitRevoke =>
      case MarkRevoked(_) =>
      case DropCache(_) =>
    }
  }

  lemma SubmitSavesNothing(s: State, i: nat, act: SubmitStep)
    requires SubmitEnabled(s, i, act)
    ensures |NextSubmit(s, i, act).ops| == |s.ops| && !Saving(NextSubmit(s, i, act).ops[i])
  {
  }

  lemma OpenSavesNothing(s: State, call: Call)
    requires OpenEnabled(s, call) && |NextOpen(s, call).ops| == |s.ops| + 1
    ensures !Saving(NextOpen(s, call).ops[|s.ops|])
  {
  }

  /** A call that saves stood there before, or has made a statement of its own. */
  lemma OpBefore(s: State, step: Step, i: nat)
    requires Enabled(s, step) && i < |Next(s, step).ops| && Saving(Next(s, step).ops[i])
    ensures i < |s.ops| && |Next(s, step).ops| >= |s.ops|
    ensures Next(s, step).ops[i] == s.ops[i] || (step.InFetch? && step.i == i && |Next(s, step).ops| == |s.ops|)
  {
    match step {
      case Open(call) =>
        OpenFrame(s, call);
        OpenSavesNothing(s, call);
        if i < |s.ops| { assert NextOpen(s, call).ops[i] == NextOpen(s, call).ops[..|s.ops|][i]; }
      case InCreate(k, act) =>
        CreateFrame(s, k, act);
        CreateSavesNothing(s, k, act);
      case InDelete(k, act) =>
        DeleteFrame(s, k, act);
        DeleteSavesNothing(s, k, act);
      case InSubmit(k, act) =>
        SubmitFrame(s, k, act);
        SubmitSavesNothing(s, k, act);
      case InFetch(k, act) => FetchFrame(s, k, act);
      case InJob(w, work) => WorkFrame(s, w, work);
      case InLoop(loop) => LoopFrame(s, loop);
    }
  }

  lemma CarriedBefore(s: State, step: Step, user: UserId)
    requires RegistersOk(s) && Enabled(s, step) && Carried(Next(s, step), user)
    ensures Carried(s, user) || FileThere(s, user)
  {
    var i: nat :| i < |Next(s, step).ops| && Carrying(Next(s, step).ops[i], user);
    OpBefore(s, step, i);
    assert CallOk(s, i, s.ops[i]);
    if Next(s, step).ops[i] != s.ops[i] { FetchTakes(s, i, step.fetch, user); }
  }

  lemma OverwritingBefore(s: State, step: Step, user: UserId)
    requires Enabled(s, step) && Overwriting(Next(s, step), user)
    ensures Overwriting(s, user) || Carried(s, user)
  {
    var i: nat :| i < |Next(s, step).ops| && Next(s, step).ops[i].ConfigUpdate? && Next(s, step).ops[i].user == user;
    OpBefore(s, step, i);
    if Next(s, step).ops[i] != s.ops[i] { FetchOverwrites(s, i, step.fetch, user); }
  }

  /** Whoever creates the config file of the user's name is the user's own live creation. */
  lemma RendersOwn(s: State, w: nat, work: WorkStep, user: UserId)
    requires RegistersOk(s) && WorkEnabled(s, w, work) && work.Render?
    requires user in s.users && s.users[user].name == JobOf(s, w).name
    ensures MayRender(s, user)
  {
    var id := s.core.workers[w].job;
    assert JobOk(s, id) && PhaseFits(s.core.jobs[id].kind, s.phases[w]);
    assert s.core.stage[id] == Held(w) && id == user;
  }

  lemma WorkFileBefore(s: State, w: nat, work: WorkStep, user: UserId)
    requires RegistersOk(s) && WorkEnabled(s, w, work) && user in s.users
    requires s.users[user].name in NextWork(s, w, work).files
    ensures FileThere(s, user) || MayRender(s, user)
  {
    var name := s.users[user].name;
    if name == JobOf(s, w).name && work.Render? {
      RendersOwn(s, w, work, user);
    } else if name != JobOf(s, w).name || !work.Append? {
      FileUntouched(s, w, work, name);
    }
  }

  lemma FileBefore(s: State, step: Step, user: UserId)
    requires RegistersOk(s) && Enabled(s, step) && user in s.users && FileThere(Next(s, step), user)
    ensures FileThere(s, user) || MayRender(s, user)
  {
    RegistersStep(s, step);
    match step {
      case Open(call) => OpenFrame(s, call);
      case InCreate(i, act) => CreateFrame(s, i, act);
      case InDelete(i, act) => DeleteFrame(s, i, act);
      case InSubmit(i, act) => SubmitFrame(s, i, act);
      case InFetch(i, act) => FetchFrame(s, i, act);
      case InJob(w, work) => WorkFileBefore(s, w, work, user);
      case InLoop(loop) => LoopFrame(s, loop);
    }
  }

  lemma MayRenderBefore(s: State, step: Step, user: UserId)
    requires RegistersOk(s) && Enabled(s, step) && user in s.users && MayRender(Next(s, step), user)
    ensures MayRender(s, user)
  {
    LiveBefore(s, step, user);
    if PastRender(s, user) { PastRenderStays(s, step, user); }
  }

  lemma HasRowBefore(s: State, step: Step, user: UserId)
    requires Enabled(s, step) && HasRow(Next(s, step), user)
    ensures HasRow(s, user) || Carried(s, user)
  {
    var r :| r in Next(s, step).cache && Next(s, step).cache[r].user == user;
    RowBefore(s, step, r);
    if !HasRow(s, user) { assert Carrying(s.ops[r], user); }
  }

  lemma StorableBefore(s: State, step: Step, user: UserId)
    requires RegistersOk(s) && Enabled(s, step) && user in s.users
    ensures Storable(Next(s, step), user) ==> Storable(s, user)
    ensures Servable(Next(s, step), user) ==> Servable(s, user)
  {
    var t := Next(s, step);
    if HasRow(t, user) { HasRowBefore(s, step, user); }
    if Carried(t, user) { CarriedBefore(s, step, user); }
    if FileThere(t, user) { FileBefore(s, step, user); }
    if MayRender(t, user) { MayRenderBefore(s, step, user); }
    if Overwriting(t, user) { OverwritingBefore(s, step, user); }
  }

  /** Along every run, what can no longer be stored or served stays so. */
  lemma {:induction false} StorableAlong(s: State, steps: seq<Step>, user: UserId)
    requires RegistersOk(s) && IsRun(s, steps) && user in s.users
    ensures Storable(After(s, steps), user) ==> Storable(s, user)
    ensures Servable(After(s, steps), user) ==> Servable(s, user)
    decreases |steps|
  {
    if steps != [] {
      RegistersStep(s, steps[0]);
      StorableBefore(s, steps[0], user);
      StorableAlong(Next(s, steps[0]), steps[1..], user);
    }
  }

  lemma ServesFrom(s: State, step: Step, user: UserId)
    requires Serves(s, step, user)
    ensures Servable(s, user)
  {
    var i := step.i;
    match step.fetch {
      case GetCached(hit) => if hit.Found? { assert s.cache[hit.row].user == user; }
      case FindName(_) =>
      case ReadFile(_) =>
      case SelectRow(_) => assert Carrying(s.ops[i], user);
      case UpdateRow(_) => assert s.ops[i].ConfigUpdate? && s.ops[i].user == user;
      case InsertRow(_) => assert Carrying(s.ops[i], user);
    }
  }

  lemma OnlyStorable(s: State, user: UserId)
    requires RegistersOk(s) && user in s.users
    ensures CanStore(s, user) ==> Storable(s, user)
    ensures CanServe(s, user) ==> Servable(s, user)
  {
    forall t | Leads(s, t, false) && HasRow(t, user) ensures Storable(s, user) {
      var steps :| IsRun(s, steps) && After(s, steps) == t;
      StorableAlong(s, steps, user);
    }
    forall t, step | Leads(s, t, false) && Serves(t, step, user) ensures Servable(s, user) {
      var steps :| IsRun(s, steps) && After(s, steps) == t;
      ServesFrom(t, step, user);
      StorableAlong(s, steps, user);
    }
  }

  // ---------------------------------------------------------------- each of them does

  lemma RowIsServed(s: State, t: State, user: UserId)
    requires Leads(s, t, false) && HasRow(t, user)
    ensures CanStore(s, user) && CanServe(s, user)
  {
    var r :| r in t.cache && t.cache[r].user == user;
    var u := Go(s, t, false, Open(GetUserConfig(user)));
    var step := InFetch(|t.ops|, GetCached(Found(r)));
    assert u.ops[|t.ops|] == ConfigCached(user) && u.cache == t.cache;
    assert Serves(u, step, user);
  }

  lemma OverwritingIsServed(s: State, user: UserId)
    requires Overwriting(s, user)
    ensures CanServe(s, user)
  {
    var i: nat :| i < |s.ops| && s.ops[i].ConfigUpdate? && s.ops[i].user == user;
    Here(s, false);
    assert Serves(s, InFetch(i, UpdateRow(true)), user);
  }

  lemma InsertStores(s: State, t: State, i: nat, user: UserId)
    requires Leads(s, t, false) && i < |t.ops| && t.ops[i].ConfigInsert? && t.ops[i].user == user
    ensures CanStore(s, user) && CanServe(s, user)
  {
    var u := Go(s, t, false, InFetch(i, InsertRow(false)));
    assert u.cache[i].user == user;
    RowIsServed(s, u, user);
  }

  lemma CarriedIsServed(s: State, t: State, user: UserId)
    requires Leads(s, t, false) && Carried(t, user)
    ensures CanStore(s, user) && CanServe(s, user)
  {
    var i: nat :| i < |t.ops| && Carrying(t.ops[i], user);
    if HasRow(t, user) {
      RowIsServed(s, t, user);
    } else if t.ops[i].ConfigInsert? {
      InsertStores(s, t, i, user);
    } else {
      var u := Go(s, t, false, InFetch(i, SelectRow(NoRow)));
      InsertStores(s, u, i, user);
    }
  }

  lemma FileIsServed(s: State, t: State, user: UserId)
    requires Leads(s, t, false) && FileThere(t, user)
    ensures CanStore(s, user) && CanServe(s, user)
  {
    if HasRow(t, user) {
      RowIsServed(s, t, user);
    } else {
      var u := ReadRun(s, t, false, user);
      assert Carrying(u.ops[|t.ops|], user);
      CarriedIsServed(s, u, user);
    }
  }

  /** What the worker that has the job in hand, if any, still has to do before the job creates its file. */
  lemma BeforeRender(s: State, user: JobId)
    requires RegistersOk(s) && Hopeful(s, user) && !PastRender(s, user)
    ensures s.core.stage[user].Waiting? || s.core.stage[user].Queued? || s.core.stage[user].Held?
    ensures s.core.stage[user].Held? ==>
              var w := s.core.stage[user].worker;
              && w < |s.core.workers| && w < |s.phases|
              && (s.core.workers[w] == Taken(user)
                  || (s.core.workers[w] == Working(user) && (s.phases[w].Issuing? || s.phases[w].Rendering?)))
  {
    assert FieldsMatch(s.core, user);
  }

  lemma TakeStaysBefore(s: State, w: nat, user: JobId)
    requires LoopEnabled(s, TakeJob(w)) && user in s.core.stage && !PastRender(s, user)
    ensures !PastRender(NextLoop(s, TakeJob(w)), user)
  {
  }

  lemma BeginStaysBefore(s: State, w: nat, user: JobId)
    requires LoopEnabled(s, BeginJob(w)) && user in s.core.stage && !PastRender(s, user)
    requires s.core.workers[w].job == user ==> user in s.core.jobs && s.core.jobs[user].kind.GenerateCert?
    requires s.core.stage[user] == Held(w) ==> s.core.workers[w].job == user
    ensures !PastRender(NextLoop(s, BeginJob(w)), user)
  {
  }

  lemma FinishStaysBefore(s: State, w: nat, user: JobId)
    requires LoopEnabled(s, FinishJob(w)) && user in s.core.stage && !PastRender(s, user)
    requires s.core.workers[w].job in s.core.stage && s.core.stage[s.core.workers[w].job] == Held(w)
    ensures !PastRender(NextLoop(s, FinishJob(w)), user)
  {
  }

  lemma PostStaysBefore(s: State, w: nat, user: JobId)
    requires LoopEnabled(s, PostJob(w)) && user in s.core.stage && !PastRender(s, user) && w < |s.phases|
    requires s.core.workers[w].job in s.core.stage && s.core.stage[s.core.workers[w].job] == Held(w)
    ensures !PastRender(NextLoop(s, PostJob(w)), user)
  {
  }

  lemma LeaveStaysBefore(s: State, loop: LoopStep, user: JobId)
    requires LoopEnabled(s, loop) && user in s.core.stage && !PastRender(s, user)
    requires loop.LeaveWorker? || loop.CollectResult? || loop.LeaveCollector? || loop.Shutdown?
    requires loop.CollectResult? ==> user != s.core.collector.job
    ensures !PastRender(NextLoop(s, loop), user)
  {
    LoopFrame(s, loop);
    LoopCore(s, loop);
  }

  lemma ReceiveStaysBefore(s: State, user: JobId)
    requires LoopEnabled(s, ReceiveResult) && user in s.core.stage && !PastRender(s, user)
    requires user != s.core.results[0]
    ensures !PastRender(NextLoop(s, ReceiveResult), user)
  {
  }

  /** No loop action takes a job past the creation of its file. */
  lemma LoopStaysBefore(s: State, loop: LoopStep, user: UserId)
    requires Serving(s) && LoopEnabled(s, loop) && IsGenerate(s, user) && Hopeful(s, user) && !PastRender(s, user)
    ensures !PastRender(NextLoop(s, loop), user)
  {
    BeforeRender(s, user);
    match loop {
      case TakeJob(w) => TakeStaysBefore(s, w, user);
      case BeginJob(w) => BeginStaysBefore(s, w, user);
      case FinishJob(w) =>
        assert s.core.workers[w].Busy();
        FinishStaysBefore(s, w, user);
      case PostJob(w) =>
        assert s.core.workers[w].Busy();
        PostStaysBefore(s, w, user);
      case ReceiveResult =>
        assert s.core.results[0] in s.core.results;
        ReceiveStaysBefore(s, user);
      case _ => LeaveStaysBefore(s, loop, user);
    }
  }

  /** A statement inside the job that takes it past that point and leaves it hopeful has created the file. */
  lemma WorkRenders(s: State, w: nat, work: WorkStep, user: UserId)
    requires Serving(s) && WorkEnabled(s, w, work) && IsGenerate(s, user) && Hopeful(s, user) && !PastRender(s, user)
    requires PastRender(NextWork(s, w, work), user) && Hopeful(NextWork(s, w, work), user)
    ensures FileThere(NextWork(s, w, work), user)
  {
    WorkFrame(s, w, work);
    RegistersStep(s, InJob(w, work));
    assert FieldsMatch(s.core, user) && JobOk(s, user) && KnownAs(s, user, s.core.jobs[user].name);
    assert s.core.stage[user] == Held(w);
    assert work.Issue? || work.Render?;
  }

  /** On its way to the collector the job creates the file before anything else can be seen of it. */
  lemma NearerRenders(s: State, step: Step, user: UserId)
    requires Serving(s) && StatusesOk(s) && OnItsWay(s, user) && !PastRender(s, user) && Nearer(s, step, user)
    ensures var t := Next(s, step);
            FileThere(t, user) || (Hopeful(t, user) && t.core.stage[user].Enqueued() && !PastRender(t, user))
  {
    var t := Next(s, step);
    StatusesStep(s, step);
    assert user in t.users && t.users[user].status.Active? ==> Justified(t, user, t.users[user].status);
    match step {
      case InJob(w, work) =>
        WorkFrame(s, w, work);
        if PastRender(t, user) && Hopeful(t, user) { WorkRenders(s, w, work, user); }
      case InLoop(loop) => LoopStaysBefore(s, loop, user);
    }
  }

  ghost predicate ToRender(s: State, user: UserId) {
    ServiceOk(s) && OnItsWay(s, user) && !PastRender(s, user)
  }

  lemma RenderStep(s: State, user: UserId) returns (step: Step)
    requires ToRender(s, user)
    ensures System(step) && Enabled(s, step)
    ensures FileThere(Next(s, step), user) || ToRender(Next(s, step), user)
  {
    step := StepNearer(s, user);
    ServiceStep(s, step);
    ServingStep(s, step);
    NearerRenders(s, step, user);
  }

  /** A sent job that has not created its file yet can be brought to do so. */
  lemma ReachFile(s: State, user: UserId) returns (steps: seq<Step>)
    requires ToRender(s, user)
    ensures Quiet(s, steps) && FileThere(After(s, steps), user)
    decreases Rank(s), Bytes(s)
  {
    var step := RenderStep(s, user);
    SystemStepsDescend(s, step);
    var rest := [];
    if !FileThere(Next(s, step), user) { rest := ReachFile(Next(s, step), user); }
    QuietCons(s, step, rest);
    steps := [step] + rest;
  }

  lemma RenderIsServed(s: State, user: UserId)
    requires ServiceOk(s) && Serving(s) && user in s.users && MayRender(s, user)
    ensures CanStore(s, user) && CanServe(s, user)
  {
    var front := LiveIsSent(s, user);
    var t := After(s, front);
    RunKeeps(s, front);
    var back := ReachFile(t, user);
    Here(s, false);
    GoOn(s, s, false, front);
    GoOn(s, t, false, back);
    FileIsServed(s, After(t, back), user);
  }

  // ---------------------------------------------------------------- when exactly

  /** The loops run on: before a shutdown, with a worker and a place in each channel. */
  predicate Running(c: Core) {
    !c.closed && |c.workers| >= 1 && c.capacity >= 1
  }

  lemma EachIsServed(s: State, user: UserId)
    requires ServiceOk(s) && user in s.users && (MayRender(s, user) ==> Running(s.core))
    ensures Storable(s, user) ==> CanStore(s, user)
    ensures Servable(s, user) ==> CanServe(s, user)
  {
    Here(s, false);
    if HasRow(s, user) {
      RowIsServed(s, s, user);
    } else if Carried(s, user) {
      CarriedIsServed(s, s, user);
    } else if FileThere(s, user) {
      FileIsServed(s, s, user);
    } else if MayRender(s, user) {
      RenderIsServed(s, user);
    } else if Overwriting(s, user) {
      OverwritingIsServed(s, user);
    }
  }

  /**
   A config of a known user can still be cached if and only if a row is, a call carries one to its look-up or
   insertion, the file exists, or the user's creation can still write it; it can still be returned if and only if
   so or a call is about to overwrite a row. That a live creation is enough takes running loops.
   */
  lemma ConfigLastsIff(s: State, user: UserId)
    requires Reachable(s) && user in s.users
    ensures CanStore(s, user) ==> Storable(s, user)
    ensures CanServe(s, user) ==> Servable(s, user)
    ensures (MayRender(s, user) ==> Running(s.core)) ==>
              (CanStore(s, user) <==> Storable(s, user)) && (CanServe(s, user) <==> Servable(s, user))
  {
    ReachableOk(s);
    OnlyStorable(s, user);
    if MayRender(s, user) ==> Running(s.core) { EachIsServed(s, user); }
  }

  /**
   With one worker and deletions after creation, for a user whose revocation was collected: the creation is no
   source any more, whatever else happens. If the rows were dropped and the file removed, calls in flight are all.
   */
  lemma DeletedConfigIff(capacity: nat, steps: seq<Step>, user: UserId)
    requires OrderlyRun(Boot(1, capacity), steps) && user in OrderlyAfter(Boot(1, capacity), steps).landed
    ensures var s := OrderlyAfter(Boot(1, capacity), steps);
            && user in s.users
            && (CanStore(s, user) <==> HasRow(s, user) || Carried(s, user) || FileThere(s, user))
            && (CanServe(s, user) <==>
                HasRow(s, user) || Carried(s, user) || FileThere(s, user) || Overwriting(s, user))
  {
    var b, s := Boot(1, capacity), OrderlyAfter(Boot(1, capacity), steps);
    BootOk(1, capacity);
    OneWorkerBoot(capacity);
    OrderlyRunIsRun(b, steps);
    OrderlyRunKeeps(b, steps);
    assert Final(s, user);
    FinalIsDead(s, user);
    ConfigLastsIff(s, user);
  }

  // ---------------------------------------------------------------- a call that outlives the deletion

  /** A user is created, and the worker writes the config and sees the job collected. */
  lemma CreatedRun(workers: nat, capacity: nat) returns (b: State, s: State)
    requires workers >= 1 && capacity >= 1
    ensures b == Boot(workers, capacity) && Leads(b, s, true)
    ensures s.ops == [Returned(Created)] && s.users == map[0 := User("alice", Active, "")]
    ensures "alice" in s.files && s.files["alice"] == "x" && s.cache == map[] && s.landed == {}
    ensures s.core.jobs.Keys == {0} && s.core.queue == [] && s.core.results == [] && s.core.collector.Ready?
    ensures s.core.workers == b.core.workers && s.core.capacity == capacity && s.phases == b.phases
  {
    b, s := CreatedAndIssued(workers, capacity);
    s := CollectRun(b, s, true, 0, 0);
    assert b.core.workers[0 := Posting(0)][0 := Idle] == b.core.workers;
  }

  /** A GetUserConfig call reads the file; then the user is deleted and the revocation collected. */
  lemma ReadThenDeleted(workers: nat, capacity: nat) returns (b: State, s: State)
    requires workers >= 1 && capacity >= 1
    ensures b == Boot(workers, capacity) && Leads(b, s, true)
    ensures s.ops == [Returned(Created), ConfigSelect(0, Copy("x", false)), DeleteMark(0)]
    ensures s.users == map[0 := User("alice", Revoked, "")] && 0 in s.landed
    ensures "alice" !in s.files && s.cache == map[]
  {
    b, s := CreatedRun(workers, capacity);
    assert !Unfinished(s, 0) by {
      assert forall w :: 0 <= w < |s.phases| ==> s.phases[w] == Resting;
    }
    s := ReadRun(b, s, true, 0);
    assert s.ops == [Returned(Created), ConfigSelect(0, Copy("x", false))];
    s := DeleteRun(b, s, true, 0);
    assert s.core.queue == [2] && s.ops == [Returned(Created), ConfigSelect(0, Copy("x", false)), DeleteMark(0)];
    s := RevokeRun(b, s, true, 0, 2);
    s := CollectRun(b, s, true, 0, 2);
  }

  /** DeleteUser marks the user, drops the cached rows and returns. */
  lemma DeletedRun(b: State, s: State, orderly: bool, i: nat, user: UserId) returns (t: State)
    requires Leads(b, s, orderly) && i < |s.ops| && s.ops[i] == DeleteMark(user)
    ensures Leads(b, t, orderly)
    ensures t == s.(ops := s.ops[i := Returned(Deleted)], users := SetStatus(s.users, user, Revoked),
                    cache := map r | r in s.cache && s.cache[r].user != user :: s.cache[r])
  {
    t := Go(b, s, orderly, InDelete(i, MarkRevoked(false)));
    t := Go(b, t, orderly, InDelete(i, DropCache(false)));
    assert s.ops[i := DeleteDrop(user)][i := Returned(Deleted)] == s.ops[i := Returned(Deleted)];
  }

  /**
   In every service that does any work, with orderly deletions: DeleteUser has returned, the revocation is
   collected, the file gone and no row left; then the call that had read the file stores it, and a call made after
   all of that returns the revoked user's config.
   */
  lemma DeletedUserIsServed(workers: nat, capacity: nat) returns (s: State, t: State)
    requires workers >= 1 && capacity >= 1
    ensures Leads(Boot(workers, capacity), s, true) && 0 in s.landed && !FileThere(s, 0) && !HasRow(s, 0)
    ensures |s.ops| == 3 && s.ops[2] == Returned(Deleted)
    ensures Leads(s, t, true) && 0 in t.users && t.users[0].status.Revoked?
    ensures |t.ops| == 4 && t.ops[3] == Returned(Config(0, Copy("x", false)))
  {
    var b, c := Boot(workers, capacity), Copy("x", false);
    b, s := ReadThenDeleted(workers, capacity);
    s := DeletedRun(b, s, true, 2, 0);
    assert s.ops == [Returned(Created), ConfigSelect(0, c), Returned(Deleted)] && s.cache == map[];
    Here(s, true);
    t := Go(s, s, true, InFetch(1, SelectRow(NoRow)));
    t := Go(s, t, true, InFetch(1, InsertRow(false)));
    assert t.cache == map[1 := CacheRow(0, c)] && |t.ops| == 3;
    t := Go(s, t, true, Open(GetUserConfig(0)));
    assert t.ops[3] == ConfigCached(0) && t.cache[1].copy == c;
    t := Go(s, t, true, InFetch(3, GetCached(Found(1))));
  }
}
