/** The calls, the user table and the jobs agree: names, owners and who is waiting for what. */
module Registers {
  import opened JobPipeline
  import opened CertService
  import opened ServiceInvariant

  /** A call that has not registered its job yet. */
  predicate BeforeSubmit(op: Op) {
    op.CreateCheck? || op.CreateInsert? || op.CreateSubmit? || op.DeleteFind? || op.DeleteSubmit?
  }

  ghost predicate KnownAs(s: State, user: UserId, name: string) {
    user in s.users && s.users[user].name == name
  }

  ghost predicate WaitingIn(s: State, id: JobId) {
    id in s.core.stage && s.core.stage[id].Waiting?
  }

  ghost predicate JobIs(s: State, id: JobId, kind: JobKind) {
    id in s.core.jobs && s.core.jobs[id].kind == kind
  }

  /** What holds of a call wherever it stands. */
  ghost predicate CallOk(s: State, i: nat, op: Op) {
    && (BeforeSubmit(op) ==> i !in s.core.jobs)
    && (Submitting(op) ==> WaitingIn(s, i))
    && (op.CreateCheck? || op.CreateInsert? ==> i !in s.users)
    && (match op
        case CreateSubmit(name) => KnownAs(s, i, name)
        case CreateWait => JobIs(s, i, GenerateCert)
        case DeleteSubmit(user, name) => KnownAs(s, user, name)
        case DeleteWait(user) => JobIs(s, i, RevokeCert) && s.core.jobs[i].user == user
        case RenewWait => JobIs(s, i, RenewCert)
        case ConfigRead(user, name) => KnownAs(s, user, name)
        case _ => true)
  }

  ghost predicate CallsOk(s: State) {
    forall i: nat :: i < |s.ops| ==> CallOk(s, i, s.ops[i])
  }

  /** A generate job belongs to the user its call created; generate and revoke jobs carry the user's name. */
  ghost predicate JobOk(s: State, id: JobId)
    requires id in s.core.jobs
  {
    var j := s.core.jobs[id];
    && id < |s.ops|
    && (!j.kind.RenewCert? ==> KnownAs(s, j.user, j.name))
    && (j.kind.GenerateCert? ==> j.user == id)
    && (WaitingIn(s, id) ==> Submitting(s.ops[id]))
  }

  ghost predicate JobsOk(s: State) {
    forall id :: id in s.core.jobs ==> JobOk(s, id)
  }

  ghost predicate UsersOk(s: State) {
    && (forall u :: u in s.users ==> 0 <= u < |s.ops|)
    && (forall u, v :: u in s.users && v in s.users && s.users[u].name == s.users[v].name ==> u == v)
  }

  /** The row a worker carries between its read and its write bears the name in the table. */
  ghost predicate CarriedOk(s: State) {
    forall w: nat :: w < |s.phases| && InPhase(s, w) && s.phases[w].Storing? ==>
      KnownAs(s, JobOf(s, w).user, s.phases[w].row.name)
  }

  ghost predicate RegistersOk(s: State) {
    PipelineOk(s) && PhasesOk(s) && CallsOk(s) && JobsOk(s) && UsersOk(s) && CarriedOk(s)
  }

  // ---------------------------------------------------------------- stability

  ghost predicate UsersKept(s: State, t: State) {
    forall u :: u in s.users ==> u in t.users && t.users[u].name == s.users[u].name
  }

  /** Everything a fact about one call or job rests on only grows. */
  ghost predicate Grows(s: State, t: State) {
    JobsKept(s.core, t.core) && UsersKept(s, t) && |s.ops| <= |t.ops|
  }

  lemma CallStable(s: State, t: State, i: nat, op: Op)
    requires CallOk(s, i, op) && Grows(s, t)
    requires i in t.core.jobs ==> i in s.core.jobs
    requires i in t.users ==> i in s.users || !(op.CreateCheck? || op.CreateInsert?)
    requires WaitingIn(s, i) ==> WaitingIn(t, i) || !Submitting(op)
    ensures CallOk(t, i, op)
  {
    match op
    case CreateSubmit(name) => assert KnownAs(s, i, name);
    case DeleteSubmit(user, name) => assert KnownAs(s, user, name);
    case ConfigRead(user, name) => assert KnownAs(s, user, name);
    case _ =>
  }

  lemma JobStable(s: State, t: State, id: JobId)
    requires id in s.core.jobs && JobOk(s, id) && Grows(s, t)
    requires WaitingIn(t, id) ==> WaitingIn(s, id) && Submitting(t.ops[id])
    ensures JobOk(t, id)
  {
    var j := s.core.jobs[id];
    assert !j.kind.RenewCert? ==> KnownAs(s, j.user, j.name);
  }

  /** Between `s` and `t` only call `i`, its job and its user moved. */
  ghost predicate OnlyMoved(s: State, t: State, i: nat) {
    && i < |s.ops| && |t.ops| == |s.ops| && t.ops == s.ops[i := t.ops[i]]
    && (forall id :: id in t.core.jobs ==> id in s.core.jobs || id == i)
    && (forall u :: u in t.users ==> u in s.users || u == i)
    && (forall id: nat :: id != i ==> (WaitingIn(s, id) <==> WaitingIn(t, id)))
  }

  lemma CallMoved(s: State, t: State, i: nat)
    requires CallsOk(s) && JobsOk(s) && Grows(s, t) && OnlyMoved(s, t, i)
    requires CallOk(t, i, t.ops[i])
    requires i in t.core.jobs ==> JobOk(t, i)
    ensures CallsOk(t) && JobsOk(t)
  {
    forall k: nat | k < |t.ops| ensures CallOk(t, k, t.ops[k]) {
      if k != i {
        assert t.ops[k] == s.ops[k];
        CallStable(s, t, k, s.ops[k]);
      }
    }
    forall id | id in t.core.jobs ensures JobOk(t, id) {
      if id != i {
        assert JobOk(s, id);
        assert t.ops[id] == s.ops[id];
        JobStable(s, t, id);
      }
    }
  }

  // ---------------------------------------------------------------- one group of steps at a time

  lemma OpenRegisters(s: State, call: Call)
    requires RegistersOk(s) && OpenEnabled(s, call)
    ensures var t := NextOpen(s, call); CallsOk(t) && JobsOk(t) && UsersOk(t)
  {
    var t := NextOpen(s, call);
    OpenFrame(s, call);
    JobsKeptAlong(s, Open(call));
    forall i: nat | i < |t.ops| ensures CallOk(t, i, t.ops[i]) {
      if i < |s.ops| {
        assert t.ops[i] == t.ops[..|s.ops|][i];
        CallStable(s, t, i, s.ops[i]);
      }
    }
    forall id | id in t.core.jobs ensures JobOk(t, id) {
      if id in s.core.jobs {
        assert JobOk(s, id);
        assert t.ops[id] == t.ops[..|s.ops|][id];
        JobStable(s, t, id);
      }
    }
  }

  lemma CreateUsers(s: State, i: nat, act: CreateStep)
    requires CreateEnabled(s, i, act) && UsersOk(s) && CallOk(s, i, s.ops[i])
    ensures UsersOk(NextCreate(s, i, act)) && UsersKept(s, NextCreate(s, i, act))
    ensures OnlyMoved(s, NextCreate(s, i, act), i)
  {
    match act {
      case InsertUser(_) => CreateInserts(s, i, act);
      case _ =>
    }
  }

  lemma CreateInserts(s: State, i: nat, act: CreateStep)
    requires act.InsertUser? && CreateEnabled(s, i, act) && UsersOk(s) && i !in s.users
    ensures UsersOk(NextCreate(s, i, act)) && UsersKept(s, NextCreate(s, i, act))
    ensures OnlyMoved(s, NextCreate(s, i, act), i)
  {
    var t, name := NextCreate(s, i, act), s.ops[i].name;
    assert t.users == s.users || (!NameTaken(s, name) && t.users == s.users[i := User(name, Inactive, "")]);
  }

  lemma CreateMoved(s: State, i: nat, act: CreateStep)
    requires CreateEnabled(s, i, act) && CallOk(s, i, s.ops[i]) && |NextCreate(s, i, act).ops| == |s.ops|
    ensures CallOk(NextCreate(s, i, act), i, NextCreate(s, i, act).ops[i])
  {
    match act {
      case SubmitGenerate => CreateSubmits(s, i);
      case _ => CreateChecks(s, i, act);
    }
  }

  lemma CreateSubmits(s: State, i: nat)
    requires CreateEnabled(s, i, SubmitGenerate)
    ensures CallOk(NextCreate(s, i, SubmitGenerate), i, NextCreate(s, i, SubmitGenerate).ops[i])
  {
    var t := NextCreate(s, i, SubmitGenerate);
    assert t.ops[i] == CreateWait && WaitingIn(t, i) && JobIs(t, i, GenerateCert);
  }

  lemma CreateChecks(s: State, i: nat, act: CreateStep)
    requires !act.SubmitGenerate? && CreateEnabled(s, i, act) && CallOk(s, i, s.ops[i])
    ensures CallOk(NextCreate(s, i, act), i, NextCreate(s, i, act).ops[i])
  {
    var t, name := NextCreate(s, i, act), s.ops[i].name;
    assert t.core == s.core;
    assert t.ops[i].Returned? || (t.ops[i] == CreateInsert(name) && t.users == s.users)
           || (t.ops[i] == CreateSubmit(name) && KnownAs(t, i, name));
  }

  lemma CreateJob(s: State, i: nat, act: CreateStep)
    requires CreateEnabled(s, i, act) && CallOk(s, i, s.ops[i]) && UsersKept(s, NextCreate(s, i, act))
    requires |NextCreate(s, i, act).ops| == |s.ops| && i in NextCreate(s, i, act).core.jobs
    ensures JobOk(NextCreate(s, i, act), i)
  {
    assert act.SubmitGenerate?;
    assert KnownAs(s, i, s.ops[i].name);
  }

  lemma CreateRegisters(s: State, i: nat, act: CreateStep)
    requires RegistersOk(s) && CreateEnabled(s, i, act)
    ensures var t := NextCreate(s, i, act); CallsOk(t) && JobsOk(t) && UsersOk(t) && UsersKept(s, t)
  {
    var t := NextCreate(s, i, act);
    assert CallOk(s, i, s.ops[i]);
    CreateUsers(s, i, act);
    JobsKeptAlong(s, InCreate(i, act));
    CreateMoved(s, i, act);
    if i in t.core.jobs { CreateJob(s, i, act); }
    CallMoved(s, t, i);
  }

  lemma DeleteUsers(s: State, i: nat, act: DeleteStep)
    requires DeleteEnabled(s, i, act) && UsersOk(s)
    ensures UsersOk(NextDelete(s, i, act)) && UsersKept(s, NextDelete(s, i, act))
    ensures OnlyMoved(s, NextDelete(s, i, act), i)
  {
    match act {
      case FindUser(_) =>
      case SubmitRevoke =>
      case MarkRevoked(_) =>
      case DropCache(_) =>
    }
  }

  lemma DeleteMoved(s: State, i: nat, act: DeleteStep)
    requires DeleteEnabled(s, i, act) && CallOk(s, i, s.ops[i]) && |NextDelete(s, i, act).ops| == |s.ops|
    ensures CallOk(NextDelete(s, i, act), i, NextDelete(s, i, act).ops[i])
  {
    if act.SubmitRevoke? {
      DeleteSubmits(s, i);
    } else {
      DeleteOthersMoved(s, i, act);
    }
  }

  lemma DeleteSubmits(s: State, i: nat)
    requires DeleteEnabled(s, i, SubmitRevoke) && |NextDelete(s, i, SubmitRevoke).ops| == |s.ops|
    ensures CallOk(NextDelete(s, i, SubmitRevoke), i, NextDelete(s, i, SubmitRevoke).ops[i])
  {
    var t, user := NextDelete(s, i, SubmitRevoke), s.ops[i].user;
    assert t.ops[i] == DeleteWait(user);
    assert WaitingIn(t, i) && JobIs(t, i, RevokeCert) && t.core.jobs[i].user == user;
  }

  lemma DeleteOthersMoved(s: State, i: nat, act: DeleteStep)
    requires DeleteEnabled(s, i, act) && CallOk(s, i, s.ops[i]) && |NextDelete(s, i, act).ops| == |s.ops|
    requires !act.SubmitRevoke?
    ensures CallOk(NextDelete(s, i, act), i, NextDelete(s, i, act).ops[i])
  {
    match act {
      case FindUser(_) => DeleteFinds(s, i, act);
      case _ => DeleteWinds(s, i, act);
    }
  }

  lemma DeleteFinds(s: State, i: nat, act: DeleteStep)
    requires act.FindUser? && DeleteEnabled(s, i, act) && i !in s.core.jobs
    ensures CallOk(NextDelete(s, i, act), i, NextDelete(s, i, act).ops[i])
  {
    var t, user := NextDelete(s, i, act), s.ops[i].user;
    assert t.core == s.core && t.users == s.users;
    assert t.ops[i].Returned? || (t.ops[i] == DeleteSubmit(user, s.users[user].name) && user in s.users);
  }

  lemma DeleteWinds(s: State, i: nat, act: DeleteStep)
    requires (act.MarkRevoked? || act.DropCache?) && DeleteEnabled(s, i, act)
    ensures CallOk(NextDelete(s, i, act), i, NextDelete(s, i, act).ops[i])
  {
    var op := NextDelete(s, i, act).ops[i];
    assert op.Returned? || op.DeleteDrop?;
  }

  lemma DeleteJob(s: State, i: nat, act: DeleteStep)
    requires DeleteEnabled(s, i, act) && CallOk(s, i, s.ops[i]) && (i in s.core.jobs ==> JobOk(s, i))
    requires Grows(s, NextDelete(s, i, act)) && |NextDelete(s, i, act).ops| == |s.ops|
    requires i in NextDelete(s, i, act).core.jobs
    ensures JobOk(NextDelete(s, i, act), i)
  {
    if act.SubmitRevoke? {
      assert KnownAs(s, s.ops[i].user, s.ops[i].name);
    } else {
      JobStable(s, NextDelete(s, i, act), i);
    }
  }

  lemma DeleteRegisters(s: State, i: nat, act: DeleteStep)
    requires RegistersOk(s) && DeleteEnabled(s, i, act)
    ensures var t := NextDelete(s, i, act); CallsOk(t) && JobsOk(t) && UsersOk(t) && UsersKept(s, t)
  {
    assert CallOk(s, i, s.ops[i]) && (i in s.core.jobs ==> JobOk(s, i));
    DeleteUsers(s, i, act);
    JobsKeptAlong(s, InDelete(i, act));
    DeleteMoved(s, i, act);
    if i in NextDelete(s, i, act).core.jobs { DeleteJob(s, i, act); }
    CallMoved(s, NextDelete(s, i, act), i);
  }

  /** The call leaves the select; its job no longer waits. */
  lemma SubmitSettles(s: State, t: State, i: nat)
    requires CallsOk(s) && JobsOk(s) && UsersOk(s) && JobsKept(s.core, t.core)
    requires OnlyMoved(s, t, i) && t.users == s.users && t.core.jobs == s.core.jobs
    requires Submitting(s.ops[i]) && t.ops[i] == AfterSubmit(s.ops[i]) && !WaitingIn(t, i)
    ensures CallsOk(t) && JobsOk(t) && UsersOk(t)
  {
    assert CallOk(s, i, s.ops[i]);
    if i in s.core.jobs {
      assert JobOk(s, i);
      JobStable(s, t, i);
    }
    assert CallOk(t, i, t.ops[i]);
    CallMoved(s, t, i);
  }

  lemma SubmitMoves(s: State, i: nat, act: SubmitStep)
    requires SubmitEnabled(s, i, act)
    ensures var t := NextSubmit(s, i, act);
            OnlyMoved(s, t, i) && t.users == s.users && t.core.jobs == s.core.jobs && !WaitingIn(t, i)
            && t.ops[i] == AfterSubmit(s.ops[i])
  {
  }

  lemma SubmitRegisters(s: State, i: nat, act: SubmitStep)
    requires RegistersOk(s) && SubmitEnabled(s, i, act)
    ensures var t := NextSubmit(s, i, act); CallsOk(t) && JobsOk(t) && UsersOk(t)
  {
    JobsKeptAlong(s, InSubmit(i, act));
    SubmitMoves(s, i, act);
    SubmitSettles(s, NextSubmit(s, i, act), i);
  }

  /** Reading a config never submits, and reads under the user's name. */
  lemma FetchGoes(s: State, i: nat, act: FetchStep)
    requires FetchEnabled(s, i, act) && CallOk(s, i, s.ops[i]) && |NextFetch(s, i, act).ops| == |s.ops|
    ensures var op := NextFetch(s, i, act).ops[i];
            && (op.Returned? || op.ConfigFind? || op.ConfigRead? || op.ConfigSelect? || op.ConfigUpdate?
                || op.ConfigInsert?)
            && (op.ConfigRead? ==> KnownAs(s, op.user, op.name))
  {
    match act {
      case GetCached(_) => FetchLooks(s, i, act);
      case FindName(_) => FetchLooks(s, i, act);
      case ReadFile(_) => FetchLooks(s, i, act);
      case _ => FetchSaves(s, i, act);
    }
  }

  lemma FetchLooks(s: State, i: nat, act: FetchStep)
    requires FetchEnabled(s, i, act) && |NextFetch(s, i, act).ops| == |s.ops|
    requires act.GetCached? || act.FindName? || act.ReadFile?
    ensures var op := NextFetch(s, i, act).ops[i];
            && (op.Returned? || op.ConfigFind? || op.ConfigRead? || op.ConfigSelect?)
            && (op.ConfigRead? ==> KnownAs(s, op.user, op.name))
  {
  }

  lemma FetchSaves(s: State, i: nat, act: FetchStep)
    requires FetchEnabled(s, i, act) && |NextFetch(s, i, act).ops| == |s.ops|
    requires act.SelectRow? || act.UpdateRow? || act.InsertRow?
    ensures var op := NextFetch(s, i, act).ops[i]; op.Returned? || op.ConfigUpdate? || op.ConfigInsert?
  {
  }

  lemma FetchSettles(s: State, t: State, i: nat)
    requires CallsOk(s) && JobsOk(s) && UsersOk(s)
    requires OnlyMoved(s, t, i) && t.users == s.users && t.core == s.core && !Submitting(s.ops[i])
    requires var op := t.ops[i];
             && (op.Returned? || op.ConfigFind? || op.ConfigRead? || op.ConfigSelect? || op.ConfigUpdate?
                 || op.ConfigInsert?)
             && (op.ConfigRead? ==> KnownAs(s, op.user, op.name))
    ensures CallsOk(t) && JobsOk(t) && UsersOk(t)
  {
    if i in s.core.jobs {
      assert JobOk(s, i);
      JobStable(s, t, i);
    }
    assert CallOk(t, i, t.ops[i]);
    CallMoved(s, t, i);
  }

  lemma FetchRegisters(s: State, i: nat, act: FetchStep)
    requires RegistersOk(s) && FetchEnabled(s, i, act)
    ensures var t := NextFetch(s, i, act); CallsOk(t) && JobsOk(t) && UsersOk(t)
  {
    assert CallOk(s, i, s.ops[i]);
    FetchFrame(s, i, act);
    FetchGoes(s, i, act);
    FetchSettles(s, NextFetch(s, i, act), i);
  }

  lemma WorkRegisters(s: State, w: nat, work: WorkStep)
    requires RegistersOk(s) && WorkEnabled(s, w, work)
    ensures var t := NextWork(s, w, work); CallsOk(t) && JobsOk(t) && UsersOk(t) && UsersKept(s, t)
  {
    var t := NextWork(s, w, work);
    WorkFrame(s, w, work);
    assert UsersKept(s, t) && t.users.Keys == s.users.Keys by {
      match work {
        case StoreUser(err) => assert KnownAs(s, JobOf(s, w).user, s.phases[w].row.name);
        case _ =>
      }
    }
    AllStable(s, t);
  }

  /** Steps that move no call and add no job or user keep the registers. */
  lemma AllStable(s: State, t: State)
    requires CallsOk(s) && JobsOk(s) && UsersOk(s)
    requires t.ops == s.ops && t.users.Keys == s.users.Keys && UsersKept(s, t)
    requires JobsKept(s.core, t.core) && t.core.jobs.Keys == s.core.jobs.Keys
    requires forall id: nat :: WaitingIn(s, id) <==> WaitingIn(t, id)
    ensures CallsOk(t) && JobsOk(t) && UsersOk(t)
  {
    forall k: nat | k < |t.ops| ensures CallOk(t, k, t.ops[k]) {
      CallStable(s, t, k, s.ops[k]);
    }
    forall id | id in t.core.jobs ensures JobOk(t, id) {
      assert JobOk(s, id);
      JobStable(s, t, id);
    }
  }

  lemma LoopRegisters(s: State, loop: LoopStep)
    requires RegistersOk(s) && LoopEnabled(s, loop)
    ensures var t := NextLoop(s, loop);
            CallsOk(t) && JobsOk(t) && UsersOk(t) && UsersKept(s, t)
  {
    var t := NextLoop(s, loop);
    LoopFrame(s, loop);
    JobsKeptAlong(s, InLoop(loop));
    LoopsKeepWaiting(s.core, Inner(s, loop));
    LoopUsers(s, loop);
    AllStable(s, t);
  }

  lemma LoopUsers(s: State, loop: LoopStep)
    requires LoopEnabled(s, loop)
    ensures var t := NextLoop(s, loop);
            t.core == CoreNext(s.core, Inner(s, loop)) && UsersKept(s, t) && t.users.Keys == s.users.Keys
  {
    match loop {
      case CollectResult(_) =>
      case _ =>
    }
  }

  // ---------------------------------------------------------------- the row a worker carries

  lemma CarriedStable(s: State, t: State)
    requires CarriedOk(s) && UsersKept(s, t) && JobsKept(s.core, t.core)
    requires t.core.workers == s.core.workers && t.phases == s.phases && PhasesOk(s)
    ensures CarriedOk(t)
  {
    forall w: nat | w < |t.phases| && InPhase(t, w) && t.phases[w].Storing?
      ensures KnownAs(t, JobOf(t, w).user, t.phases[w].row.name)
    {
      assert InPhase(s, w) && s.phases[w].Storing?;
      assert KnownAs(s, JobOf(s, w).user, s.phases[w].row.name);
    }
  }

  lemma WorkCarried(s: State, v: nat, work: WorkStep)
    requires RegistersOk(s) && WorkEnabled(s, v, work) && UsersKept(s, NextWork(s, v, work))
    ensures CarriedOk(NextWork(s, v, work))
  {
    var t := NextWork(s, v, work);
    WorkFrame(s, v, work);
    forall w: nat | w < |t.phases| && InPhase(t, w) && t.phases[w].Storing?
      ensures KnownAs(t, JobOf(t, w).user, t.phases[w].row.name)
    {
      if w != v {
        assert t.phases[w] == s.phases[w];
        assert KnownAs(s, JobOf(s, w).user, s.phases[w].row.name);
      } else {
        assert work.LoadUser?;
      }
    }
  }

  lemma LoopCarried(s: State, loop: LoopStep)
    requires RegistersOk(s) && LoopEnabled(s, loop) && UsersKept(s, NextLoop(s, loop))
    ensures CarriedOk(NextLoop(s, loop))
  {
    var t := NextLoop(s, loop);
    JobsKeptAlong(s, InLoop(loop));
    forall w: nat | w < |t.phases| && InPhase(t, w) && t.phases[w].Storing?
      ensures KnownAs(t, JobOf(t, w).user, t.phases[w].row.name)
    {
      LoopStillStoring(s, loop, w);
      assert KnownAs(s, JobOf(s, w).user, s.phases[w].row.name);
    }
  }

  /** No loop action brings a worker to the row write. */
  lemma LoopStillStoring(s: State, loop: LoopStep, w: nat)
    requires PhasesOk(s) && LoopEnabled(s, loop) && w < |NextLoop(s, loop).phases|
    requires InPhase(NextLoop(s, loop), w) && NextLoop(s, loop).phases[w].Storing?
    ensures InPhase(s, w) && s.phases[w] == NextLoop(s, loop).phases[w]
    ensures JobsKept(s.core, NextLoop(s, loop).core) ==> JobOf(s, w).user == JobOf(NextLoop(s, loop), w).user
  {
    LoopFrame(s, loop);
    WorkingBefore(s.core, Inner(s, loop), w);
    assert loop != BeginJob(w);
  }

  // ---------------------------------------------------------------- all steps

  lemma RegistersStep(s: State, step: Step)
    requires RegistersOk(s) && Enabled(s, step)
    ensures RegistersOk(Next(s, step)) && UsersKept(s, Next(s, step))
  {
    PipelineStep(s, step);
    PhasesStep(s, step);
    JobsKeptAlong(s, step);
    match step {
      case Open(call) =>
        OpenFrame(s, call);
        OpenRegisters(s, call);
        CarriedStable(s, NextOpen(s, call));
      case InCreate(i, act) =>
        CreateFrame(s, i, act);
        CreateRegisters(s, i, act);
        CarriedStable(s, NextCreate(s, i, act));
      case InDelete(i, act) =>
        DeleteFrame(s, i, act);
        DeleteRegisters(s, i, act);
        CarriedStable(s, NextDelete(s, i, act));
      case InSubmit(i, act) =>
        SubmitFrame(s, i, act);
        SubmitRegisters(s, i, act);
        CarriedStable(s, NextSubmit(s, i, act));
      case InFetch(i, act) =>
        FetchFrame(s, i, act);
        FetchRegisters(s, i, act);
        CarriedStable(s, NextFetch(s, i, act));
      case InJob(w, work) =>
        WorkRegisters(s, w, work);
        WorkCarried(s, w, work);
      case InLoop(loop) =>
        LoopRegisters(s, loop);
        LoopCarried(s, loop);
    }
  }
}
