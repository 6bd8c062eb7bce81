/** What a job does between its beginning and its end, whatever other goroutines do meanwhile. */
module JobOutcomes {
  import opened JobPipeline
  import opened CertService
  import opened ServiceInvariant
  import opened Registers
  import opened Configs
  import opened ServiceTheorems

  // ---------------------------------------------------------------- one worker among the others

  /** A step of worker `w`. */
  predicate ByWorker(step: Step, w: nat) {
    || (step.InJob? && step.w == w)
    || (step.InLoop? && step.loop in {TakeJob(w), BeginJob(w), FinishJob(w), PostJob(w), LeaveWorker(w)})
  }

  /** `t` follows from `s` without a step of worker `w`. */
  ghost predicate OthersLead(s: State, t: State, w: nat) {
    exists steps :: OthersRun(s, steps, w) && After(s, steps) == t
  }

  ghost predicate OthersRun(s: State, steps: seq<Step>, w: nat) {
    IsRun(s, steps) && forall i :: 0 <= i < |steps| ==> !ByWorker(steps[i], w)
  }

  /** The worker is inside the same job, at the same statement. */
  ghost predicate SamePlace(s: State, t: State, w: nat) {
    && InPhase(s, w) && InPhase(t, w) && t.core.workers[w] == s.core.workers[w] && t.phases[w] == s.phases[w]
    && JobOf(t, w).kind == JobOf(s, w).kind && JobOf(t, w).user == JobOf(s, w).user
    && JobOf(t, w).name == JobOf(s, w).name
  }

  lemma CoreElsewhere(c: Core, step: CoreStep, w: nat)
    requires CoreEnabled(c, step) && w < |c.workers| && c.workers[w].Working?
    requires !(step.Begin? || step.Finish? || step.Post? || step.ExitWorker? || step.Take?) || step.w != w
    ensures w < |CoreNext(c, step).workers| && CoreNext(c, step).workers[w] == c.workers[w]
  {
  }

  lemma LoopElsewhere(s: State, loop: LoopStep, w: nat)
    requires PhasesOk(s) && InPhase(s, w) && LoopEnabled(s, loop) && !ByWorker(InLoop(loop), w)
    ensures var t := NextLoop(s, loop);
            && w < |t.core.workers| && t.core.workers[w] == s.core.workers[w]
            && w < |t.phases| && t.phases[w] == s.phases[w]
  {
    LoopFrame(s, loop);
    LoopCore(s, loop);
    CoreElsewhere(s.core, Inner(s, loop), w);
  }

  lemma StaysStep(s: State, step: Step, w: nat)
    requires PhasesOk(s) && InPhase(s, w) && Enabled(s, step) && !ByWorker(step, w)
    ensures SamePlace(s, Next(s, step), w)
  {
    JobsKeptAlong(s, step);
    match step {
      case Open(call) => OpenFrame(s, call);
      case InCreate(i, act) => CreateFrame(s, i, act);
      case InDelete(i, act) => DeleteFrame(s, i, act);
      case InSubmit(i, act) => SubmitFrame(s, i, act);
      case InFetch(i, act) => FetchFrame(s, i, act);
      case InJob(v, work) => WorkFrame(s, v, work);
      case InLoop(loop) => LoopElsewhere(s, loop, w);
    }
  }

  lemma OthersRest(s: State, steps: seq<Step>, w: nat)
    requires OthersRun(s, steps, w) && steps != []
    ensures Enabled(s, steps[0]) && !ByWorker(steps[0], w) && OthersRun(Next(s, steps[0]), steps[1..], w)
  {
    assert forall i :: 0 <= i < |steps[1..]| ==> steps[1..][i] == steps[i + 1];
  }

  lemma {:induction false} StaysPut(s: State, steps: seq<Step>, w: nat)
    requires RegistersOk(s) && InPhase(s, w) && OthersRun(s, steps, w)
    ensures RegistersOk(After(s, steps)) && UsersKept(s, After(s, steps)) && SamePlace(s, After(s, steps), w)
    decreases |steps|
  {
    if steps != [] {
      OthersRest(s, steps, w);
      StaysStep(s, steps[0], w);
      RegistersStep(s, steps[0]);
      StaysPut(Next(s, steps[0]), steps[1..], w);
    }
  }

  lemma OthersStayPut(s: State, t: State, w: nat)
    requires RegistersOk(s) && InPhase(s, w) && OthersLead(s, t, w)
    ensures RegistersOk(t) && UsersKept(s, t) && SamePlace(s, t, w)
  {
    var steps :| OthersRun(s, steps, w) && After(s, steps) == t;
    StaysPut(s, steps, w);
  }

  // ---------------------------------------------------------------- what becomes of a user's row

  /** DeleteUser stores "revoked". */
  predicate Marks(s: State, step: Step, user: UserId) {
    && step.InDelete? && step.delete == MarkRevoked(false)
    && step.i < |s.ops| && s.ops[step.i].DeleteMark? && s.ops[step.i].user == user
  }

  /** The collector stores the outcome of a completed job of the user. */
  predicate Delivers(s: State, step: Step, kind: JobKind, user: UserId) {
    && step == InLoop(CollectResult(false)) && s.core.collector.Delivering? && s.core.collector.job in s.core.jobs
    && var j := s.core.jobs[s.core.collector.job]; j.status.Completed? && j.kind == kind && j.user == user
  }

  /** A generate job writes the user's row back. */
  predicate StoresRow(s: State, step: Step, user: UserId) {
    step.InJob? && step.work == StoreUser(false) && InPhase(s, step.w) && JobOf(s, step.w).user == user
  }

  /** What a step does to the row of a known user. */
  ghost predicate RowChange(s: State, step: Step, t: State, user: UserId)
    requires user in s.users
  {
    && user in t.users
    && (if StoresRow(s, step, user) then step.w < |s.phases| && s.phases[step.w].Storing?
                                         && t.users[user] == s.phases[step.w].row
        else t.users[user].name == s.users[user].name && t.users[user].serial == s.users[user].serial
             && t.users[user].status == if Marks(s, step, user) || Delivers(s, step, RevokeCert, user) then Revoked
                                        else if Delivers(s, step, GenerateCert, user) then Active
                                        else s.users[user].status)
  }

  lemma CreateRow(s: State, i: nat, act: CreateStep, user: UserId)
    requires CreateEnabled(s, i, act) && CallOk(s, i, s.ops[i]) && user in s.users
    ensures RowChange(s, InCreate(i, act), NextCreate(s, i, act), user)
  {
    match act {
      case CheckName(_) =>
      case InsertUser(_) =>
      case SubmitGenerate =>
    }
  }

  lemma DeleteRow(s: State, i: nat, act: DeleteStep, user: UserId)
    requires DeleteEnabled(s, i, act) && user in s.users
    ensures RowChange(s, InDelete(i, act), NextDelete(s, i, act), user)
  {
    match act {
      case FindUser(_) =>
      case SubmitRevoke =>
      case MarkRevoked(_) =>
      case DropCache(_) =>
    }
  }

  lemma WorkRow(s: State, w: nat, work: WorkStep, user: UserId)
    requires WorkEnabled(s, w, work) && user in s.users
    ensures RowChange(s, InJob(w, work), NextWork(s, w, work), user)
  {
    match work {
      case Issue(_) =>
      case Render(_, _) =>
      case Append(_) =>
      case EndWrite(_) =>
      case Inspect(_) =>
      case LoadUser(_) =>
      case StoreUser(_) =>
      case RevokeCertificate(_) =>
      case RemoveFile(_) =>
    }
  }

  lemma LoopRow(s: State, loop: LoopStep, user: UserId)
    requires LoopEnabled(s, loop) && user in s.users
    ensures RowChange(s, InLoop(loop), NextLoop(s, loop), user)
  {
    match loop {
      case TakeJob(_) =>
      case BeginJob(_) =>
      case FinishJob(_) =>
      case PostJob(_) =>
      case LeaveWorker(_) =>
      case ReceiveResult =>
      case CollectResult(_) =>
      case LeaveCollector =>
      case Shutdown =>
    }
  }

  /**
   A known user's row: the name never changes; the serial number only by a generate job's row write; the status by
   that, by DeleteUser and by the collector storing the outcome of a completed job, and by nothing else.
   */
  lemma RowAfter(s: State, step: Step, user: UserId)
    requires RegistersOk(s) && Enabled(s, step) && user in s.users
    ensures RowChange(s, step, Next(s, step), user) && Next(s, step).users[user].name == s.users[user].name
  {
    RegistersStep(s, step);
    match step {
      case Open(call) => OpenFrame(s, call);
      case InCreate(i, act) =>
        assert CallOk(s, i, s.ops[i]);
        CreateRow(s, i, act, user);
      case InDelete(i, act) => DeleteRow(s, i, act, user);
      case InSubmit(i, act) => SubmitFrame(s, i, act);
      case InFetch(i, act) => FetchFrame(s, i, act);
      case InJob(w, work) => WorkRow(s, w, work, user);
      case InLoop(loop) => LoopRow(s, loop, user);
    }
  }

  /** A user is added by the insertion of its own CreateUser call, inactive and without a serial number. */
  lemma UserAdded(s: State, step: Step, user: UserId)
    requires RegistersOk(s) && Enabled(s, step) && user in Next(s, step).users && user !in s.users
    ensures 0 <= user < |s.ops| && s.ops[user].CreateInsert? && step == InCreate(user, InsertUser(false))
    ensures Next(s, step).users[user] == User(s.ops[user].name, Inactive, "")
    ensures forall u :: u in s.users ==> s.users[u].name != s.ops[user].name
  {
    match step {
      case Open(call) => OpenFrame(s, call);
      case InCreate(i, act) => CreateAdds(s, i, act, user);
      case InDelete(i, act) => DeleteAddsNobody(s, i, act);
      case InSubmit(i, act) => SubmitFrame(s, i, act);
      case InFetch(i, act) => FetchFrame(s, i, act);
      case InJob(w, work) => WorkAddsNobody(s, w, work);
      case InLoop(loop) => LoopUsers(s, loop);
    }
  }

  lemma CreateAdds(s: State, i: nat, act: CreateStep, user: UserId)
    requires CreateEnabled(s, i, act) && user in NextCreate(s, i, act).users && user !in s.users
    ensures user == i && s.ops[i].CreateInsert? && act == InsertUser(false)
    ensures NextCreate(s, i, act).users[i] == User(s.ops[i].name, Inactive, "")
    ensures forall u :: u in s.users ==> s.users[u].name != s.ops[i].name
  {
    match act {
      case CheckName(_) =>
      case InsertUser(_) =>
      case SubmitGenerate =>
    }
  }

  lemma DeleteAddsNobody(s: State, i: nat, act: DeleteStep)
    requires DeleteEnabled(s, i, act)
    ensures NextDelete(s, i, act).users.Keys == s.users.Keys
  {
    match act {
      case FindUser(_) =>
      case SubmitRevoke =>
      case MarkRevoked(_) =>
      case DropCache(_) =>
    }
  }

  lemma WorkAddsNobody(s: State, w: nat, work: WorkStep)
    requires WorkEnabled(s, w, work)
    ensures NextWork(s, w, work).users.Keys == s.users.Keys
  {
  }

  // ---------------------------------------------------------------- the serial number

  lemma InspectLeads(s: State, w: nat, serial: string)
    requires WorkEnabled(s, w, Inspect(serial)) && serial != ""
    ensures var t := NextWork(s, w, Inspect(serial));
            InPhase(t, w) && t.phases[w] == Reading(serial) && t.core == s.core && t.users == s.users
  {
  }

  lemma LoadLeads(s: State, w: nat, serial: string)
    requires InPhase(s, w) && s.phases[w] == Reading(serial) && JobOf(s, w).user in s.users
    ensures WorkEnabled(s, w, LoadUser(false))
    ensures var t, row := NextWork(s, w, LoadUser(false)), s.users[JobOf(s, w).user];
            && InPhase(t, w) && t.phases[w] == Storing(User(row.name, row.status, serial))
            && t.core == s.core && t.users == s.users
  {
  }

  /** From the inspection to the read. */
  lemma SerialIsRead(s: State, w: nat, serial: string, inspected: State, read: State)
    requires RegistersOk(s) && serial != ""
    requires Enabled(s, InJob(w, Inspect(serial))) && inspected == Next(s, InJob(w, Inspect(serial)))
    requires OthersLead(inspected, read, w)
    ensures RegistersOk(read) && InPhase(s, w) && InPhase(read, w) && read.phases[w] == Reading(serial)
    ensures JobOf(read, w).user == JobOf(s, w).user && JobOf(s, w).user in read.users
  {
    RegistersStep(s, InJob(w, Inspect(serial)));
    InspectLeads(s, w, serial);
    OthersStayPut(inspected, read, w);
    KnownUser(read, w);
  }

  /** From the read to the write. */
  lemma SerialIsCarried(read: State, w: nat, serial: string, loaded: State, written: State)
    requires RegistersOk(read) && InPhase(read, w) && read.phases[w] == Reading(serial)
    requires JobOf(read, w).user in read.users
    requires Enabled(read, InJob(w, LoadUser(false))) && loaded == Next(read, InJob(w, LoadUser(false)))
    requires OthersLead(loaded, written, w)
    ensures var user := JobOf(read, w).user;
            && InPhase(written, w) && JobOf(written, w).user == user && user in written.users
            && written.phases[w] == Storing(User(read.users[user].name, read.users[user].status, serial))
  {
    LoadLeads(read, w, serial);
    RegistersStep(read, InJob(w, LoadUser(false)));
    OthersStayPut(loaded, written, w);
    KnownUser(written, w);
  }

  /** The write. */
  lemma RowIsStored(s: State, w: nat, row: User, end: State)
    requires InPhase(s, w) && s.phases[w] == Storing(row) && JobOf(s, w).user in s.users
    requires Enabled(s, InJob(w, StoreUser(false))) && end == Next(s, InJob(w, StoreUser(false)))
    ensures var user := JobOf(s, w).user;
            && user in end.users && end.users[user] == row && end.users.Keys == s.users.Keys
            && forall u :: u in s.users && u != user ==> end.users[u] == s.users[u]
  {
  }

  /**
   A generate job that finds serial number `serial` reads the user's row and writes it back with exactly that serial
   number, the name and the status being those at the read, whatever others did before it and in between; no other
   row changes.
   */
  lemma SerialIsStored(
    s: State, w: nat, serial: string, inspected: State, read: State, loaded: State, written: State, end: State)
    requires Reachable(s) && serial != ""
    requires Enabled(s, InJob(w, Inspect(serial))) && inspected == Next(s, InJob(w, Inspect(serial)))
    requires OthersLead(inspected, read, w)
    requires Enabled(read, InJob(w, LoadUser(false))) && loaded == Next(read, InJob(w, LoadUser(false)))
    requires OthersLead(loaded, written, w)
    requires Enabled(written, InJob(w, StoreUser(false))) && end == Next(written, InJob(w, StoreUser(false)))
    ensures var user := JobOf(s, w).user;
            && user in read.users && user in end.users
            && end.users[user].serial == serial
            && end.users[user].name == read.users[user].name && end.users[user].status == read.users[user].status
            && end.users.Keys == written.users.Keys
            && forall u :: u in written.users && u != user ==> end.users[u] == written.users[u]
  {
    ReachableOk(s);
    SerialIsRead(s, w, serial, inspected, read);
    SerialIsCarried(read, w, serial, loaded, written);
    var row := read.users[JobOf(s, w).user];
    RowIsStored(written, w, User(row.name, row.status, serial), end);
  }

  /** A job that is not a renewal belongs to a known user. */
  lemma KnownUser(s: State, w: nat)
    requires RegistersOk(s) && InPhase(s, w) && (s.phases[w].Reading? || s.phases[w].Storing?)
    ensures JobOf(s, w).user in s.users
  {
    assert JobOk(s, s.core.workers[w].job) && PhaseFits(JobOf(s, w).kind, s.phases[w]);
  }

  /** The user's row has this serial number, or a worker is about to write it. */
  ghost predicate SerialHeld(s: State, user: UserId, serial: string) {
    || (user in s.users && s.users[user].serial == serial)
    || exists w: nat :: w < |s.phases| && SerialInHand(s, w, user, serial)
  }

  ghost predicate SerialInHand(s: State, w: nat, user: UserId, serial: string) {
    && InPhase(s, w) && JobOf(s, w).user == user
    && (s.phases[w] == Reading(serial) || (s.phases[w].Storing? && s.phases[w].row.serial == serial))
  }

  /** A worker found this serial number in the user's certificate. */
  predicate Inspects(s: State, step: Step, user: UserId, serial: string) {
    step.InJob? && step.work == Inspect(serial) && InPhase(s, step.w) && JobOf(s, step.w).user == user
  }

  /** The worker has the serial number in hand if it had, in the same job, at the same statement. */
  lemma SameHand(s: State, t: State, w: nat, user: UserId, serial: string)
    requires PhasesOk(s) && JobsKept(s.core, t.core) && SerialInHand(t, w, user, serial)
    requires w < |s.core.workers| && t.core.workers[w] == s.core.workers[w]
    requires w < |s.phases| && t.phases[w] == s.phases[w]
    ensures SerialInHand(s, w, user, serial)
  {
  }

  lemma LoopHandBefore(s: State, loop: LoopStep, w: nat)
    requires PhasesOk(s) && LoopEnabled(s, loop) && InPhase(NextLoop(s, loop), w)
    requires NextLoop(s, loop).phases[w].Reading? || NextLoop(s, loop).phases[w].Storing?
    ensures w < |s.core.workers| && NextLoop(s, loop).core.workers[w] == s.core.workers[w]
    ensures w < |s.phases| && NextLoop(s, loop).phases[w] == s.phases[w]
  {
    LoopFrame(s, loop);
    LoopCore(s, loop);
    WorkingBefore(s.core, Inner(s, loop), w);
  }

  lemma InHandBefore(s: State, step: Step, w: nat, user: UserId, serial: string)
    requires RegistersOk(s) && Enabled(s, step) && serial != "" && SerialInHand(Next(s, step), w, user, serial)
    ensures SerialInHand(s, w, user, serial) || Inspects(s, step, user, serial)
  {
    var t := Next(s, step);
    JobsKeptAlong(s, step);
    match step {
      case Open(call) => OpenFrame(s, call);
      case InCreate(i, act) => CreateFrame(s, i, act);
      case InDelete(i, act) => DeleteFrame(s, i, act);
      case InSubmit(i, act) => SubmitFrame(s, i, act);
      case InFetch(i, act) => FetchFrame(s, i, act);
      case InJob(v, work) =>
        WorkFrame(s, v, work);
        if v == w { WorkHandBefore(s, w, work, user, serial); }
      case InLoop(loop) => LoopHandBefore(s, loop, w);
    }
    if !step.InJob? || step.w != w { SameHand(s, t, w, user, serial); }
  }

  lemma WorkHandBefore(s: State, w: nat, work: WorkStep, user: UserId, serial: string)
    requires WorkEnabled(s, w, work) && serial != "" && SerialInHand(NextWork(s, w, work), w, user, serial)
    requires NextWork(s, w, work).core == s.core
    ensures SerialInHand(s, w, user, serial) || Inspects(s, InJob(w, work), user, serial)
  {
    assert work.Inspect? || work.LoadUser?;
  }

  lemma HeldBefore(s: State, step: Step, user: UserId, serial: string)
    requires RegistersOk(s) && Enabled(s, step) && serial != "" && SerialHeld(Next(s, step), user, serial)
    ensures SerialHeld(s, user, serial) || Inspects(s, step, user, serial)
  {
    var t := Next(s, step);
    if user in t.users && t.users[user].serial == serial {
      if user in s.users { RowAfter(s, step, user); } else { UserAdded(s, step, user); }
      if user in s.users && StoresRow(s, step, user) { assert SerialInHand(s, step.w, user, serial); }
    } else {
      var w: nat :| w < |t.phases| && SerialInHand(t, w, user, serial);
      InHandBefore(s, step, w, user, serial);
    }
  }

  /** Somewhere in the run a worker found this serial number in the user's certificate. */
  ghost predicate InspectedIn(s: State, steps: seq<Step>, user: UserId, serial: string)
    requires IsRun(s, steps)
    decreases |steps|
  {
    steps != []
    && (Inspects(s, steps[0], user, serial) || InspectedIn(Next(s, steps[0]), steps[1..], user, serial))
  }

  lemma {:induction false} HeldAlong(s: State, steps: seq<Step>, user: UserId, serial: string)
    requires RegistersOk(s) && IsRun(s, steps) && serial != "" && SerialHeld(After(s, steps), user, serial)
    ensures SerialHeld(s, user, serial) || InspectedIn(s, steps, user, serial)
    decreases |steps|
  {
    if steps != [] {
      RegistersStep(s, steps[0]);
      HeldAlong(Next(s, steps[0]), steps[1..], user, serial);
      if SerialHeld(Next(s, steps[0]), user, serial) { HeldBefore(s, steps[0], user, serial); }
    }
  }

  /** After every run a stored serial number is one that the user's own job found. */
  lemma SerialWasInspected(workers: nat, capacity: nat, steps: seq<Step>, user: UserId)
    requires IsRun(Boot(workers, capacity), steps)
    requires user in After(Boot(workers, capacity), steps).users
    ensures var serial := After(Boot(workers, capacity), steps).users[user].serial;
            serial == "" || InspectedIn(Boot(workers, capacity), steps, user, serial)
  {
    BootOk(workers, capacity);
    var serial := After(Boot(workers, capacity), steps).users[user].serial;
    if serial != "" { HeldAlong(Boot(workers, capacity), steps, user, serial); }
  }

  // ---------------------------------------------------------------- how a job ends

  /** The statements whose failure fails the job. */
  predicate Fails(work: WorkStep) {
    match work
    case Issue(ok) => !ok
    case Render(ok, _) => !ok
    case EndWrite(ok) => !ok
    case RevokeCertificate(ok) => !ok
    case _ => false
  }

  ghost predicate FailedAmong(steps: seq<Step>, w: nat) {
    exists i :: 0 <= i < |steps| && steps[i].InJob? && steps[i].w == w && Fails(steps[i].work)
  }

  /** The job is not over, or its outcome is this. */
  ghost predicate OutcomeIs(p: Phase, failed: bool) {
    if failed then p == Finishing(false) else p != Finishing(false)
  }

  lemma WorkOutcome(s: State, w: nat, work: WorkStep)
    requires WorkEnabled(s, w, work) && !s.phases[w].Finishing?
    ensures var t := NextWork(s, w, work); InPhase(t, w) && OutcomeIs(t.phases[w], Fails(work))
  {
    match work {
      case Issue(_) =>
      case Render(_, _) =>
      case Append(_) =>
      case EndWrite(_) =>
      case Inspect(_) =>
      case LoadUser(_) =>
      case StoreUser(_) =>
      case RevokeCertificate(_) =>
      case RemoveFile(_) =>
    }
  }

  /** A run in which worker `w` does not end its job. */
  ghost predicate NotEnded(s: State, steps: seq<Step>, w: nat) {
    IsRun(s, steps) && forall i :: 0 <= i < |steps| ==> steps[i] != InLoop(FinishJob(w))
  }

  lemma OwnOutcome(s: State, work: WorkStep, w: nat, failed: bool)
    requires InPhase(s, w) && OutcomeIs(s.phases[w], failed) && WorkEnabled(s, w, work)
    ensures var t := NextWork(s, w, work);
            && InPhase(t, w) && t.core.workers[w] == s.core.workers[w]
            && OutcomeIs(t.phases[w], failed || Fails(work))
  {
    WorkFrame(s, w, work);
    assert !s.phases[w].Finishing?;
    WorkOutcome(s, w, work);
  }

  lemma OutcomeStep(s: State, step: Step, w: nat, failed: bool)
    requires PhasesOk(s) && InPhase(s, w) && OutcomeIs(s.phases[w], failed) && Enabled(s, step)
    requires step != InLoop(FinishJob(w))
    ensures var t := Next(s, step);
            && InPhase(t, w) && t.core.workers[w] == s.core.workers[w]
            && OutcomeIs(t.phases[w], failed || (step.InJob? && step.w == w && Fails(step.work)))
  {
    if step.InJob? && step.w == w { OwnOutcome(s, step.work, w, failed); } else { StaysStep(s, step, w); }
  }

  lemma {:induction false} OutcomeAlong(s: State, steps: seq<Step>, w: nat, failed: bool)
    requires RegistersOk(s) && InPhase(s, w) && OutcomeIs(s.phases[w], failed) && NotEnded(s, steps, w)
    ensures var t := After(s, steps);
            && InPhase(t, w) && t.core.workers[w] == s.core.workers[w]
            && OutcomeIs(t.phases[w], failed || FailedAmong(steps, w))
    decreases |steps|
  {
    if steps != [] {
      var step, rest := steps[0], steps[1..];
      NotEndedRest(s, steps, w);
      OutcomeStep(s, step, w, failed);
      RegistersStep(s, step);
      OutcomeAlong(Next(s, step), rest, w, failed || (step.InJob? && step.w == w && Fails(step.work)));
      FailedFirst(steps, w);
    }
  }

  lemma NotEndedRest(s: State, steps: seq<Step>, w: nat)
    requires NotEnded(s, steps, w) && steps != []
    ensures Enabled(s, steps[0]) && steps[0] != InLoop(FinishJob(w)) && NotEnded(Next(s, steps[0]), steps[1..], w)
  {
    assert forall i :: 0 <= i < |steps[1..]| ==> steps[1..][i] == steps[i + 1];
  }

  lemma FailedFirst(steps: seq<Step>, w: nat)
    requires steps != []
    ensures FailedAmong(steps, w) <==>
            (steps[0].InJob? && steps[0].w == w && Fails(steps[0].work)) || FailedAmong(steps[1..], w)
  {
    if FailedAmong(steps, w) {
      var i :| 0 <= i < |steps| && steps[i].InJob? && steps[i].w == w && Fails(steps[i].work);
      if i > 0 { assert steps[1..][i - 1] == steps[i]; }
    }
    if i :| 0 <= i < |steps[1..]| && steps[1..][i].InJob? && steps[1..][i].w == w && Fails(steps[1..][i].work) {
      assert steps[i + 1] == steps[1..][i];
    }
  }

  /**
   A job begun by worker `w` ends as completed if and only if it is no renewal and none of its own statements
   failed, those apart that read the certificate's details, update the user's row or remove the file.
   */
  lemma JobOutcome(s: State, w: nat, begun: State, steps: seq<Step>, last: State)
    requires Reachable(s) && Enabled(s, InLoop(BeginJob(w))) && begun == Next(s, InLoop(BeginJob(w)))
    requires NotEnded(begun, steps, w) && last == After(begun, steps) && Enabled(last, InLoop(FinishJob(w)))
    ensures var id, end := s.core.workers[w].job, Next(last, InLoop(FinishJob(w)));
            && id in s.core.jobs && id in end.core.jobs
            && end.core.jobs[id].status ==
               if s.core.jobs[id].kind.RenewCert? || FailedAmong(steps, w) then Failed else Completed
  {
    ReachableOk(s);
    BegunAndRun(s, w, begun, steps, last);
    FinishesHow(last, w);
  }

  lemma BegunAndRun(s: State, w: nat, begun: State, steps: seq<Step>, last: State)
    requires RegistersOk(s) && LoopEnabled(s, BeginJob(w)) && begun == NextLoop(s, BeginJob(w))
    requires NotEnded(begun, steps, w) && last == After(begun, steps)
    ensures var id := s.core.workers[w].job;
            && id in s.core.jobs && InPhase(last, w) && last.core.workers[w] == Working(id)
            && OutcomeIs(last.phases[w], s.core.jobs[id].kind.RenewCert? || FailedAmong(steps, w))
  {
    RegistersStep(s, InLoop(BeginJob(w)));
    BeginsHow(s, w);
    OutcomeAlong(begun, steps, w, s.core.jobs[s.core.workers[w].job].kind.RenewCert?);
  }

  lemma BeginsHow(s: State, w: nat)
    requires LoopEnabled(s, BeginJob(w)) && s.core.workers[w].job in s.core.jobs && |s.phases| == |s.core.workers|
    ensures var t, id := NextLoop(s, BeginJob(w)), s.core.workers[w].job;
            && InPhase(t, w) && t.core.workers[w] == Working(id)
            && OutcomeIs(t.phases[w], s.core.jobs[id].kind.RenewCert?)
  {
  }

  lemma FinishesHow(s: State, w: nat)
    requires LoopEnabled(s, FinishJob(w))
    ensures var id, t := s.core.workers[w].job, NextLoop(s, FinishJob(w));
            id in t.core.jobs && t.core.jobs[id].status == if s.phases[w] == Finishing(true) then Completed else Failed
  {
  }

  // ---------------------------------------------------------------- the config file

  /** What a step does to a file. */
  ghost predicate FileChange(s: State, step: Step, t: State, name: string) {
    if Creates(s, step, name) then name in t.files && t.files[name] == []
    else if Removes(s, step, name) then name !in t.files
    else if name in s.files && Extends(s, step, name) then
      && step.w < |s.phases| && s.phases[step.w].Writing?
      && var p := s.phases[step.w];
         && p.done + step.work.n <= |p.data|
         && name in t.files && t.files[name] == p.data[..p.done + step.work.n]
    else (name in t.files <==> name in s.files) && (name in s.files ==> t.files[name] == s.files[name])
  }

  predicate Creates(s: State, step: Step, name: string) {
    step.InJob? && step.work.Render? && step.work.ok && InPhase(s, step.w) && JobOf(s, step.w).name == name
  }

  predicate Extends(s: State, step: Step, name: string) {
    step.InJob? && step.work.Append? && InPhase(s, step.w) && JobOf(s, step.w).name == name
  }

  predicate Removes(s: State, step: Step, name: string) {
    step.InJob? && step.work == RemoveFile(true) && InPhase(s, step.w) && JobOf(s, step.w).name == name
  }

  lemma WorkFile(s: State, w: nat, work: WorkStep, name: string)
    requires WorkEnabled(s, w, work)
    ensures FileChange(s, InJob(w, work), NextWork(s, w, work), name)
  {
    match work {
      case Issue(_) =>
      case Render(_, _) =>
      case Append(_) =>
      case EndWrite(_) =>
      case Inspect(_) =>
      case LoadUser(_) =>
      case StoreUser(_) =>
      case RevokeCertificate(_) =>
      case RemoveFile(_) =>
    }
  }

  /**
   A file comes into being empty when a generate job of its name has its config, grows by what that job writes, and
   goes when a revoke job of its name removes it; nothing else touches it.
   */
  lemma FileAfter(s: State, step: Step, name: string)
    requires Enabled(s, step)
    ensures FileChange(s, step, Next(s, step), name)
  {
    match step {
      case Open(call) => OpenFrame(s, call);
      case InCreate(i, act) => CreateFrame(s, i, act);
      case InDelete(i, act) => DeleteFrame(s, i, act);
      case InSubmit(i, act) => SubmitFrame(s, i, act);
      case InFetch(i, act) => FetchFrame(s, i, act);
      case InJob(w, work) => WorkFile(s, w, work, name);
      case InLoop(loop) => LoopFrame(s, loop);
    }
  }

  /** Worker `w` is writing this config. */
  ghost predicate WritingOut(s: State, w: nat, content: Data) {
    InPhase(s, w) && s.phases[w].Writing? && s.phases[w].data == content
  }

  /** Of worker `w` the run has only writes. */
  ghost predicate OnlyWrites(s: State, steps: seq<Step>, w: nat) {
    IsRun(s, steps)
    && forall i :: 0 <= i < |steps| && ByWorker(steps[i], w) ==> steps[i].InJob? && steps[i].work.Append?
  }

  lemma WritesRest(s: State, steps: seq<Step>, w: nat)
    requires OnlyWrites(s, steps, w) && steps != []
    ensures Enabled(s, steps[0]) && (ByWorker(steps[0], w) ==> steps[0].InJob? && steps[0].work.Append?)
    ensures OnlyWrites(Next(s, steps[0]), steps[1..], w)
  {
    assert forall i :: 0 <= i < |steps[1..]| ==> steps[1..][i] == steps[i + 1];
  }

  lemma AppendStays(s: State, w: nat, n: nat, content: Data)
    requires WorkEnabled(s, w, Append(n)) && WritingOut(s, w, content)
    ensures var t := NextWork(s, w, Append(n)); WritingOut(t, w, content) && t.core == s.core
  {
  }

  lemma WritingStep(s: State, step: Step, w: nat, content: Data)
    requires PhasesOk(s) && WritingOut(s, w, content) && Enabled(s, step)
    requires ByWorker(step, w) ==> step.InJob? && step.work.Append?
    ensures var t := Next(s, step);
            && WritingOut(t, w, content)
            && JobOf(t, w).user == JobOf(s, w).user && JobOf(t, w).name == JobOf(s, w).name
  {
    if ByWorker(step, w) { AppendStays(s, w, step.work.n, content); } else { StaysStep(s, step, w); }
  }

  lemma {:induction false} StillWriting(s: State, steps: seq<Step>, w: nat, content: Data)
    requires ServiceOk(s) && WritingOut(s, w, content) && OnlyWrites(s, steps, w)
    ensures var t := After(s, steps);
            && ServiceOk(t) && WritingOut(t, w, content)
            && JobOf(t, w).user == JobOf(s, w).user && JobOf(t, w).name == JobOf(s, w).name
    decreases |steps|
  {
    if steps != [] {
      WritesRest(s, steps, w);
      WritingStep(s, steps[0], w, content);
      ServiceStep(s, steps[0]);
      StillWriting(Next(s, steps[0]), steps[1..], w, content);
    }
  }

  /**
   When the write of a config succeeds, all of it has been written, in whatever pieces and whatever others did
   meanwhile; the file, unless it was removed, is the config.
   */
  lemma FileIsWhole(s: State, w: nat, content: Data, created: State, steps: seq<Step>, t: State)
    requires Reachable(s) && Enabled(s, InJob(w, Render(true, content)))
    requires created == Next(s, InJob(w, Render(true, content)))
    requires OnlyWrites(created, steps, w) && t == After(created, steps) && Enabled(t, InJob(w, EndWrite(true)))
    ensures var j := JobOf(s, w);
            && j.user in t.written && t.written[j.user] == content
            && (j.name in t.files ==> t.files[j.name] == content)
  {
    ReachableOk(s);
    RenderLeads(s, w, content);
    ServiceStep(s, InJob(w, Render(true, content)));
    WrittenOut(created, steps, w, content);
  }

  lemma WrittenOut(created: State, steps: seq<Step>, w: nat, content: Data)
    requires ServiceOk(created) && WritingOut(created, w, content) && OnlyWrites(created, steps, w)
    requires WorkEnabled(After(created, steps), w, EndWrite(true))
    ensures var t, j := After(created, steps), JobOf(created, w);
            && j.user in t.written && t.written[j.user] == content
            && (j.name in t.files ==> t.files[j.name] == content)
  {
    StillWriting(created, steps, w, content);
    WholeWritten(After(created, steps), w, content);
  }

  lemma RenderLeads(s: State, w: nat, content: Data)
    requires WorkEnabled(s, w, Render(true, content))
    ensures var t := NextWork(s, w, Render(true, content)); WritingOut(t, w, content) && t.core == s.core
  {
  }

  lemma WholeWritten(t: State, w: nat, content: Data)
    requires ServiceOk(t) && WritingOut(t, w, content) && t.phases[w].done == |content|
    ensures var j := JobOf(t, w);
            && j.user in t.written && t.written[j.user] == content
            && (j.name in t.files ==> t.files[j.name] == content)
  {
    var j := JobOf(t, w);
    assert WriterOk(t, w) && content[..|content|] == content;
    if j.name in t.files {
      assert JobOk(t, t.core.workers[w].job) && PhaseFits(j.kind, t.phases[w]);
      assert FileOk(t, j.name) && KnownAs(t, j.user, j.name);
      var u :| KnownAs(t, u, j.name) && u in t.written && t.files[j.name] == t.written[u];
    }
  }
}
