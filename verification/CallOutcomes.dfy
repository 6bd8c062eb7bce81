/** What each service call answers and leaves behind, whatever other calls and the pipeline do meanwhile. */
module CallOutcomes {
  import opened JobPipeline
  import opened CertService
  import opened ServiceInvariant
  import opened Registers
  import opened Configs
  import opened ServiceTheorems
  import opened JobOutcomes

  // ---------------------------------------------------------------- refusals

  /** A statement of call `i`. */
  predicate OfCall(step: Step, i: nat) {
    match step
    case InCreate(k, _) => k == i
    case InDelete(k, _) => k == i
    case InSubmit(k, _) => k == i
    case InFetch(k, _) => k == i
    case _ => false
  }

  /** A statement of call `i` that ends it with an error: it failed, or found a name taken, a user or a file missing. */
  predicate Refuses(s: State, step: Step, i: nat) {
    && i < |s.ops|
    && match step
       case InCreate(k, CheckName(err)) =>
         k == i && s.ops[i].CreateCheck? && (err || exists u :: u in s.users && s.users[u].name == s.ops[i].name)
       case InCreate(k, InsertUser(err)) =>
         k == i && s.ops[i].CreateInsert? && (err || exists u :: u in s.users && s.users[u].name == s.ops[i].name)
       case InDelete(k, FindUser(err)) => k == i && s.ops[i].DeleteFind? && (err || s.ops[i].user !in s.users)
       case InDelete(k, MarkRevoked(err)) => k == i && s.ops[i].DeleteMark? && err
       case InFetch(k, FindName(err)) => k == i && s.ops[i].ConfigFind? && (err || s.ops[i].user !in s.users)
       case InFetch(k, ReadFile(err)) => k == i && s.ops[i].ConfigRead? && (err || s.ops[i].name !in s.files)
       case _ => false
  }

  /** After its statement call `i` is refused, and nothing else has changed, just if the statement refuses it. */
  ghost predicate RefusedNow(s: State, step: Step, t: State, i: nat) {
    && i < |s.ops| && i < |t.ops|
    && (t.ops[i] == Returned(Rejected) <==> s.ops[i] == Returned(Rejected) || Refuses(s, step, i))
    && (Refuses(s, step, i) ==> t == s.(ops := s.ops[i := Returned(Rejected)]))
  }

  lemma CreateRefused(s: State, i: nat, act: CreateStep)
    requires CreateEnabled(s, i, act)
    ensures RefusedNow(s, InCreate(i, act), NextCreate(s, i, act), i)
  {
    match act {
      case CheckName(_) =>
      case InsertUser(_) =>
      case SubmitGenerate =>
    }
  }

  lemma DeleteRefused(s: State, i: nat, act: DeleteStep)
    requires DeleteEnabled(s, i, act)
    ensures RefusedNow(s, InDelete(i, act), NextDelete(s, i, act), i)
  {
    match act {
      case FindUser(_) =>
      case SubmitRevoke =>
      case MarkRevoked(_) =>
      case DropCache(_) =>
    }
  }

  lemma SubmitRefused(s: State, i: nat, act: SubmitStep)
    requires SubmitEnabled(s, i, act)
    ensures RefusedNow(s, InSubmit(i, act), NextSubmit(s, i, act), i)
  {
  }

  lemma FetchRefused(s: State, i: nat, act: FetchStep)
    requires FetchEnabled(s, i, act)
    ensures RefusedNow(s, InFetch(i, act), NextFetch(s, i, act), i)
  {
    match act {
      case GetCached(_) =>
      case FindName(_) =>
      case ReadFile(_) =>
      case SelectRow(_) =>
      case UpdateRow(_) =>
      case InsertRow(_) =>
    }
  }

  lemma OwnRefused(s: State, step: Step, i: nat)
    requires Enabled(s, step) && OfCall(step, i)
    ensures RefusedNow(s, step, Next(s, step), i)
  {
    match step {
      case InCreate(_, act) => CreateRefused(s, i, act);
      case InDelete(_, act) => DeleteRefused(s, i, act);
      case InSubmit(_, act) => SubmitRefused(s, i, act);
      case InFetch(_, act) => FetchRefused(s, i, act);
    }
  }

  /** No one else's step moves a call. */
  lemma OpStays(s: State, step: Step, i: nat)
    requires Enabled(s, step) && i < |s.ops| && !OfCall(step, i)
    ensures i < |Next(s, step).ops| && Next(s, step).ops[i] == s.ops[i]
  {
    match step {
      case Open(call) =>
        OpenFrame(s, call);
        assert NextOpen(s, call).ops[i] == NextOpen(s, call).ops[..|s.ops|][i];
      case InCreate(k, act) => CreateFrame(s, k, act);
      case InDelete(k, act) => DeleteFrame(s, k, act);
      case InSubmit(k, act) => SubmitFrame(s, k, act);
      case InFetch(k, act) => FetchFrame(s, k, act);
      case InJob(w, work) => WorkFrame(s, w, work);
      case InLoop(loop) => LoopFrame(s, loop);
    }
  }

  /** A refusing statement changes nothing but the call it ends. */
  lemma RefusalChangesNothing(s: State, step: Step, i: nat)
    requires Enabled(s, step) && i < |s.ops|
    ensures i < |Next(s, step).ops|
    ensures Next(s, step).ops[i] == Returned(Rejected) <==> s.ops[i] == Returned(Rejected) || Refuses(s, step, i)
    ensures Refuses(s, step, i) ==> Next(s, step) == s.(ops := s.ops[i := Returned(Rejected)])
  {
    if OfCall(step, i) { OwnRefused(s, step, i); } else { OpStays(s, step, i); }
  }

  /** Somewhere in the run a statement of the call refuses it. */
  ghost predicate RefusedIn(s: State, steps: seq<Step>, i: nat)
    requires IsRun(s, steps)
    decreases |steps|
  {
    steps != [] && (Refuses(s, steps[0], i) || RefusedIn(Next(s, steps[0]), steps[1..], i))
  }

  /**
   A call is answered with an error if and only if one of its own statements failed, or found the name taken, the user
   missing or the file missing; failing to look up, to write or to drop cached rows never refuses it.
   */
  lemma {:induction false} RejectedIff(s: State, steps: seq<Step>, i: nat)
    requires IsRun(s, steps) && i < |s.ops|
    ensures i < |After(s, steps).ops|
    ensures After(s, steps).ops[i] == Returned(Rejected) <==> s.ops[i] == Returned(Rejected) || RefusedIn(s, steps, i)
    decreases |steps|
  {
    if steps != [] {
      RefusalChangesNothing(s, steps[0], i);
      RejectedIff(Next(s, steps[0]), steps[1..], i);
    }
  }

  // ---------------------------------------------------------------- where a call stands

  ghost predicate OwnJob(s: State, i: nat, kind: JobKind, user: int, name: string) {
    && i in s.core.jobs && s.core.jobs[i].kind == kind && s.core.jobs[i].user == user && s.core.jobs[i].name == name
  }

  /** What a CreateUser call for this name has done so far. */
  ghost predicate CreateStands(s: State, i: nat, name: string) {
    && i < |s.ops|
    && match s.ops[i]
       case CreateCheck(n) => n == name && i !in s.users && i !in s.core.jobs
       case CreateInsert(n) => n == name && i !in s.users && i !in s.core.jobs
       case CreateSubmit(n) => n == name && KnownAs(s, i, name) && i !in s.core.jobs
       case CreateWait => KnownAs(s, i, name) && OwnJob(s, i, GenerateCert, i, name) && WaitingIn(s, i)
       case Returned(Created) => KnownAs(s, i, name) && OwnJob(s, i, GenerateCert, i, name) && !WaitingIn(s, i)
       case Returned(Rejected) => i !in s.users && i !in s.core.jobs
       case _ => false
  }

  /** What a DeleteUser call for this user has done so far; it may be refused after its job was registered. */
  ghost predicate DeleteStands(s: State, i: nat, user: UserId) {
    && i < |s.ops|
    && match s.ops[i]
       case DeleteFind(u) => u == user && i !in s.core.jobs
       case DeleteSubmit(u, n) => u == user && KnownAs(s, user, n) && i !in s.core.jobs
       case DeleteWait(u) => u == user && RevokeJob(s, i, user) && WaitingIn(s, i)
       case DeleteMark(u) => u == user && RevokeJob(s, i, user) && !WaitingIn(s, i)
       case DeleteDrop(u) => u == user && RevokeJob(s, i, user) && !WaitingIn(s, i)
       case Returned(Deleted) => RevokeJob(s, i, user) && !WaitingIn(s, i)
       case Returned(Rejected) => i in s.core.jobs ==> RevokeJob(s, i, user) && !WaitingIn(s, i)
       case _ => false
  }

  /** The call's job revokes the known user's certificate. */
  ghost predicate RevokeJob(s: State, i: nat, user: UserId) {
    user in s.users && OwnJob(s, i, RevokeCert, user, s.users[user].name)
  }

  /** What a renewal call has done so far. */
  ghost predicate RenewStands(s: State, i: nat, user: UserId, name: string) {
    && i < |s.ops|
    && match s.ops[i]
       case RenewWait => OwnJob(s, i, RenewCert, user, name) && WaitingIn(s, i)
       case Returned(Submitted) => OwnJob(s, i, RenewCert, user, name) && !WaitingIn(s, i)
       case _ => false
  }

  /** What a GetUserConfig call has done so far; it registers nothing. */
  ghost predicate FetchStands(s: State, i: nat, user: UserId) {
    && i < |s.ops| && i !in s.core.jobs
    && match s.ops[i]
       case ConfigCached(u) => u == user
       case ConfigFind(u) => u == user
       case ConfigRead(u, n) => u == user && KnownAs(s, user, n)
       case ConfigSelect(u, _) => u == user
       case ConfigUpdate(u, _, _) => u == user
       case ConfigInsert(u, _) => u == user
       case Returned(Config(u, _)) => u == user
       case Returned(Rejected) => true
       case _ => false
  }

  ghost predicate Stands(s: State, i: nat, call: Call) {
    match call
    case CreateUser(name) => CreateStands(s, i, name)
    case DeleteUser(user) => DeleteStands(s, i, user)
    case RenewCertificate(user, name) => RenewStands(s, i, user, name)
    case GetUserConfig(user) => FetchStands(s, i, user)
  }

  /** Nothing the call's standing rests on has moved. */
  ghost predicate Undisturbed(s: State, t: State, i: nat) {
    && i < |s.ops| && i < |t.ops| && t.ops[i] == s.ops[i]
    && JobsKept(s.core, t.core) && UsersKept(s, t)
    && (i in t.core.jobs ==> i in s.core.jobs) && (i in t.users ==> i in s.users)
    && (WaitingIn(t, i) <==> WaitingIn(s, i))
  }

  lemma StandsOn(s: State, t: State, i: nat, call: Call)
    requires Stands(s, i, call) && Undisturbed(s, t, i)
    ensures Stands(t, i, call)
  {
  }

  lemma CreateElsewhere(s: State, k: nat, act: CreateStep, i: nat)
    requires RegistersOk(s) && CreateEnabled(s, k, act) && i < |s.ops| && i != k
    ensures Undisturbed(s, NextCreate(s, k, act), i)
  {
    assert CallOk(s, k, s.ops[k]);
    JobsKeptAlong(s, InCreate(k, act));
    CreateUsers(s, k, act);
  }

  lemma DeleteElsewhere(s: State, k: nat, act: DeleteStep, i: nat)
    requires RegistersOk(s) && DeleteEnabled(s, k, act) && i < |s.ops| && i != k
    ensures Undisturbed(s, NextDelete(s, k, act), i)
  {
    JobsKeptAlong(s, InDelete(k, act));
    DeleteUsers(s, k, act);
  }

  lemma SubmitElsewhere(s: State, k: nat, act: SubmitStep, i: nat)
    requires RegistersOk(s) && SubmitEnabled(s, k, act) && i < |s.ops| && i != k
    ensures Undisturbed(s, NextSubmit(s, k, act), i)
  {
    JobsKeptAlong(s, InSubmit(k, act));
    SubmitMoves(s, k, act);
  }

  lemma OpenElsewhere(s: State, call: Call, i: nat)
    requires OpenEnabled(s, call) && i < |s.ops|
    ensures Undisturbed(s, NextOpen(s, call), i)
  {
    OpenFrame(s, call);
    JobsKeptAlong(s, Open(call));
    assert NextOpen(s, call).ops[i] == NextOpen(s, call).ops[..|s.ops|][i];
  }

  lemma WorkElsewhere(s: State, w: nat, work: WorkStep, i: nat)
    requires RegistersOk(s) && WorkEnabled(s, w, work) && i < |s.ops|
    ensures Undisturbed(s, NextWork(s, w, work), i)
  {
    WorkFrame(s, w, work);
    WorkRegisters(s, w, work);
    WorkAddsNobody(s, w, work);
  }

  lemma LoopStepElsewhere(s: State, loop: LoopStep, i: nat)
    requires RegistersOk(s) && LoopEnabled(s, loop) && i < |s.ops|
    ensures Undisturbed(s, NextLoop(s, loop), i)
  {
    LoopFrame(s, loop);
    JobsKeptAlong(s, InLoop(loop));
    LoopsKeepWaiting(s.core, Inner(s, loop));
    LoopUsers(s, loop);
  }

  lemma Undisturbs(s: State, step: Step, i: nat)
    requires RegistersOk(s) && Enabled(s, step) && i < |s.ops| && !OfCall(step, i)
    ensures Undisturbed(s, Next(s, step), i)
  {
    match step {
      case Open(call) => OpenElsewhere(s, call, i);
      case InCreate(k, act) => CreateElsewhere(s, k, act, i);
      case InDelete(k, act) => DeleteElsewhere(s, k, act, i);
      case InSubmit(k, act) => SubmitElsewhere(s, k, act, i);
      case InFetch(k, act) => FetchFrame(s, k, act);
      case InJob(w, work) => WorkElsewhere(s, w, work, i);
      case InLoop(loop) => LoopStepElsewhere(s, loop, i);
    }
  }

  // ---------------------------------------------------------------- a call's own statements

  lemma CreateMoves(s: State, i: nat, act: CreateStep, name: string)
    requires CreateEnabled(s, i, act) && CreateStands(s, i, name)
    ensures CreateStands(NextCreate(s, i, act), i, name)
  {
    match act {
      case CheckName(_) =>
      case InsertUser(_) =>
      case SubmitGenerate =>
    }
  }

  lemma DeleteMoves(s: State, i: nat, act: DeleteStep, user: UserId)
    requires DeleteEnabled(s, i, act) && DeleteStands(s, i, user)
    ensures DeleteStands(NextDelete(s, i, act), i, user)
  {
    match act {
      case FindUser(_) =>
      case SubmitRevoke =>
      case MarkRevoked(_) =>
      case DropCache(_) =>
    }
  }

  lemma SubmitMovesOn(s: State, i: nat, act: SubmitStep, call: Call)
    requires SubmitEnabled(s, i, act) && Stands(s, i, call)
    ensures Stands(NextSubmit(s, i, act), i, call)
  {
    SubmitMoves(s, i, act);
  }

  lemma FetchMoves(s: State, i: nat, act: FetchStep, user: UserId)
    requires FetchEnabled(s, i, act) && FetchStands(s, i, user)
    ensures FetchStands(NextFetch(s, i, act), i, user)
  {
    match act {
      case GetCached(hit) => CachedMoves(s, i, hit, user);
      case FindName(err) => FindMoves(s, i, err, user);
      case ReadFile(err) => ReadMoves(s, i, err, user);
      case SelectRow(hit) => SelectMoves(s, i, hit, user);
      case UpdateRow(err) => UpdateMoves(s, i, err, user);
      case InsertRow(err) => InsertMoves(s, i, err, user);
    }
  }

  lemma CachedMoves(s: State, i: nat, hit: Lookup, user: UserId)
    requires FetchEnabled(s, i, GetCached(hit)) && FetchStands(s, i, user)
    ensures FetchStands(NextFetch(s, i, GetCached(hit)), i, user)
  {
  }

  lemma FindMoves(s: State, i: nat, err: bool, user: UserId)
    requires FetchEnabled(s, i, FindName(err)) && FetchStands(s, i, user)
    ensures FetchStands(NextFetch(s, i, FindName(err)), i, user)
  {
  }

  lemma ReadMoves(s: State, i: nat, err: bool, user: UserId)
    requires FetchEnabled(s, i, ReadFile(err)) && FetchStands(s, i, user)
    ensures FetchStands(NextFetch(s, i, ReadFile(err)), i, user)
  {
  }

  lemma SelectMoves(s: State, i: nat, hit: Lookup, user: UserId)
    requires FetchEnabled(s, i, SelectRow(hit)) && FetchStands(s, i, user)
    ensures FetchStands(NextFetch(s, i, SelectRow(hit)), i, user)
  {
  }

  lemma UpdateMoves(s: State, i: nat, err: bool, user: UserId)
    requires FetchEnabled(s, i, UpdateRow(err)) && FetchStands(s, i, user)
    ensures FetchStands(NextFetch(s, i, UpdateRow(err)), i, user)
  {
    var t := NextFetch(s, i, UpdateRow(err));
    assert t.ops == s.ops[i := Returned(Config(s.ops[i].user, s.ops[i].copy))];
    assert t.core == s.core && t.users == s.users;
  }

  lemma InsertMoves(s: State, i: nat, err: bool, user: UserId)
    requires FetchEnabled(s, i, InsertRow(err)) && FetchStands(s, i, user)
    ensures FetchStands(NextFetch(s, i, InsertRow(err)), i, user)
  {
  }

  lemma OwnMoves(s: State, step: Step, i: nat, call: Call)
    requires Enabled(s, step) && OfCall(step, i) && Stands(s, i, call)
    ensures Stands(Next(s, step), i, call)
  {
    match step {
      case InCreate(_, act) => CreateMoves(s, i, act, call.name);
      case InDelete(_, act) => DeleteMoves(s, i, act, call.user);
      case InSubmit(_, act) => SubmitMovesOn(s, i, act, call);
      case InFetch(_, act) => FetchMoves(s, i, act, call.user);
    }
  }

  lemma Opened(s: State, call: Call)
    requires RegistersOk(s) && OpenEnabled(s, call)
    ensures Stands(NextOpen(s, call), |s.ops|, call)
  {
    forall id | id in s.core.jobs ensures id < |s.ops| { assert JobOk(s, id); }
    match call {
      case CreateUser(_) =>
      case DeleteUser(_) =>
      case RenewCertificate(_, _) =>
      case GetUserConfig(_) =>
    }
  }

  lemma {:induction false} StandsAlong(s: State, steps: seq<Step>, i: nat, call: Call)
    requires RegistersOk(s) && IsRun(s, steps) && Stands(s, i, call)
    ensures Stands(After(s, steps), i, call)
    decreases |steps|
  {
    if steps != [] {
      var t := Next(s, steps[0]);
      RegistersStep(s, steps[0]);
      if OfCall(steps[0], i) {
        OwnMoves(s, steps[0], i, call);
      } else {
        Undisturbs(s, steps[0], i);
        StandsOn(s, t, i, call);
      }
      StandsAlong(t, steps[1..], i, call);
    }
  }

  /**
   From its opening on, in every run, a call stands where its statements have brought it, and what it has done is
   there: CreateUser has its own user, of the name asked for, and its own generate job exactly from the insertion
   and the registration on, none of both if refused; DeleteUser and the renewal register a job for the user asked
   for; GetUserConfig registers nothing and answers with a config of the user asked for or an error.
   */
  lemma CallStands(s: State, call: Call, steps: seq<Step>)
    requires Reachable(s) && Enabled(s, Open(call)) && IsRun(Next(s, Open(call)), steps)
    ensures Stands(After(Next(s, Open(call)), steps), |s.ops|, call)
  {
    ReachableOk(s);
    Opened(s, call);
    RegistersStep(s, Open(call));
    StandsAlong(Next(s, Open(call)), steps, |s.ops|, call);
  }

  /** A call that has not returned can always make its next statement; one that waits for the queue can give up. */
  lemma CallCanMove(s: State, i: nat)
    requires Reachable(s) && i < |s.ops| && !s.ops[i].Returned?
    ensures exists step :: OfCall(step, i) && Enabled(s, step)
    ensures Submitting(s.ops[i]) ==> Enabled(s, InSubmit(i, Abort))
  {
    ReachableOk(s);
    assert CallOk(s, i, s.ops[i]);
    var step := StatementOf(s.ops[i], i);
    assert OfCall(step, i) && Enabled(s, step);
  }

  /** The statement a call stands at, failing where it can. */
  function StatementOf(op: Op, i: nat): Step {
    match op
    case CreateCheck(_) => InCreate(i, CheckName(true))
    case CreateInsert(_) => InCreate(i, InsertUser(true))
    case CreateSubmit(_) => InCreate(i, SubmitGenerate)
    case DeleteFind(_) => InDelete(i, FindUser(true))
    case DeleteSubmit(_, _) => InDelete(i, SubmitRevoke)
    case DeleteMark(_) => InDelete(i, MarkRevoked(true))
    case DeleteDrop(_) => InDelete(i, DropCache(true))
    case ConfigCached(_) => InFetch(i, GetCached(DbError))
    case ConfigFind(_) => InFetch(i, FindName(true))
    case ConfigRead(_, _) => InFetch(i, ReadFile(true))
    case ConfigSelect(_, _) => InFetch(i, SelectRow(DbError))
    case ConfigUpdate(_, _, _) => InFetch(i, UpdateRow(true))
    case ConfigInsert(_, _) => InFetch(i, InsertRow(true))
    case _ => InSubmit(i, Abort)
  }

  /** The two arms of the select: the call goes on alike, with its job at the end of the queue or never sent. */
  lemma SubmitEither(s: State, i: nat, act: SubmitStep)
    requires Reachable(s) && Enabled(s, InSubmit(i, act))
    ensures var t := Next(s, InSubmit(i, act));
            && i < |t.ops|
            && t.ops[i] == (match s.ops[i]
                            case CreateWait => Returned(Created)
                            case DeleteWait(user) => DeleteMark(user)
                            case _ => Returned(Submitted))
            && t.core.jobs == s.core.jobs && t.users == s.users && t.cache == s.cache && t.files == s.files
            && t.core.queue == (if act.Send? then s.core.queue + [i] else s.core.queue)
            && i in t.core.stage && t.core.stage[i] == if act.Send? then Queued else Aborted
  {
  }

  // ---------------------------------------------------------------- the cached rows

  /** What a step does to a cached row. */
  ghost predicate CacheChange(s: State, step: Step, t: State, r: RowId) {
    if step == InFetch(r, InsertRow(false)) then
      && r < |s.ops| && s.ops[r].ConfigInsert?
      && r in t.cache && t.cache[r] == CacheRow(s.ops[r].user, s.ops[r].copy)
    else if Overwrites(s, step, r) then
      r in t.cache && t.cache[r] == CacheRow(s.cache[r].user, s.ops[step.i].copy)
    else if DropsRow(s, step, r) then r !in t.cache
    else (r in t.cache <==> r in s.cache) && (r in s.cache ==> t.cache[r] == s.cache[r])
  }

  predicate Overwrites(s: State, step: Step, r: RowId) {
    && step.InFetch? && step.fetch == UpdateRow(false) && step.i < |s.ops| && s.ops[step.i].ConfigUpdate?
    && s.ops[step.i].row == r && r in s.cache
  }

  predicate DropsRow(s: State, step: Step, r: RowId) {
    && step.InDelete? && step.delete == DropCache(false) && step.i < |s.ops| && s.ops[step.i].DeleteDrop?
    && r in s.cache && s.cache[r].user == s.ops[step.i].user
  }

  lemma FetchCache(s: State, i: nat, act: FetchStep, r: RowId)
    requires FetchEnabled(s, i, act)
    ensures CacheChange(s, InFetch(i, act), NextFetch(s, i, act), r)
  {
    match act {
      case GetCached(_) =>
      case FindName(_) =>
      case ReadFile(_) =>
      case SelectRow(_) =>
      case UpdateRow(_) =>
      case InsertRow(_) =>
    }
  }

  lemma DeleteCache(s: State, i: nat, act: DeleteStep, r: RowId)
    requires DeleteEnabled(s, i, act)
    ensures CacheChange(s, InDelete(i, act), NextDelete(s, i, act), r)
  {
    match act {
      case FindUser(_) =>
      case SubmitRevoke =>
      case MarkRevoked(_) =>
      case DropCache(_) =>
    }
  }

  /**
   A cached row comes from the insertion of the call of its number, changes by the update of a call that found it,
   goes when a deletion drops its user's rows, and is touched by nothing else.
   */
  lemma CacheAfter(s: State, step: Step, r: RowId)
    requires Enabled(s, step)
    ensures CacheChange(s, step, Next(s, step), r)
  {
    match step {
      case Open(call) => OpenFrame(s, call);
      case InCreate(i, act) => CreateFrame(s, i, act);
      case InDelete(i, act) => DeleteCache(s, i, act, r);
      case InSubmit(i, act) => SubmitFrame(s, i, act);
      case InFetch(i, act) => FetchCache(s, i, act, r);
      case InJob(w, work) => WorkFrame(s, w, work);
      case InLoop(loop) => LoopFrame(s, loop);
    }
  }

  // ---------------------------------------------------------------- names

  /** One to thirty-two letters, digits, underscores and hyphens, the letters of ASCII only. */
  ghost predicate PlainName(name: string) {
    && name != "" && |name| < 33
    && forall k :: 0 <= k < |name| ==>
         var c := name[k] as int; 97 <= c <= 122 || 65 <= c <= 90 || 48 <= c <= 57 || c == 95 || c == 45
  }

  lemma ValidIsPlain(name: string)
    ensures ValidUsername(name) <==> PlainName(name)
  {
  }

  ghost predicate NamesPlain(s: State) {
    && (forall i :: 0 <= i < |s.ops| && (s.ops[i].CreateCheck? || s.ops[i].CreateInsert?) ==> PlainName(s.ops[i].name))
    && (forall u :: u in s.users ==> PlainName(s.users[u].name))
  }

  lemma CreatingBefore(s: State, step: Step, i: nat)
    requires Enabled(s, step) && i < |Next(s, step).ops|
    requires Next(s, step).ops[i].CreateCheck? || Next(s, step).ops[i].CreateInsert?
    ensures || step == Open(CreateUser(Next(s, step).ops[i].name))
            || (i < |s.ops| && (s.ops[i].CreateCheck? || s.ops[i].CreateInsert?)
                && s.ops[i].name == Next(s, step).ops[i].name)
  {
    match step {
      case Open(call) =>
        OpenFrame(s, call);
        if i < |s.ops| { assert NextOpen(s, call).ops[i] == NextOpen(s, call).ops[..|s.ops|][i]; }
      case InCreate(k, act) => CreateFrame(s, k, act);
      case InDelete(k, act) =>
        DeleteFrame(s, k, act);
        if k == i { DeleteNeverCreates(s, k, act); }
      case InSubmit(k, act) => SubmitFrame(s, k, act);
      case InFetch(k, act) =>
        FetchFrame(s, k, act);
        if k == i { FetchNeverCreates(s, k, act); }
      case InJob(w, work) => WorkFrame(s, w, work);
      case InLoop(loop) => LoopFrame(s, loop);
    }
  }

  lemma DeleteNeverCreates(s: State, i: nat, act: DeleteStep)
    requires DeleteEnabled(s, i, act) && |NextDelete(s, i, act).ops| == |s.ops|
    ensures !NextDelete(s, i, act).ops[i].CreateCheck? && !NextDelete(s, i, act).ops[i].CreateInsert?
  {
    match act {
      case FindUser(_) =>
      case SubmitRevoke =>
      case MarkRevoked(_) =>
      case DropCache(_) =>
    }
  }

  lemma FetchNeverCreates(s: State, i: nat, act: FetchStep)
    requires FetchEnabled(s, i, act) && |NextFetch(s, i, act).ops| == |s.ops|
    ensures !NextFetch(s, i, act).ops[i].CreateCheck? && !NextFetch(s, i, act).ops[i].CreateInsert?
  {
    if act.GetCached? || act.FindName? || act.ReadFile? { FetchLooks(s, i, act); } else { FetchSaves(s, i, act); }
  }

  lemma NamesStep(s: State, step: Step)
    requires RegistersOk(s) && NamesPlain(s) && Enabled(s, step)
    ensures NamesPlain(Next(s, step))
  {
    var t := Next(s, step);
    forall i | 0 <= i < |t.ops| && (t.ops[i].CreateCheck? || t.ops[i].CreateInsert?) ensures PlainName(t.ops[i].name) {
      CreatingBefore(s, step, i);
      ValidIsPlain(t.ops[i].name);
    }
    forall u | u in t.users ensures PlainName(t.users[u].name) {
      if u in s.users { RowAfter(s, step, u); } else { UserAdded(s, step, u); }
    }
  }

  lemma {:induction false} NamesAlong(s: State, steps: seq<Step>)
    requires RegistersOk(s) && NamesPlain(s) && IsRun(s, steps)
    ensures NamesPlain(After(s, steps))
    decreases |steps|
  {
    if steps != [] {
      RegistersStep(s, steps[0]);
      NamesStep(s, steps[0]);
      NamesAlong(Next(s, steps[0]), steps[1..]);
    }
  }

  /** Every user has a plain name, and so has every config file. */
  lemma NamesArePlain(workers: nat, capacity: nat, steps: seq<Step>)
    requires IsRun(Boot(workers, capacity), steps)
    ensures var t := After(Boot(workers, capacity), steps);
            && (forall u :: u in t.users ==> PlainName(t.users[u].name))
            && (forall name :: name in t.files ==> PlainName(name))
  {
    var b := Boot(workers, capacity);
    BootOk(workers, capacity);
    NamesAlong(b, steps);
    RunKeeps(b, steps);
    var t := After(b, steps);
    forall name | name in t.files ensures PlainName(name) { assert FileOk(t, name); }
  }
}
