/**
 The certificate worker together with the user service around it: user rows, cached
 configs, .ovpn files and any number of service calls in flight, interleaved with the
 pipeline's goroutines.

 Every step is one statement that other goroutines can observe the effect of. Outcomes
 that the database, the file system or easy-rsa decide are arguments of the step.

 A call is named by its position in `ops`. The identifiers a call generates (a user's, a
 job's, a cache row's) are that position: identifiers are only ever compared for equality
 and a generated one is new.
 */
module CertService {
  import opened JobPipeline

  type UserId = int
  type RowId = nat
  type Data = seq<char>

  datatype UserStatus = Inactive | Active | Revoked

  datatype User = User(name: string, status: UserStatus, serial: string)

  /**
   A config read from a file; `torn` records, and steers nothing, that a worker still had bytes of it to
   write when it was read.
   */
  datatype Copy = Copy(data: Data, torn: bool)

  datatype CacheRow = CacheRow(user: UserId, copy: Copy)

  datatype Lookup = Found(row: RowId) | NoRow | DbError

  /** What a service call answered. */
  datatype Reply = Created | Rejected | Deleted | Submitted | Config(user: UserId, copy: Copy)

  /** The program counter of a service call. */
  datatype Op =
    | CreateCheck(name: string)
    | CreateInsert(name: string)
    | CreateSubmit(name: string)
    | CreateWait
    | DeleteFind(user: UserId)
    | DeleteSubmit(user: UserId, name: string)
    | DeleteWait(user: UserId)
    | DeleteMark(user: UserId)
    | DeleteDrop(user: UserId)
    | RenewWait
    | ConfigCached(user: UserId)
    | ConfigFind(user: UserId)
    | ConfigRead(user: UserId, name: string)
    | ConfigSelect(user: UserId, copy: Copy)
    | ConfigUpdate(user: UserId, copy: Copy, row: RowId)
    | ConfigInsert(user: UserId, copy: Copy)
    | Returned(reply: Reply)

  /** Where a worker is inside a job that is "processing". */
  datatype Phase =
    | Resting
    | Issuing
    | Rendering
    | Writing(data: Data, done: nat)
    | Inspecting
    | Reading(serial: string)
    | Storing(row: User)
    | Revoking
    | Removing
    | Finishing(ok: bool)

  /**
   `written`, `deletes`, `landed` and `effects` record history and steer nothing: what each user's own job has
   put into its file so far; users DeleteUser was called on; users for whom the collector stored "revoked"; and
   the status updates the collector issued.
   */
  datatype State = State(
    core: Core,
    phases: seq<Phase>,
    ops: seq<Op>,
    users: map<UserId, User>,
    cache: map<RowId, CacheRow>,
    files: map<string, Data>,
    written: map<UserId, Data>,
    deletes: set<UserId>,
    landed: set<UserId>,
    effects: seq<(UserId, UserStatus)>)

  /** The service calls a client can make. */
  datatype Call =
    | CreateUser(name: string)
    | DeleteUser(user: UserId)
    | RenewCertificate(user: UserId, name: string)
    | GetUserConfig(user: UserId)

  /** The statements of CreateUser. */
  datatype CreateStep = CheckName(err: bool) | InsertUser(err: bool) | SubmitGenerate

  /** The statements of DeleteUser. */
  datatype DeleteStep = FindUser(err: bool) | SubmitRevoke | MarkRevoked(err: bool) | DropCache(err: bool)

  /** The two arms of the select in SubmitJob. */
  datatype SubmitStep = Send | Abort

  /** The statements of GetUserConfig, down to those of the cache table's Save. */
  datatype FetchStep =
    | GetCached(hit: Lookup)
    | FindName(err: bool)
    | ReadFile(err: bool)
    | SelectRow(hit: Lookup)
    | UpdateRow(err: bool)
    | InsertRow(err: bool)

  /** One statement of generateCertificate or revokeCertificate. */
  datatype WorkStep =
    | Issue(ok: bool)
    | Render(ok: bool, content: Data)
    | Append(n: nat)
    | EndWrite(ok: bool)
    | Inspect(serial: string)
    | LoadUser(err: bool)
    | StoreUser(err: bool)
    | RevokeCertificate(ok: bool)
    | RemoveFile(ok: bool)

  /** One action of a worker or collector loop, or the close in Stop. */
  datatype LoopStep =
    | TakeJob(w: nat)
    | BeginJob(w: nat)
    | FinishJob(w: nat)
    | PostJob(w: nat)
    | LeaveWorker(w: nat)
    | ReceiveResult
    | CollectResult(err: bool)
    | LeaveCollector
    | Shutdown

  datatype Step =
    | Open(call: Call)
    | InCreate(i: nat, create: CreateStep)
    | InDelete(i: nat, delete: DeleteStep)
    | InSubmit(i: nat, submit: SubmitStep)
    | InFetch(i: nat, fetch: FetchStep)
    | InJob(w: nat, work: WorkStep)
    | InLoop(loop: LoopStep)

  // ---------------------------------------------------------------- reading a state

  predicate InPhase(s: State, w: nat) {
    w < |s.core.workers| && w < |s.phases| && s.core.workers[w].Working?
    && s.core.workers[w].job in s.core.jobs
  }

  function JobOf(s: State, w: nat): Job
    requires InPhase(s, w)
  {
    s.core.jobs[s.core.workers[w].job]
  }

  predicate NameTaken(s: State, name: string) {
    exists u :: u in s.users && s.users[u].name == name
  }

  predicate HasRow(s: State, user: UserId) {
    exists r :: r in s.cache && s.cache[r].user == user
  }

  /** Some worker has bytes of the user's config file still to write. */
  predicate Unfinished(s: State, user: UserId) {
    exists w: nat :: w < |s.phases| && InPhase(s, w) && MidWrite(s.phases[w]) && JobOf(s, w).user == user
  }

  predicate MidWrite(p: Phase) {
    p.Writing? && p.done < |p.data|
  }

  predicate ValidUsername(name: string) {
    && 1 <= |name| <= 32
    && forall i :: 0 <= i < |name| ==>
         'a' <= name[i] <= 'z' || 'A' <= name[i] <= 'Z' || '0' <= name[i] <= '9' || name[i] in "_-"
  }

  /** A query answers with a row of that user, with the absence of one, or with an error. */
  predicate LookupHonest(s: State, user: UserId, hit: Lookup) {
    match hit
    case Found(r) => r in s.cache && s.cache[r].user == user
    case NoRow => !HasRow(s, user)
    case DbError => true
  }

  function SetStatus(users: map<UserId, User>, user: UserId, status: UserStatus): map<UserId, User> {
    if user in users then users[user := users[user].(status := status)] else users
  }

  // ---------------------------------------------------------------- service calls

  predicate OpenEnabled(s: State, call: Call) {
    match call
    case CreateUser(name) => ValidUsername(name)
    case RenewCertificate(user, name) => CoreEnabled(s.core, Register(|s.ops|, RenewCert, user, name))
    case _ => true
  }

  function NextOpen(s: State, call: Call): State
    requires OpenEnabled(s, call)
  {
    match call
    case CreateUser(name) => s.(ops := s.ops + [CreateCheck(name)])
    case DeleteUser(user) => s.(ops := s.ops + [DeleteFind(user)], deletes := s.deletes + {user})
    case RenewCertificate(user, name) =>
      s.(ops := s.ops + [RenewWait], core := CoreNext(s.core, Register(|s.ops|, RenewCert, user, name)))
    case GetUserConfig(user) => s.(ops := s.ops + [ConfigCached(user)])
  }

  predicate Submitting(op: Op) {
    op.CreateWait? || op.DeleteWait? || op.RenewWait?
  }

  function AfterSubmit(op: Op): Op {
    match op
    case CreateWait => Returned(Created)
    case DeleteWait(user) => DeleteMark(user)
    case _ => Returned(Submitted)
  }

  /** The state with call `i` at another statement. */
  function Goto(s: State, i: nat, op: Op): State
    requires i < |s.ops|
  {
    s.(ops := s.ops[i := op])
  }

  predicate CreateEnabled(s: State, i: nat, act: CreateStep) {
    && i < |s.ops|
    && match act
       case CheckName(_) => s.ops[i].CreateCheck?
       case InsertUser(_) => s.ops[i].CreateInsert?
       case SubmitGenerate =>
         s.ops[i].CreateSubmit? && CoreEnabled(s.core, Register(i, GenerateCert, i, s.ops[i].name))
  }

  function NextCreate(s: State, i: nat, act: CreateStep): State
    requires CreateEnabled(s, i, act)
  {
    var name := s.ops[i].name;
    match act
    case CheckName(err) =>
      if err || NameTaken(s, name) then Goto(s, i, Returned(Rejected)) else Goto(s, i, CreateInsert(name))
    case InsertUser(err) =>
      // the table's UNIQUE constraint on the name decides
      if err || NameTaken(s, name) then Goto(s, i, Returned(Rejected))
      else Goto(s, i, CreateSubmit(name)).(users := s.users[i := User(name, Inactive, "")])
    case SubmitGenerate =>
      Goto(s, i, CreateWait).(core := CoreNext(s.core, Register(i, GenerateCert, i, name)))
  }

  predicate DeleteEnabled(s: State, i: nat, act: DeleteStep) {
    && i < |s.ops|
    && match act
       case FindUser(_) => s.ops[i].DeleteFind?
       case SubmitRevoke =>
         s.ops[i].DeleteSubmit? && CoreEnabled(s.core, Register(i, RevokeCert, s.ops[i].user, s.ops[i].name))
       case MarkRevoked(_) => s.ops[i].DeleteMark?
       case DropCache(_) => s.ops[i].DeleteDrop?
  }

  function NextDelete(s: State, i: nat, act: DeleteStep): State
    requires DeleteEnabled(s, i, act)
  {
    var user := s.ops[i].user;
    match act
    case FindUser(err) =>
      if err || user !in s.users then Goto(s, i, Returned(Rejected))
      else Goto(s, i, DeleteSubmit(user, s.users[user].name))
    case SubmitRevoke =>
      Goto(s, i, DeleteWait(user)).(core := CoreNext(s.core, Register(i, RevokeCert, user, s.ops[i].name)))
    case MarkRevoked(err) =>
      if err then Goto(s, i, Returned(Rejected))
      else Goto(s, i, DeleteDrop(user)).(users := SetStatus(s.users, user, Revoked))
    case DropCache(err) =>
      var t := Goto(s, i, Returned(Deleted));
      if err then t else t.(cache := map r | r in s.cache && s.cache[r].user != user :: s.cache[r])
  }

  predicate SubmitEnabled(s: State, i: nat, act: SubmitStep) {
    && i < |s.ops| && Submitting(s.ops[i])
    && CoreEnabled(s.core, if act.Send? then Enqueue(i) else GiveUp(i))
  }

  function NextSubmit(s: State, i: nat, act: SubmitStep): State
    requires SubmitEnabled(s, i, act)
  {
    Goto(s, i, AfterSubmit(s.ops[i])).(core := CoreNext(s.core, if act.Send? then Enqueue(i) else GiveUp(i)))
  }

  predicate FetchEnabled(s: State, i: nat, act: FetchStep) {
    && i < |s.ops|
    && match act
       case GetCached(hit) => s.ops[i].ConfigCached? && LookupHonest(s, s.ops[i].user, hit)
       case FindName(_) => s.ops[i].ConfigFind?
       case ReadFile(_) => s.ops[i].ConfigRead?
       case SelectRow(hit) => s.ops[i].ConfigSelect? && LookupHonest(s, s.ops[i].user, hit)
       case UpdateRow(_) => s.ops[i].ConfigUpdate?
       case InsertRow(_) => s.ops[i].ConfigInsert?
  }

  function NextFetch(s: State, i: nat, act: FetchStep): State
    requires FetchEnabled(s, i, act)
  {
    var op := s.ops[i];
    match act
    case GetCached(hit) =>
      // a row of no bytes, which only a read before the first byte leaves, may come back as no config at all;
      // the call then goes on as after a database error
      if hit.Found? then Goto(s, i, Returned(Config(op.user, s.cache[hit.row].copy)))
      else Goto(s, i, ConfigFind(op.user))
    case FindName(err) =>
      if err || op.user !in s.users then Goto(s, i, Returned(Rejected))
      else Goto(s, i, ConfigRead(op.user, s.users[op.user].name))
    case ReadFile(err) =>
      if err || op.name !in s.files then Goto(s, i, Returned(Rejected))
      else Goto(s, i, ConfigSelect(op.user, Copy(s.files[op.name], Unfinished(s, op.user))))
    case SelectRow(hit) =>
      (match hit
       case Found(r) => Goto(s, i, ConfigUpdate(op.user, op.copy, r))
       case NoRow => Goto(s, i, ConfigInsert(op.user, op.copy))
       case DbError => Goto(s, i, Returned(Config(op.user, op.copy))))
    case UpdateRow(err) =>
      var t := Goto(s, i, Returned(Config(op.user, op.copy)));
      if err || op.row !in s.cache then t
      else t.(cache := s.cache[op.row := s.cache[op.row].(copy := op.copy)])
    case InsertRow(err) =>
      var t := Goto(s, i, Returned(Config(op.user, op.copy)));
      if err then t else t.(cache := s.cache[i := CacheRow(op.user, op.copy)])
  }

  // ---------------------------------------------------------------- a worker inside a job

  predicate WorkEnabled(s: State, w: nat, work: WorkStep) {
    && InPhase(s, w)
    && match work
       case Issue(_) => s.phases[w].Issuing?
       // a rendered config is never empty
       case Render(ok, content) => s.phases[w].Rendering? && (ok ==> content != [])
       case Append(n) => s.phases[w].Writing? && 0 < n && s.phases[w].done + n <= |s.phases[w].data|
       case EndWrite(ok) => s.phases[w].Writing? && (ok ==> s.phases[w].done == |s.phases[w].data|)
       case Inspect(_) => s.phases[w].Inspecting?
       case LoadUser(_) => s.phases[w].Reading?
       case StoreUser(_) => s.phases[w].Storing?
       case RevokeCertificate(_) => s.phases[w].Revoking?
       case RemoveFile(_) => s.phases[w].Removing?
  }

  /** The state with worker `w` in another phase. */
  function Enter(s: State, w: nat, phase: Phase): State
    requires w < |s.phases|
  {
    s.(phases := s.phases[w := phase])
  }

  function NextWork(s: State, w: nat, work: WorkStep): State
    requires WorkEnabled(s, w, work)
  {
    var j, p := JobOf(s, w), s.phases[w];
    match work
    case Issue(ok) => Enter(s, w, if ok then Rendering else Finishing(false))
    case Render(ok, content) =>
      // opening the config file truncates or creates it
      if !ok then Enter(s, w, Finishing(false))
      else Enter(s, w, Writing(content, 0)).(files := s.files[j.name := []], written := s.written[j.user := []])
    case Append(n) =>
      // a file removed meanwhile stays removed
      var soFar := p.data[..p.done + n];
      Enter(s, w, Writing(p.data, p.done + n)).(
        files := if j.name in s.files then s.files[j.name := soFar] else s.files,
        written := s.written[j.user := soFar])
    case EndWrite(ok) => Enter(s, w, if ok then Inspecting else Finishing(false))
    case Inspect(serial) => Enter(s, w, if serial == "" then Finishing(true) else Reading(serial))
    case LoadUser(err) =>
      Enter(s, w, if err || j.user !in s.users then Finishing(true)
                  else Storing(s.users[j.user].(serial := p.serial)))
    case StoreUser(err) =>
      // the whole row goes back, the status read earlier with it
      Enter(s, w, Finishing(true)).(
        users := if err || j.user !in s.users then s.users else s.users[j.user := p.row])
    case RevokeCertificate(ok) => Enter(s, w, if ok then Removing else Finishing(false))
    case RemoveFile(ok) =>
      Enter(s, w, Finishing(true)).(files := if ok then s.files - {j.name} else s.files)
  }

  // ---------------------------------------------------------------- the loops

  /** The pipeline's own step behind a loop action. */
  function Inner(s: State, loop: LoopStep): CoreStep {
    match loop
    case TakeJob(w) => Take(w)
    case BeginJob(w) => Begin(w)
    case FinishJob(w) => Finish(w, w < |s.phases| && s.phases[w] == Finishing(true))
    case PostJob(w) => Post(w)
    case LeaveWorker(w) => ExitWorker(w)
    case ReceiveResult => Receive
    case CollectResult(_) => Collect
    case LeaveCollector => ExitCollector
    case Shutdown => Close
  }

  predicate LoopEnabled(s: State, loop: LoopStep) {
    && CoreEnabled(s.core, Inner(s, loop))
    && match loop
       case BeginJob(w) => w < |s.phases|
       case FinishJob(w) => w < |s.phases| && s.phases[w].Finishing?
       case CollectResult(_) => s.core.collector.job in s.core.jobs
       case _ => true
  }

  function FirstPhase(kind: JobKind): Phase {
    match kind
    case GenerateCert => Issuing
    case RevokeCert => Revoking
    case RenewCert => Finishing(false)
  }

  /** The status update the collector issues for a job, if any. */
  function EffectOf(j: Job): seq<(UserId, UserStatus)> {
    if !j.status.Completed? then []
    else match j.kind
      case GenerateCert => [(j.user, Active)]
      case RevokeCert => [(j.user, Revoked)]
      case RenewCert => []
  }

  function NextLoop(s: State, loop: LoopStep): State
    requires LoopEnabled(s, loop)
  {
    var t := s.(core := CoreNext(s.core, Inner(s, loop)));
    match loop
    case BeginJob(w) => Enter(t, w, FirstPhase(s.core.jobs[s.core.workers[w].job].kind))
    case FinishJob(w) => Enter(t, w, Resting)
    case CollectResult(err) =>
      var e := EffectOf(s.core.jobs[s.core.collector.job]);
      if e == [] then t
      else t.(effects := s.effects + e,
              users := if err then s.users else SetStatus(s.users, e[0].0, e[0].1),
              landed := if err || !e[0].1.Revoked? then s.landed else s.landed + {e[0].0})
    case _ => t
  }

  // ---------------------------------------------------------------- all steps

  predicate Enabled(s: State, step: Step) {
    match step
    case Open(call) => OpenEnabled(s, call)
    case InCreate(i, act) => CreateEnabled(s, i, act)
    case InDelete(i, act) => DeleteEnabled(s, i, act)
    case InSubmit(i, act) => SubmitEnabled(s, i, act)
    case InFetch(i, act) => FetchEnabled(s, i, act)
    case InJob(w, work) => WorkEnabled(s, w, work)
    case InLoop(loop) => LoopEnabled(s, loop)
  }

  function Next(s: State, step: Step): State
    requires Enabled(s, step)
  {
    match step
    case Open(call) => NextOpen(s, call)
    case InCreate(i, act) => NextCreate(s, i, act)
    case InDelete(i, act) => NextDelete(s, i, act)
    case InSubmit(i, act) => NextSubmit(s, i, act)
    case InFetch(i, act) => NextFetch(s, i, act)
    case InJob(w, work) => NextWork(s, w, work)
    case InLoop(loop) => NextLoop(s, loop)
  }

  // ---------------------------------------------------------------- runs

  /** A service just started on an empty database and an empty clients directory. */
  function Boot(workers: nat, capacity: nat): State {
    State(Start(workers, capacity), seq(workers, _ => Resting), [], map[], map[], map[], map[], {}, {}, [])
  }

  ghost predicate IsRun(s: State, steps: seq<Step>)
    decreases |steps|
  {
    steps != [] ==> Enabled(s, steps[0]) && IsRun(Next(s, steps[0]), steps[1..])
  }

  ghost function After(s: State, steps: seq<Step>): State
    requires IsRun(s, steps)
    decreases |steps|
  {
    if steps == [] then s else After(Next(s, steps[0]), steps[1..])
  }

  lemma {:induction false} RunConcat(s: State, front: seq<Step>, back: seq<Step>)
    requires IsRun(s, front) && IsRun(After(s, front), back)
    ensures IsRun(s, front + back) && After(s, front + back) == After(After(s, front), back)
    decreases |front|
  {
    if front == [] {
      assert [] + back == back;
    } else {
      RunConcat(Next(s, front[0]), front[1..], back);
      assert (front + back)[1..] == front[1..] + back;
    }
  }

  lemma RunSnoc(s: State, steps: seq<Step>, step: Step)
    requires IsRun(s, steps) && Enabled(After(s, steps), step)
    ensures IsRun(s, steps + [step]) && After(s, steps + [step]) == Next(After(s, steps), step)
  {
    assert [step][1..] == [];
    RunConcat(s, steps, [step]);
  }
}
