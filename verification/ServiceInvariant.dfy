/** What every step of the service keeps, for any number of workers. */
module ServiceInvariant {
  import opened JobPipeline
  import opened PipelineFacts
  import opened CertService

  // ---------------------------------------------------------------- the pipeline inside

  lemma CreateCore(s: State, i: nat, act: CreateStep)
    requires CreateEnabled(s, i, act)
    ensures act.SubmitGenerate? ==> CoreEnabled(s.core, Register(i, GenerateCert, i, s.ops[i].name))
    ensures NextCreate(s, i, act).core ==
            if act.SubmitGenerate? then CoreNext(s.core, Register(i, GenerateCert, i, s.ops[i].name)) else s.core
  {
  }

  lemma DeleteCore(s: State, i: nat, act: DeleteStep)
    requires DeleteEnabled(s, i, act)
    ensures act.SubmitRevoke? ==> CoreEnabled(s.core, Register(i, RevokeCert, s.ops[i].user, s.ops[i].name))
    ensures NextDelete(s, i, act).core ==
            if act.SubmitRevoke? then CoreNext(s.core, Register(i, RevokeCert, s.ops[i].user, s.ops[i].name))
            else s.core
  {
  }

  lemma FetchCore(s: State, i: nat, act: FetchStep)
    requires FetchEnabled(s, i, act)
    ensures NextFetch(s, i, act).core == s.core
  {
    match act {
      case GetCached(_) =>
      case FindName(_) =>
      case ReadFile(_) =>
      case SelectRow(_) =>
      case UpdateRow(_) =>
      case InsertRow(_) =>
    }
  }

  lemma LoopCore(s: State, loop: LoopStep)
    requires LoopEnabled(s, loop)
    ensures NextLoop(s, loop).core == CoreNext(s.core, Inner(s, loop))
  {
  }

  /** Every step is one step of the pipeline or leaves it alone. */
  lemma CoreOfStep(s: State, step: Step) returns (moved: bool, c: CoreStep)
    requires Enabled(s, step)
    ensures moved ==> CoreEnabled(s.core, c) && Next(s, step).core == CoreNext(s.core, c)
    ensures !moved ==> Next(s, step).core == s.core
    ensures moved && c.Collect? ==> step.InLoop? && step.loop.CollectResult?
    ensures moved && c.Register? && c.kind.GenerateCert? ==> step == InCreate(c.id, SubmitGenerate)
    ensures moved && c.Register? && c.kind.RevokeCert? ==>
              step == InDelete(c.id, SubmitRevoke) && c.user == s.ops[c.id].user
  {
    moved, c := false, Close;
    match step {
      case Open(call) =>
        if call.RenewCertificate? {
          moved, c := true, Register(|s.ops|, RenewCert, call.user, call.name);
        }
      case InCreate(i, act) =>
        CreateCore(s, i, act);
        if act.SubmitGenerate? { moved, c := true, Register(i, GenerateCert, i, s.ops[i].name); }
      case InDelete(i, act) =>
        DeleteCore(s, i, act);
        if act.SubmitRevoke? { moved, c := true, Register(i, RevokeCert, s.ops[i].user, s.ops[i].name); }
      case InSubmit(i, act) => moved, c := true, if act.Send? then Enqueue(i) else GiveUp(i);
      case InFetch(i, act) => FetchCore(s, i, act);
      case InJob(_, _) =>
      case InLoop(loop) =>
        LoopCore(s, loop);
        moved, c := true, Inner(s, loop);
    }
  }

  ghost predicate PipelineOk(s: State) {
    CoreInv(s.core) && Conserved(s.core)
  }

  lemma PipelineStep(s: State, step: Step)
    requires PipelineOk(s) && Enabled(s, step)
    ensures PipelineOk(Next(s, step))
  {
    var moved, c := CoreOfStep(s, step);
    if moved {
      CoreStepInv(s.core, c);
      ConservedStep(s.core, c);
    }
  }

  // ---------------------------------------------------------------- phases

  ghost predicate PhaseFits(kind: JobKind, phase: Phase) {
    match phase
    case Resting => false
    case Issuing => kind.GenerateCert?
    case Rendering => kind.GenerateCert?
    case Writing(data, done) => kind.GenerateCert? && done <= |data|
    case Inspecting => kind.GenerateCert?
    case Reading(_) => kind.GenerateCert?
    case Storing(_) => kind.GenerateCert?
    case Revoking => kind.RevokeCert?
    case Removing => kind.RevokeCert?
    case Finishing(ok) => kind.RenewCert? ==> !ok
  }

  ghost predicate PhasesOk(s: State) {
    && |s.phases| == |s.core.workers|
    && forall w :: 0 <= w < |s.core.workers| && s.core.workers[w].Working? ==>
         s.core.workers[w].job in s.core.jobs
         && PhaseFits(s.core.jobs[s.core.workers[w].job].kind, s.phases[w])
  }

  // ---------------------------------------------------------------- frames

  /** What opening a call leaves alone. */
  lemma OpenFrame(s: State, call: Call)
    requires OpenEnabled(s, call)
    ensures var t := NextOpen(s, call);
            && t.phases == s.phases && t.users == s.users && t.cache == s.cache && t.files == s.files
            && t.written == s.written && t.landed == s.landed && t.effects == s.effects
            && s.deletes <= t.deletes && t.core.workers == s.core.workers
            && |t.ops| == |s.ops| + 1 && t.ops[..|s.ops|] == s.ops
  {
    match call {
      case CreateUser(_) =>
      case DeleteUser(_) =>
      case RenewCertificate(_, _) =>
      case GetUserConfig(_) =>
    }
  }

  /** What a service call's statement leaves alone: the workers, the files, every other call. */
  ghost predicate CallFrame(s: State, t: State, i: nat)
    requires i < |s.ops|
  {
    && t.phases == s.phases && t.files == s.files && t.written == s.written
    && t.landed == s.landed && t.effects == s.effects && t.deletes == s.deletes
    && t.core.workers == s.core.workers && t.core.collector == s.core.collector
    && |t.ops| == |s.ops| && t.ops == s.ops[i := t.ops[i]]
  }

  lemma CreateFrame(s: State, i: nat, act: CreateStep)
    requires CreateEnabled(s, i, act)
    ensures var t := NextCreate(s, i, act); CallFrame(s, t, i) && t.cache == s.cache
  {
    match act {
      case CheckName(_) =>
      case InsertUser(_) =>
      case SubmitGenerate =>
    }
  }

  lemma DeleteFrame(s: State, i: nat, act: DeleteStep)
    requires DeleteEnabled(s, i, act)
    ensures var t := NextDelete(s, i, act); CallFrame(s, t, i)
  {
    match act {
      case FindUser(_) =>
      case SubmitRevoke =>
      case MarkRevoked(_) =>
      case DropCache(_) =>
    }
  }

  lemma SubmitFrame(s: State, i: nat, act: SubmitStep)
    requires SubmitEnabled(s, i, act)
    ensures var t := NextSubmit(s, i, act);
            CallFrame(s, t, i) && t.users == s.users && t.cache == s.cache
  {
  }

  lemma FetchFrame(s: State, i: nat, act: FetchStep)
    requires FetchEnabled(s, i, act)
    ensures var t := NextFetch(s, i, act);
            CallFrame(s, t, i) && t.core == s.core && t.users == s.users
  {
    match act {
      case GetCached(_) => LookFrame(s, i, act);
      case FindName(_) => LookFrame(s, i, act);
      case ReadFile(_) => LookFrame(s, i, act);
      case _ => SaveFrame(s, i, act);
    }
  }

  lemma LookFrame(s: State, i: nat, act: FetchStep)
    requires FetchEnabled(s, i, act) && (act.GetCached? || act.FindName? || act.ReadFile?)
    ensures var t := NextFetch(s, i, act);
            CallFrame(s, t, i) && t.core == s.core && t.users == s.users
  {
    match act {
      case GetCached(_) =>
      case FindName(_) =>
      case ReadFile(_) =>
    }
  }

  lemma SaveFrame(s: State, i: nat, act: FetchStep)
    requires FetchEnabled(s, i, act) && (act.SelectRow? || act.UpdateRow? || act.InsertRow?)
    ensures var t := NextFetch(s, i, act);
            CallFrame(s, t, i) && t.core == s.core && t.users == s.users
  {
    match act {
      case SelectRow(hit) =>
        assert hit.Found? || hit.NoRow? || hit.DbError?;
      case UpdateRow(_) =>
      case InsertRow(_) =>
    }
  }

  /** A loop action changes at most the phase of the worker whose loop it is. */
  lemma LoopFrame(s: State, loop: LoopStep)
    requires LoopEnabled(s, loop)
    ensures var t := NextLoop(s, loop);
            && t.ops == s.ops && t.cache == s.cache && t.files == s.files && t.written == s.written
             && t.deletes == s.deletes && s.landed <= t.landed
            && t.phases == (match loop
                            case BeginJob(w) => s.phases[w := FirstPhase(s.core.jobs[s.core.workers[w].job].kind)]
                            case FinishJob(w) => s.phases[w := Resting]
                            case _ => s.phases)
  {
    match loop {
      case TakeJob(_) =>
      case BeginJob(_) =>
      case FinishJob(_) =>
      case PostJob(_) =>
      case LeaveWorker(_) =>
      case ReceiveResult =>
      case CollectResult(_) =>
      case LeaveCollector =>
      case Shutdown =>
    }
  }

  /** A worker's statement changes its own phase, the user rows and the files. */
  lemma WorkFrame(s: State, w: nat, work: WorkStep)
    requires WorkEnabled(s, w, work)
    ensures var t := NextWork(s, w, work);
            && t.core == s.core && t.ops == s.ops && t.cache == s.cache
            && t.deletes == s.deletes && t.landed == s.landed && t.effects == s.effects
            && |t.phases| == |s.phases| && t.phases == s.phases[w := t.phases[w]]
  {
    match work {
      case Issue(_) =>
      case Render(_, _) =>
      case Append(_) =>
      case EndWrite(_) =>
      case Inspect(_) =>
      case LoadUser(_) =>
      case StoreUser(_) =>
      case RevokeCertificate(_) =>
      case RemoveFile(_) =>
    }
  }

  lemma WorkFits(s: State, w: nat, work: WorkStep)
    requires WorkEnabled(s, w, work) && PhaseFits(JobOf(s, w).kind, s.phases[w])
    ensures w < |NextWork(s, w, work).phases|
    ensures PhaseFits(JobOf(s, w).kind, NextWork(s, w, work).phases[w])
  {
    match work {
      case Issue(_) =>
      case Render(_, _) =>
      case Append(_) =>
      case EndWrite(_) =>
      case Inspect(_) =>
      case LoadUser(_) =>
      case StoreUser(_) =>
      case RevokeCertificate(_) =>
      case RemoveFile(_) =>
    }
  }

  lemma CallPhases(s: State, t: State)
    requires PhasesOk(s) && t.phases == s.phases && t.core.workers == s.core.workers && JobsKept(s.core, t.core)
    ensures PhasesOk(t)
  {
  }

  lemma WorkPhases(s: State, w: nat, work: WorkStep)
    requires PhasesOk(s) && WorkEnabled(s, w, work)
    ensures PhasesOk(NextWork(s, w, work))
  {
    WorkFrame(s, w, work);
    WorkFits(s, w, work);
  }

  lemma LoopPhases(s: State, loop: LoopStep)
    requires PhasesOk(s) && LoopEnabled(s, loop)
    ensures PhasesOk(NextLoop(s, loop))
  {
    LoopFrame(s, loop);
    match loop {
      case TakeJob(_) =>
      case BeginJob(_) =>
      case FinishJob(_) =>
      case PostJob(_) =>
      case LeaveWorker(_) =>
      case ReceiveResult =>
      case CollectResult(_) =>
      case LeaveCollector =>
      case Shutdown =>
    }
  }

  lemma JobsKeptAlong(s: State, step: Step)
    requires Enabled(s, step)
    ensures JobsKept(s.core, Next(s, step).core)
  {
    var moved, c := CoreOfStep(s, step);
    if moved { JobsKeptStep(s.core, c); }
  }

  lemma PhasesStep(s: State, step: Step)
    requires PhasesOk(s) && Enabled(s, step)
    ensures PhasesOk(Next(s, step))
  {
    JobsKeptAlong(s, step);
    match step {
      case Open(call) =>
        OpenFrame(s, call);
        CallPhases(s, NextOpen(s, call));
      case InCreate(i, act) =>
        CreateFrame(s, i, act);
        CallPhases(s, NextCreate(s, i, act));
      case InDelete(i, act) =>
        DeleteFrame(s, i, act);
        CallPhases(s, NextDelete(s, i, act));
      case InSubmit(i, act) =>
        SubmitFrame(s, i, act);
        CallPhases(s, NextSubmit(s, i, act));
      case InFetch(i, act) =>
        FetchFrame(s, i, act);
        CallPhases(s, NextFetch(s, i, act));
      case InJob(w, work) => WorkPhases(s, w, work);
      case InLoop(loop) => LoopPhases(s, loop);
    }
  }
}
