/** The loops always get somewhere: draining before a shutdown, and returning from Stop after one. */
module Progress {
  import opened JobPipeline
  import opened PipelineFacts
  import opened CertService
  import opened ServiceInvariant
  import opened Registers

  /** The steps of the worker and collector goroutines. */
  predicate System(step: Step) {
    step.InJob? || (step.InLoop? && !step.loop.Shutdown?)
  }

  ghost predicate CanRun(s: State) {
    exists step :: System(step) && Enabled(s, step)
  }

  ghost predicate SystemRun(s: State, steps: seq<Step>) {
    IsRun(s, steps) && forall i :: 0 <= i < |steps| ==> System(steps[i])
  }

  // ---------------------------------------------------------------- rank

  function PhaseRank(p: Phase): nat {
    match p
    case Finishing(_) => 1
    case Storing(_) => 2
    case Reading(_) => 3
    case Inspecting => 4
    case Writing(_, _) => 5
    case Rendering => 6
    case Issuing => 7
    case Removing => 2
    case Revoking => 3
    case Resting => 8
  }

  function WorkerRank(w: Worker, p: Phase): nat {
    match w
    case Exited => 0
    case Idle => 1
    case Posting(_) => 4
    case Working(_) => 4 + PhaseRank(p)
    case Taken(_) => 12
  }

  function BytesLeft(w: Worker, p: Phase): nat {
    if w.Working? && p.Writing? && p.done <= |p.data| then |p.data| - p.done else 0
  }

  function WorkerRanks(ws: seq<Worker>, ps: seq<Phase>): nat
    requires |ws| == |ps|
  {
    if ws == [] then 0 else WorkerRank(ws[0], ps[0]) + WorkerRanks(ws[1..], ps[1..])
  }

  function AllBytesLeft(ws: seq<Worker>, ps: seq<Phase>): nat
    requires |ws| == |ps|
  {
    if ws == [] then 0 else BytesLeft(ws[0], ps[0]) + AllBytesLeft(ws[1..], ps[1..])
  }

  lemma {:induction false} RanksUpdate(ws: seq<Worker>, ps: seq<Phase>, w: nat, x: Worker, p: Phase)
    requires |ws| == |ps| && w < |ws|
    ensures WorkerRanks(ws[w := x], ps[w := p]) == WorkerRanks(ws, ps) + WorkerRank(x, p) - WorkerRank(ws[w], ps[w])
    ensures AllBytesLeft(ws[w := x], ps[w := p]) == AllBytesLeft(ws, ps) + BytesLeft(x, p) - BytesLeft(ws[w], ps[w])
  {
    if w == 0 {
      assert ws[0 := x][1..] == ws[1..] && ps[0 := p][1..] == ps[1..];
    } else {
      assert ws[w := x][1..] == ws[1..][w - 1 := x] && ps[w := p][1..] == ps[1..][w - 1 := p];
      RanksUpdate(ws[1..], ps[1..], w - 1, x, p);
    }
  }

  function CollectorRank(k: Collector): nat {
    match k
    case Stopped => 0
    case Ready => 1
    case Delivering(_) => 2
  }

  /** Statements and channel operations still to come before every loop has nothing left to do. */
  function Rank(s: State): nat
    requires |s.phases| == |s.core.workers|
  {
    12 * |s.core.queue| + WorkerRanks(s.core.workers, s.phases) + 2 * |s.core.results|
    + CollectorRank(s.core.collector)
  }

  /** Bytes still to be appended to config files. */
  function Bytes(s: State): nat
    requires |s.phases| == |s.core.workers|
  {
    AllBytesLeft(s.core.workers, s.phases)
  }

  lemma WorkRank(s: State, w: nat, work: WorkStep)
    requires PhasesOk(s) && WorkEnabled(s, w, work)
    ensures var t := NextWork(s, w, work);
            && |t.phases| == |t.core.workers|
            && (Rank(t) < Rank(s) || (Rank(t) == Rank(s) && Bytes(t) < Bytes(s)))
  {
    var t := NextWork(s, w, work);
    WorkFrame(s, w, work);
    assert PhaseFits(JobOf(s, w).kind, s.phases[w]);
    RanksUpdate(s.core.workers, s.phases, w, s.core.workers[w], t.phases[w]);
    assert t.core.workers == s.core.workers[w := s.core.workers[w]];
    match work {
      case Issue(_) =>
      case Render(_, _) =>
      case Append(_) =>
      case EndWrite(_) =>
      case Inspect(_) =>
      case LoadUser(_) =>
      case StoreUser(_) =>
      case RevokeCertificate(_) =>
      case RemoveFile(_) =>
    }
  }

  /** A worker's loop action changes its own entry only. */
  lemma EntryRank(s: State, t: State, w: nat, x: Worker, p: Phase)
    requires |s.phases| == |s.core.workers| && w < |s.core.workers|
    requires t.core.workers == s.core.workers[w := x] && t.phases == s.phases[w := p]
    requires t.core.collector == s.core.collector
    ensures |t.phases| == |t.core.workers|
    ensures Rank(t) - Rank(s) == WorkerRank(x, p) - WorkerRank(s.core.workers[w], s.phases[w])
                                 + 12 * (|t.core.queue| - |s.core.queue|) + 2 * (|t.core.results| - |s.core.results|)
  {
    RanksUpdate(s.core.workers, s.phases, w, x, p);
  }

  lemma TakeRank(s: State, w: nat)
    requires PhasesOk(s) && LoopEnabled(s, TakeJob(w))
    ensures var t := NextLoop(s, TakeJob(w)); |t.phases| == |t.core.workers| && Rank(t) < Rank(s)
  {
    var t := NextLoop(s, TakeJob(w));
    assert t.phases == s.phases[w := s.phases[w]];
    EntryRank(s, t, w, Taken(s.core.queue[0]), s.phases[w]);
  }

  lemma BeginRank(s: State, w: nat)
    requires PhasesOk(s) && LoopEnabled(s, BeginJob(w))
    ensures var t := NextLoop(s, BeginJob(w)); |t.phases| == |t.core.workers| && Rank(t) < Rank(s)
  {
    var t := NextLoop(s, BeginJob(w));
    EntryRank(s, t, w, Working(s.core.workers[w].job), t.phases[w]);
  }

  lemma FinishRank(s: State, w: nat)
    requires PhasesOk(s) && LoopEnabled(s, FinishJob(w))
    ensures var t := NextLoop(s, FinishJob(w)); |t.phases| == |t.core.workers| && Rank(t) < Rank(s)
  {
    EntryRank(s, NextLoop(s, FinishJob(w)), w, Posting(s.core.workers[w].job), Resting);
  }

  lemma PostRank(s: State, w: nat)
    requires PhasesOk(s) && LoopEnabled(s, PostJob(w))
    ensures var t := NextLoop(s, PostJob(w)); |t.phases| == |t.core.workers| && Rank(t) < Rank(s)
  {
    var t := NextLoop(s, PostJob(w));
    assert t.phases == s.phases[w := s.phases[w]];
    EntryRank(s, t, w, Idle, s.phases[w]);
  }

  lemma LeaveRank(s: State, w: nat)
    requires PhasesOk(s) && LoopEnabled(s, LeaveWorker(w))
    ensures var t := NextLoop(s, LeaveWorker(w)); |t.phases| == |t.core.workers| && Rank(t) < Rank(s)
  {
    var t := NextLoop(s, LeaveWorker(w));
    assert t.phases == s.phases[w := s.phases[w]];
    EntryRank(s, t, w, Exited, s.phases[w]);
  }

  lemma LoopRank(s: State, loop: LoopStep)
    requires PhasesOk(s) && LoopEnabled(s, loop) && !loop.Shutdown?
    ensures var t := NextLoop(s, loop); |t.phases| == |t.core.workers| && Rank(t) < Rank(s)
  {
    match loop {
      case TakeJob(w) => TakeRank(s, w);
      case BeginJob(w) => BeginRank(s, w);
      case FinishJob(w) => FinishRank(s, w);
      case PostJob(w) => PostRank(s, w);
      case LeaveWorker(w) => LeaveRank(s, w);
      case ReceiveResult => LoopFrame(s, loop);
      case CollectResult(_) => LoopFrame(s, loop);
      case LeaveCollector => LoopFrame(s, loop);
    }
  }

  /** Every step of a goroutine in the pipeline brings the whole closer to rest. */
  lemma SystemStepsDescend(s: State, step: Step)
    requires PhasesOk(s) && System(step) && Enabled(s, step)
    ensures var t := Next(s, step);
            && |t.phases| == |t.core.workers|
            && (Rank(t) < Rank(s) || (Rank(t) == Rank(s) && Bytes(t) < Bytes(s)))
  {
    match step {
      case InJob(w, work) => WorkRank(s, w, work);
      case InLoop(loop) => LoopRank(s, loop);
    }
  }

  // ---------------------------------------------------------------- what the loops leave alone

  /** The loops leave only once the shutdown channel is closed. */
  ghost predicate LoopsOpen(c: Core) {
    !c.closed ==> !c.collector.Stopped? && forall w :: 0 <= w < |c.workers| ==> !c.workers[w].Exited?
  }

  lemma LoopsOpenStep(c: Core, step: CoreStep)
    requires LoopsOpen(c) && CoreEnabled(c, step)
    ensures LoopsOpen(CoreNext(c, step))
  {
  }

  lemma CoreSystemStep(c: Core, step: CoreStep)
    requires CoreInv(c) && Conserved(c) && CoreEnabled(c, step) && LoopAction(step) && !step.Close?
    ensures var d := CoreNext(c, step);
            && d.closed == c.closed && d.capacity == c.capacity && |d.workers| == |c.workers|
            && d.enqueued == c.enqueued && InFlight(d) <= InFlight(c)
  {
    ConservedStep(c, step);
  }

  /** What a step of the loops keeps. */
  lemma SystemStep(s: State, step: Step)
    requires RegistersOk(s) && LoopsOpen(s.core) && System(step) && Enabled(s, step)
    ensures var c, d := s.core, Next(s, step).core;
            && RegistersOk(Next(s, step)) && LoopsOpen(d)
            && d.closed == c.closed && d.capacity == c.capacity && |d.workers| == |c.workers|
            && d.enqueued == c.enqueued && InFlight(d) <= InFlight(c)
  {
    RegistersStep(s, step);
    match step {
      case InJob(w, work) => WorkFrame(s, w, work);
      case InLoop(loop) =>
        LoopCore(s, loop);
        CoreSystemStep(s.core, Inner(s, loop));
        LoopsOpenStep(s.core, Inner(s, loop));
    }
  }

  // ---------------------------------------------------------------- someone can move

  /** A worker holding a job can take its next step, unless it waits to post into a full buffer. */
  lemma WorkerMoves(s: State, w: nat) returns (step: Step)
    requires RegistersOk(s) && w < |s.core.workers| && s.core.workers[w].Busy()
    requires s.core.workers[w].Posting? ==> |s.core.results| < s.core.capacity
    ensures System(step) && Enabled(s, step)
    ensures step.InJob? ==> step.w == w
    ensures step.InLoop? ==> step.loop in {BeginJob(w), FinishJob(w), PostJob(w)}
  {
    var id := s.core.workers[w].job;
    assert id in s.core.stage && id in s.core.jobs && FieldsMatch(s.core, id);
    if s.core.workers[w].Taken? {
      step := InLoop(BeginJob(w));
    } else if s.core.workers[w].Posting? {
      step := InLoop(PostJob(w));
    } else {
      step := PhaseMoves(s, w);
    }
  }

  lemma PhaseMoves(s: State, w: nat) returns (step: Step)
    requires PhasesOk(s) && w < |s.core.workers| && s.core.workers[w].Working?
    ensures System(step) && Enabled(s, step) && (step == InLoop(FinishJob(w)) || (step.InJob? && step.w == w))
  {
    assert PhaseFits(s.core.jobs[s.core.workers[w].job].kind, s.phases[w]);
    match s.phases[w] {
      case Issuing => step := InJob(w, Issue(false));
      case Rendering => step := InJob(w, Render(false, []));
      case Writing(_, _) => step := InJob(w, EndWrite(false));
      case Inspecting => step := InJob(w, Inspect(""));
      case Reading(_) => step := InJob(w, LoadUser(true));
      case Storing(_) => step := InJob(w, StoreUser(true));
      case Revoking => step := InJob(w, RevokeCertificate(false));
      case Removing => step := InJob(w, RemoveFile(false));
      case Finishing(_) => step := InLoop(FinishJob(w));
    }
  }

  lemma SomeoneBusy(ws: seq<Worker>) returns (w: nat)
    requires BusyCount(ws) > 0
    ensures w < |ws| && ws[w].Busy()
  {
    if ws[0].Busy() { w := 0; } else { var v := SomeoneBusy(ws[1..]); w := v + 1; }
  }

  /** Before a shutdown, work in flight means some loop can move. */
  lemma WorkMeansProgress(s: State)
    requires RegistersOk(s) && LoopsOpen(s.core) && !s.core.closed
    requires |s.core.workers| >= 1 && s.core.capacity >= 1
    requires |s.core.enqueued| > |s.core.collected|
    ensures CanRun(s)
  {
    var step;
    if s.core.collector.Delivering? {
      assert s.core.collector.job in s.core.stage;
      step := InLoop(CollectResult(true));
    } else if s.core.results != [] {
      step := InLoop(ReceiveResult);
    } else if BusyCount(s.core.workers) > 0 {
      var w := SomeoneBusy(s.core.workers);
      step := WorkerMoves(s, w);
    } else {
      NobodyBusy(s.core.workers);
      step := InLoop(TakeJob(0));
    }
    assert System(step) && Enabled(s, step);
  }

  // ---------------------------------------------------------------- draining

  /** A scheduler: whenever some loop can move, it names a step of a loop that can. */
  ghost predicate Scheduler(pick: State -> Step) {
    forall s :: CanRun(s) ==> System(pick(s)) && Enabled(s, pick(s))
  }

  /** The service left to its loops, under one scheduler, until none can move. */
  ghost function Drain(s: State, pick: State -> Step): State
    requires RegistersOk(s) && LoopsOpen(s.core) && Scheduler(pick)
    decreases Rank(s), Bytes(s)
  {
    if !CanRun(s) then s
    else
      SystemStep(s, pick(s));
      SystemStepsDescend(s, pick(s));
      Drain(Next(s, pick(s)), pick)
  }

  lemma {:induction false} DrainKeeps(s: State, pick: State -> Step)
    requires RegistersOk(s) && LoopsOpen(s.core) && Scheduler(pick)
    ensures var c, d := s.core, Drain(s, pick).core;
            && RegistersOk(Drain(s, pick)) && LoopsOpen(d) && !CanRun(Drain(s, pick))
            && d.closed == c.closed && d.capacity == c.capacity && |d.workers| == |c.workers|
            && d.enqueued == c.enqueued && InFlight(d) <= InFlight(c)
            && (SomeoneStays(d) ==> SomeoneStays(c))
    decreases Rank(s), Bytes(s)
  {
    if CanRun(s) {
      SystemStep(s, pick(s));
      SystemStepsDescend(s, pick(s));
      if SomeoneStays(Next(s, pick(s)).core) { StayedBefore(s, pick(s)); }
      DrainKeeps(Next(s, pick(s)), pick);
    }
  }

  /** Without new submissions, under any scheduler, every enqueued job is collected. */
  lemma EverythingDrains(s: State, pick: State -> Step)
    requires RegistersOk(s) && LoopsOpen(s.core) && Scheduler(pick)
    requires !s.core.closed && |s.core.workers| >= 1 && s.core.capacity >= 1
    ensures forall id :: id in s.core.enqueued ==> id in Drain(s, pick).core.collected
  {
    DrainKeeps(s, pick);
    var t := Drain(s, pick);
    if |t.core.enqueued| > |t.core.collected| { WorkMeansProgress(t); }
    AllCollected(t.core);
  }

  lemma AllCollected(c: Core)
    requires CoreInv(c) && Conserved(c) && |c.enqueued| <= |c.collected|
    ensures forall id :: id in c.enqueued ==> id in c.collected
  {
    NobodyBusy(c.workers);
    forall id | id in c.enqueued ensures id in c.collected {
      assert FieldsMatch(c, id);
      assert c.queue == [] && c.results == [];
    }
  }

  /** A statement of a service call other than a send delays no loop: what is left to do stays the same. */
  lemma CallsKeepRank(s: State, step: Step)
    requires PhasesOk(s) && Enabled(s, step) && !System(step) && step != InLoop(Shutdown)
    requires !(step.InSubmit? && step.submit.Send?)
    ensures var t := Next(s, step);
            |t.phases| == |t.core.workers| && Rank(t) == Rank(s) && Bytes(t) == Bytes(s)
    ensures LoopsOpen(s.core) ==> LoopsOpen(Next(s, step).core)
    ensures var c, d := s.core, Next(s, step).core;
            && d.closed == c.closed && d.capacity == c.capacity && d.workers == c.workers && d.enqueued == c.enqueued
            && InFlight(d) == InFlight(c)
  {
    match step {
      case Open(call) => OpenFrame(s, call);
      case InCreate(i, act) =>
        CreateFrame(s, i, act);
        CreateCore(s, i, act);
      case InDelete(i, act) =>
        DeleteFrame(s, i, act);
        DeleteCore(s, i, act);
      case InSubmit(i, act) => SubmitFrame(s, i, act);
      case InFetch(i, act) => FetchFrame(s, i, act);
    }
  }

  lemma RestIsCollected(s: State)
    requires RegistersOk(s) && LoopsOpen(s.core) && !s.core.closed && !CanRun(s)
    requires |s.core.workers| >= 1 && s.core.capacity >= 1
    ensures forall id :: id in s.core.enqueued ==> id in s.core.collected
  {
    if |s.core.enqueued| > |s.core.collected| { WorkMeansProgress(s); }
    AllCollected(s.core);
  }

  /** A step other than a send or the close leaves no more to do, and a loop's step less. */
  lemma LessLeft(s: State, step: Step)
    requires RegistersOk(s) && LoopsOpen(s.core) && Enabled(s, step) && step != InLoop(Shutdown)
    requires !(step.InSubmit? && step.submit.Send?)
    ensures var t := Next(s, step);
            && RegistersOk(t) && LoopsOpen(t.core) && t.core.closed == s.core.closed
            && t.core.capacity == s.core.capacity && |t.core.workers| == |s.core.workers|
            && t.core.enqueued == s.core.enqueued
            && InFlight(t.core) <= InFlight(s.core) && (SomeoneStays(t.core) ==> SomeoneStays(s.core))
            && (if System(step) then Rank(t) < Rank(s) || (Rank(t) == Rank(s) && Bytes(t) < Bytes(s))
                else Rank(t) == Rank(s) && Bytes(t) == Bytes(s))
  {
    if SomeoneStays(Next(s, step).core) { StayedBefore(s, step); }
    if System(step) {
      SystemStep(s, step);
      SystemStepsDescend(s, step);
    } else {
      RegistersStep(s, step);
      CallsKeepRank(s, step);
    }
  }

  /** Loops and service calls interleaved, without a send and without the close. */
  ghost predicate NoSends(s: State, steps: seq<Step>) {
    && IsRun(s, steps)
    && forall i :: 0 <= i < |steps| ==> steps[i] != InLoop(Shutdown) && !(steps[i].InSubmit? && steps[i].submit.Send?)
  }

  /**
   However reads, deletes and other calls interleave with the loops, each loop step brings the loops nearer to
   rest and no call puts them off.
   */
  lemma {:induction false} InterleavedDescends(s: State, steps: seq<Step>)
    requires RegistersOk(s) && LoopsOpen(s.core) && NoSends(s, steps)
    ensures var t := After(s, steps);
            && |t.phases| == |t.core.workers| && |s.phases| == |s.core.workers|
            && (Rank(t) < Rank(s) || (Rank(t) == Rank(s) && Bytes(t) <= Bytes(s)))
            && ((exists i :: 0 <= i < |steps| && System(steps[i])) ==> Rank(t) < Rank(s) || Bytes(t) < Bytes(s))
    ensures var c, d := s.core, After(s, steps).core;
            && RegistersOk(After(s, steps)) && LoopsOpen(d) && d.closed == c.closed && d.capacity == c.capacity
            && |d.workers| == |c.workers| && d.enqueued == c.enqueued
            && InFlight(d) <= InFlight(c) && (SomeoneStays(d) ==> SomeoneStays(c))
    decreases |steps|
  {
    if steps != [] {
      var step, rest := steps[0], steps[1..];
      LessLeft(s, step);
      assert forall i :: 0 <= i < |rest| ==> rest[i] == steps[i + 1];
      InterleavedDescends(Next(s, step), rest);
      if i :| 0 <= i < |steps| && System(steps[i]) {
        if i > 0 { assert System(rest[i - 1]); }
      }
    }
  }

  /** Before a shutdown: once no loop can move, every job sent before is collected. */
  lemma InterleavedDrains(s: State, steps: seq<Step>)
    requires RegistersOk(s) && LoopsOpen(s.core) && NoSends(s, steps) && !CanRun(After(s, steps))
    requires !s.core.closed && |s.core.workers| >= 1 && s.core.capacity >= 1
    ensures forall id :: id in s.core.enqueued ==> id in After(s, steps).core.collected
  {
    InterleavedDescends(s, steps);
    RestIsCollected(After(s, steps));
  }

  /** After the close, from a state in which nothing hinders: once no loop can move, all have left. */
  lemma InterleavedStops(s: State, steps: seq<Step>)
    requires RegistersOk(s) && LoopsOpen(s.core) && NoSends(s, steps) && !CanRun(After(s, steps))
    requires s.core.closed && Unhindered(s.core)
    ensures AllGone(After(s, steps).core)
  {
    InterleavedDescends(s, steps);
    if !AllGone(After(s, steps).core) { RoomMeansProgress(After(s, steps)); }
  }

  // ---------------------------------------------------------------- stopping

  ghost predicate AllGone(c: Core) {
    c.collector.Stopped? && forall w :: 0 <= w < |c.workers| ==> c.workers[w].Exited?
  }

  /** Nothing in flight can be too much: the results buffer holds it, or every worker has left. */
  ghost predicate Unhindered(c: Core) {
    InFlight(c) <= c.capacity || !SomeoneStays(c)
  }

  /** After the close, if nothing hinders, someone can move until all have left. */
  lemma RoomMeansProgress(s: State)
    requires RegistersOk(s) && s.core.closed && !AllGone(s.core) && Unhindered(s.core)
    ensures CanRun(s)
  {
    var step;
    if s.core.collector.Delivering? {
      assert s.core.collector.job in s.core.stage;
      step := InLoop(CollectResult(true));
    } else if s.core.collector.Ready? {
      step := InLoop(LeaveCollector);
    } else {
      var w :| 0 <= w < |s.core.workers| && !s.core.workers[w].Exited?;
      if s.core.workers[w].Idle? {
        step := InLoop(LeaveWorker(w));
      } else {
        assert BusyCount(s.core.workers) > 0 by {
          if BusyCount(s.core.workers) == 0 { NobodyBusy(s.core.workers); }
        }
        step := WorkerMoves(s, w);
      }
    }
    assert System(step) && Enabled(s, step);
  }

  /** Stop returns under every scheduler if the results buffer holds everything in flight or every worker has left. */
  lemma StopReturns(s: State, pick: State -> Step)
    requires RegistersOk(s) && LoopsOpen(s.core) && Scheduler(pick) && s.core.closed && Unhindered(s.core)
    ensures AllGone(Drain(s, pick).core)
  {
    DrainKeeps(s, pick);
    if !AllGone(Drain(s, pick).core) { RoomMeansProgress(Drain(s, pick)); }
  }

  /** The collector has left, the results buffer is full and a worker waits to post: Stop never returns. */
  ghost predicate Stuck(c: Core) {
    && c.closed && c.collector.Stopped? && |c.results| == c.capacity
    && exists w :: 0 <= w < |c.workers| && c.workers[w].Posting?
  }

  lemma StuckForever(s: State, step: Step)
    requires RegistersOk(s) && Stuck(s.core) && Enabled(s, step)
    ensures Stuck(Next(s, step).core)
  {
    var moved, c := CoreOfStep(s, step);
    if moved { CoreStuck(s.core, c); }
  }

  lemma CoreStuck(c: Core, step: CoreStep)
    requires Stuck(c) && CoreEnabled(c, step)
    ensures Stuck(CoreNext(c, step))
  {
    var w :| 0 <= w < |c.workers| && c.workers[w].Posting?;
    assert CoreNext(c, step).workers[w].Posting?;
  }

  ghost predicate SomeoneStays(c: Core) {
    exists w :: 0 <= w < |c.workers| && !c.workers[w].Exited?
  }

  /** Beyond that bound the loops can run into a state from which Stop never returns. */
  lemma OverflowCanStick(s: State) returns (steps: seq<Step>)
    requires RegistersOk(s) && LoopsOpen(s.core) && s.core.closed
    requires InFlight(s.core) > s.core.capacity && SomeoneStays(s.core)
    ensures SystemRun(s, steps) && Stuck(After(s, steps).core)
    decreases Rank(s), Bytes(s)
  {
    if Stuck(s.core) {
      steps := [];
    } else {
      var step := TowardStuck(s);
      SystemStep(s, step);
      SystemStepsDescend(s, step);
      var rest := OverflowCanStick(Next(s, step));
      steps := [step] + rest;
      assert steps[1..] == rest;
    }
  }

  lemma TowardStuck(s: State) returns (step: Step)
    requires RegistersOk(s) && s.core.closed && !Stuck(s.core)
    requires InFlight(s.core) > s.core.capacity && SomeoneStays(s.core)
    ensures System(step) && Enabled(s, step)
    ensures InFlight(Next(s, step).core) == InFlight(s.core) && SomeoneStays(Next(s, step).core)
  {
    if s.core.collector.Delivering? {
      assert s.core.collector.job in s.core.stage;
      step := InLoop(CollectResult(true));
      CollectorMoveKeeps(s, step.loop);
    } else if s.core.collector.Ready? {
      step := InLoop(LeaveCollector);
      CollectorMoveKeeps(s, step.loop);
    } else if BusyCount(s.core.workers) > 0 {
      var w := SomeoneBusy(s.core.workers);
      step := WorkerMoves(s, w);
      WorkerMoveKeeps(s, w, step);
    } else {
      step := IdleTakes(s);
    }
  }

  lemma CollectorMoveKeeps(s: State, loop: LoopStep)
    requires RegistersOk(s) && LoopEnabled(s, loop) && (loop.CollectResult? || loop.LeaveCollector?)
    requires SomeoneStays(s.core)
    ensures InFlight(NextLoop(s, loop).core) == InFlight(s.core) && SomeoneStays(NextLoop(s, loop).core)
  {
    var v :| 0 <= v < |s.core.workers| && !s.core.workers[v].Exited?;
    LoopCore(s, loop);
    assert NextLoop(s, loop).core.workers == s.core.workers;
    assert !NextLoop(s, loop).core.workers[v].Exited?;
  }

  lemma IdleTakes(s: State) returns (step: Step)
    requires RegistersOk(s) && s.core.closed && !Stuck(s.core) && s.core.collector.Stopped?
    requires InFlight(s.core) > s.core.capacity && SomeoneStays(s.core) && BusyCount(s.core.workers) == 0
    ensures System(step) && Enabled(s, step)
    ensures InFlight(Next(s, step).core) == InFlight(s.core) && SomeoneStays(Next(s, step).core)
  {
    var v :| 0 <= v < |s.core.workers| && !s.core.workers[v].Exited?;
    NobodyBusy(s.core.workers);
    step := InLoop(TakeJob(v));
    LoopCore(s, step.loop);
    ConservedStep(s.core, Take(v));
    assert !Next(s, step).core.workers[v].Exited?;
  }

  lemma CoreMoveKeeps(c: Core, w: nat, step: CoreStep)
    requires CoreInv(c) && Conserved(c) && CoreEnabled(c, step) && w < |c.workers| && c.workers[w].Busy()
    requires (step.Begin? || step.Finish? || step.Post?) && step.w == w
    ensures InFlight(CoreNext(c, step)) == InFlight(c) && SomeoneStays(CoreNext(c, step))
  {
    ConservedStep(c, step);
    assert !CoreNext(c, step).workers[w].Exited?;
  }

  lemma WorkerMoveKeeps(s: State, w: nat, step: Step)
    requires RegistersOk(s) && Enabled(s, step) && w < |s.core.workers|
    requires step.InJob? || (step.InLoop? && step.loop in {BeginJob(w), FinishJob(w), PostJob(w)})
    requires s.core.workers[w].Busy()
    ensures InFlight(Next(s, step).core) == InFlight(s.core) && SomeoneStays(Next(s, step).core)
  {
    match step {
      case InJob(v, work) =>
        WorkFrame(s, v, work);
        assert !s.core.workers[w].Exited?;
      case InLoop(loop) =>
        LoopCore(s, loop);
        CoreMoveKeeps(s.core, w, Inner(s, loop));
    }
  }

  /** Nothing in flight is added, and nobody comes back, while the loops run. */
  lemma {:induction false} SystemRunKeeps(s: State, steps: seq<Step>)
    requires RegistersOk(s) && LoopsOpen(s.core) && SystemRun(s, steps)
    ensures InFlight(After(s, steps).core) <= InFlight(s.core)
    ensures After(s, steps).core.capacity == s.core.capacity
    ensures SomeoneStays(After(s, steps).core) ==> SomeoneStays(s.core)
    decreases |steps|
  {
    if steps != [] {
      SystemStep(s, steps[0]);
      var t := Next(s, steps[0]);
      assert forall i :: 0 <= i < |steps[1..]| ==> steps[1..][i] == steps[i + 1];
      SystemRunKeeps(t, steps[1..]);
      if SomeoneStays(t.core) { StayedBefore(s, steps[0]); }
    }
  }

  lemma StayedBefore(s: State, step: Step)
    requires Enabled(s, step) && SomeoneStays(Next(s, step).core)
    ensures SomeoneStays(s.core)
  {
    var moved, c := CoreOfStep(s, step);
    var w :| 0 <= w < |Next(s, step).core.workers| && !Next(s, step).core.workers[w].Exited?;
    if moved { CoreStayed(s.core, c, w); }
    assert !s.core.workers[w].Exited?;
  }

  lemma CoreStayed(c: Core, step: CoreStep, w: nat)
    requires CoreEnabled(c, step) && w < |CoreNext(c, step).workers| && !CoreNext(c, step).workers[w].Exited?
    ensures w < |c.workers| && !c.workers[w].Exited?
  {
  }

  /**
   Exactly when Stop can hang: more jobs are queued, held or posted than the results
   buffer takes, and some worker has not left.
   */
  lemma StopCanHangIff(s: State)
    requires RegistersOk(s) && LoopsOpen(s.core) && s.core.closed
    ensures (exists steps :: SystemRun(s, steps) && Stuck(After(s, steps).core))
            <==> InFlight(s.core) > s.core.capacity && SomeoneStays(s.core)
  {
    if InFlight(s.core) > s.core.capacity && SomeoneStays(s.core) {
      var steps := OverflowCanStick(s);
      assert SystemRun(s, steps) && Stuck(After(s, steps).core);
    }
    forall steps | SystemRun(s, steps) && Stuck(After(s, steps).core)
      ensures InFlight(s.core) > s.core.capacity && SomeoneStays(s.core)
    {
      SystemRunKeeps(s, steps);
      var c := After(s, steps).core;
      var w :| 0 <= w < |c.workers| && c.workers[w].Posting?;
      if BusyCount(c.workers) == 0 { NobodyBusy(c.workers); }
      assert !c.workers[w].Exited?;
    }
  }
}
