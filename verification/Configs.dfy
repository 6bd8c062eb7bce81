/** Where the bytes of a user's config come from, for any number of workers and readers. */
module Configs {
  import opened JobPipeline
  import opened CertService
  import opened ServiceInvariant
  import opened Registers

  /** The job is past the statement that creates its config file. */
  ghost predicate PastRender(s: State, id: JobId) {
    && id in s.core.stage && s.core.stage[id].Begun()
    && (s.core.stage[id].Held? ==>
          var w := s.core.stage[id].worker;
          && w < |s.core.workers| && w < |s.phases|
          && (s.core.workers[w].Posting?
              || (s.core.workers[w].Working? && !s.phases[w].Issuing? && !s.phases[w].Rendering?)))
  }

  ghost predicate OwnJobWrote(s: State, user: UserId) {
    0 <= user && JobIs(s, user, GenerateCert) && s.core.jobs[user].user == user && PastRender(s, user)
  }

  /** Only a user's own generate job writes, and it creates the file once. */
  ghost predicate WrittenOk(s: State) {
    forall u :: u in s.written ==> OwnJobWrote(s, u)
  }

  ghost predicate WritersOk(s: State) {
    forall w: nat :: w < |s.phases| && InPhase(s, w) && s.phases[w].Writing? ==> WriterOk(s, w)
  }

  ghost predicate WriterOk(s: State, w: nat)
    requires w < |s.phases| && InPhase(s, w) && s.phases[w].Writing?
  {
    && JobOf(s, w).user in s.written
    && s.phases[w].done <= |s.phases[w].data|
    && s.written[JobOf(s, w).user] == s.phases[w].data[..s.phases[w].done]
  }

  /** A file holds what the job of the user of that name has written so far. */
  ghost predicate FileOk(s: State, name: string)
    requires name in s.files
  {
    exists u :: KnownAs(s, u, name) && u in s.written && s.files[name] == s.written[u]
  }

  ghost predicate FilesOk(s: State) {
    forall name :: name in s.files ==> FileOk(s, name)
  }

  /**
   A copy of the user's file: a prefix of what the user's own job writes and, unless it was read with bytes
   still to come, exactly what that job wrote, with none to come.
   */
  ghost predicate Snapshot(s: State, user: UserId, copy: Copy) {
    && user in s.written && copy.data <= s.written[user]
    && (!copy.torn ==> copy.data == s.written[user] && !Unfinished(s, user))
  }

  ghost predicate CacheOk(s: State) {
    forall r :: r in s.cache ==> Snapshot(s, s.cache[r].user, s.cache[r].copy)
  }

  ghost predicate CarriesData(s: State, op: Op) {
    match op
    case ConfigSelect(user, copy) => Snapshot(s, user, copy)
    case ConfigUpdate(user, copy, row) => Snapshot(s, user, copy)
    case ConfigInsert(user, copy) => Snapshot(s, user, copy)
    case Returned(Config(user, copy)) => Snapshot(s, user, copy)
    case _ => true
  }

  /** A row about to be overwritten belongs to the user whose config is being stored. */
  ghost predicate RowOwned(s: State, op: Op) {
    op.ConfigUpdate? ==>
      && op.row < |s.ops| && s.ops[op.row].Returned?
      && (op.row in s.cache ==> s.cache[op.row].user == op.user)
  }

  /** A call's own row exists only once the call has returned. */
  ghost predicate RowsFresh(s: State) {
    forall r :: r in s.cache ==> r < |s.ops| && s.ops[r].Returned?
  }

  ghost predicate ReadsOk(s: State) {
    forall i :: 0 <= i < |s.ops| ==> CarriesData(s, s.ops[i]) && RowOwned(s, s.ops[i])
  }

  ghost predicate ConfigsOk(s: State) {
    WrittenOk(s) && WritersOk(s) && FilesOk(s) && CacheOk(s) && ReadsOk(s) && RowsFresh(s)
  }

  // ---------------------------------------------------------------- what is written only grows

  ghost predicate WrittenGrows(s: State, t: State) {
    forall u :: u in s.written ==>
      && u in t.written && s.written[u] <= t.written[u]
      && (t.written[u] == s.written[u] || Unfinished(s, u))
      && (Unfinished(t, u) ==> Unfinished(s, u))
  }

  lemma SnapshotStays(s: State, t: State, user: UserId, copy: Copy)
    requires Snapshot(s, user, copy) && WrittenGrows(s, t)
    ensures Snapshot(t, user, copy)
  {
  }

  lemma CallGrows(s: State, t: State)
    requires PhasesOk(s) && t.phases == s.phases && t.core.workers == s.core.workers && JobsKept(s.core, t.core)
    requires t.written == s.written
    ensures WrittenGrows(s, t)
  {
    forall u | u in s.written && Unfinished(t, u) ensures Unfinished(s, u) {
      var w: nat :| w < |t.phases| && InPhase(t, w) && MidWrite(t.phases[w]) && JobOf(t, w).user == u;
      assert InPhase(s, w) && JobOf(s, w).user == u;
    }
  }

  /** A worker about to create the file is the first to write for that user. */
  lemma RenderFirst(s: State, w: nat)
    requires RegistersOk(s) && WrittenOk(s) && InPhase(s, w) && s.phases[w].Rendering?
    ensures JobOf(s, w).user !in s.written
    ensures JobOf(s, w).user == s.core.workers[w].job && JobOf(s, w).kind.GenerateCert?
  {
    var id := s.core.workers[w].job;
    assert JobOk(s, id) && PhaseFits(s.core.jobs[id].kind, s.phases[w]);
    assert s.core.stage[id] == Held(w);
    assert JobOf(s, w).user in s.written ==> OwnJobWrote(s, JobOf(s, w).user);
  }

  lemma WorkGrows(s: State, w: nat, work: WorkStep)
    requires RegistersOk(s) && WrittenOk(s) && WritersOk(s) && WorkEnabled(s, w, work)
    ensures WrittenGrows(s, NextWork(s, w, work))
  {
    var t := NextWork(s, w, work);
    WorkFrame(s, w, work);
    forall u | u in s.written
      ensures u in t.written && s.written[u] <= t.written[u]
      ensures t.written[u] == s.written[u] || Unfinished(s, u)
    {
      if work.Render? { RenderFirst(s, w); }
      if work.Append? && u == JobOf(s, w).user {
        AppendExtends(s.phases[w].data, s.phases[w].done, s.phases[w].done + work.n);
      }
    }
    forall u | u in s.written && Unfinished(t, u) ensures Unfinished(s, u) {
      WorkStartsNoWriter(s, w, work, u);
    }
  }

  lemma WorkStartsNoWriter(s: State, w: nat, work: WorkStep, u: UserId)
    requires RegistersOk(s) && WrittenOk(s) && WorkEnabled(s, w, work)
    requires u in s.written && Unfinished(NextWork(s, w, work), u)
    ensures Unfinished(s, u)
  {
    var t := NextWork(s, w, work);
    WorkFrame(s, w, work);
    var v: nat :| v < |t.phases| && InPhase(t, v) && MidWrite(t.phases[v]) && JobOf(t, v).user == u;
    assert InPhase(s, v) && JobOf(s, v).user == u;
    if v == w && work.Render? {
      RenderFirst(s, w);
    } else {
      WriterBefore(s, w, work, v);
    }
  }

  lemma WriterBefore(s: State, w: nat, work: WorkStep, v: nat)
    requires WorkEnabled(s, w, work) && v < |NextWork(s, w, work).phases| && MidWrite(NextWork(s, w, work).phases[v])
    requires v != w || !work.Render?
    ensures v < |s.phases| && MidWrite(s.phases[v])
  {
  }

  lemma AppendExtends(data: Data, i: nat, j: nat)
    requires i <= j <= |data|
    ensures data[..i] <= data[..j]
  {
  }

  lemma LoopGrows(s: State, loop: LoopStep)
    requires PhasesOk(s) && LoopEnabled(s, loop)
    ensures WrittenGrows(s, NextLoop(s, loop))
  {
    var t := NextLoop(s, loop);
    LoopFrame(s, loop);
    JobsKeptAlong(s, InLoop(loop));
    forall u | u in s.written && Unfinished(t, u) ensures Unfinished(s, u) {
      var w: nat :| w < |t.phases| && InPhase(t, w) && MidWrite(t.phases[w]) && JobOf(t, w).user == u;
      WorkingBefore(s.core, Inner(s, loop), w);
      assert InPhase(s, w) && s.phases[w] == t.phases[w];
    }
  }

  lemma GrowsStep(s: State, step: Step)
    requires RegistersOk(s) && WrittenOk(s) && WritersOk(s) && Enabled(s, step)
    ensures WrittenGrows(s, Next(s, step))
  {
    JobsKeptAlong(s, step);
    match step {
      case Open(call) =>
        OpenFrame(s, call);
        CallGrows(s, NextOpen(s, call));
      case InCreate(i, act) =>
        CreateFrame(s, i, act);
        CallGrows(s, NextCreate(s, i, act));
      case InDelete(i, act) =>
        DeleteFrame(s, i, act);
        CallGrows(s, NextDelete(s, i, act));
      case InSubmit(i, act) =>
        SubmitFrame(s, i, act);
        CallGrows(s, NextSubmit(s, i, act));
      case InFetch(i, act) =>
        FetchFrame(s, i, act);
        CallGrows(s, NextFetch(s, i, act));
      case InJob(w, work) => WorkGrows(s, w, work);
      case InLoop(loop) => LoopGrows(s, loop);
    }
  }

  // ---------------------------------------------------------------- who has written

  lemma PastRenderStays(s: State, step: Step, id: JobId)
    requires RegistersOk(s) && Enabled(s, step) && PastRender(s, id)
    ensures PastRender(Next(s, step), id)
  {
    match step {
      case Open(call) =>
        OpenFrame(s, call);
        CallPast(s, step, id);
      case InCreate(i, act) =>
        CreateFrame(s, i, act);
        CallPast(s, step, id);
      case InDelete(i, act) =>
        DeleteFrame(s, i, act);
        CallPast(s, step, id);
      case InSubmit(i, act) =>
        SubmitFrame(s, i, act);
        CallPast(s, step, id);
      case InFetch(i, act) => FetchFrame(s, i, act);
      case InJob(w, work) => WorkPast(s, w, work, id);
      case InLoop(loop) => LoopPast(s, loop, id);
    }
  }

  lemma CallPast(s: State, step: Step, id: JobId)
    requires RegistersOk(s) && Enabled(s, step) && PastRender(s, id)
    requires Next(s, step).phases == s.phases && Next(s, step).core.workers == s.core.workers
    ensures PastRender(Next(s, step), id)
  {
    var moved, c := CoreOfStep(s, step);
    if moved { BegunStays(s.core, c, id); }
  }

  lemma WorkPast(s: State, w: nat, work: WorkStep, id: JobId)
    requires RegistersOk(s) && WorkEnabled(s, w, work) && PastRender(s, id)
    ensures PastRender(NextWork(s, w, work), id)
  {
    WorkFrame(s, w, work);
    if s.core.stage[id] == Held(w) {
      assert FieldsMatch(s.core, id);
      match work {
        case Issue(_) =>
        case Render(_, _) =>
        case Append(_) =>
        case EndWrite(_) =>
        case Inspect(_) =>
        case LoadUser(_) =>
        case StoreUser(_) =>
        case RevokeCertificate(_) =>
        case RemoveFile(_) =>
      }
    }
  }

  lemma LoopPast(s: State, loop: LoopStep, id: JobId)
    requires RegistersOk(s) && LoopEnabled(s, loop) && PastRender(s, id)
    ensures PastRender(NextLoop(s, loop), id)
  {
    LoopFrame(s, loop);
    BegunStays(s.core, Inner(s, loop), id);
    var d := NextLoop(s, loop).core;
    assert d == CoreNext(s.core, Inner(s, loop));
  }

  lemma WrittenStep(s: State, step: Step)
    requires RegistersOk(s) && WrittenOk(s) && Enabled(s, step)
    ensures WrittenOk(Next(s, step))
  {
    var t := Next(s, step);
    JobsKeptAlong(s, step);
    forall u | u in t.written ensures OwnJobWrote(t, u) {
      if u in s.written {
        assert OwnJobWrote(s, u);
        PastRenderStays(s, step, u);
      } else {
        WrittenBy(s, step, u);
      }
    }
  }

  lemma WrittenBy(s: State, step: Step, u: UserId)
    requires RegistersOk(s) && WrittenOk(s) && Enabled(s, step) && u in Next(s, step).written && u !in s.written
    ensures OwnJobWrote(Next(s, step), u)
  {
    match step {
      case Open(call) => OpenFrame(s, call);
      case InCreate(i, act) => CreateFrame(s, i, act);
      case InDelete(i, act) => DeleteFrame(s, i, act);
      case InSubmit(i, act) => SubmitFrame(s, i, act);
      case InFetch(i, act) => FetchFrame(s, i, act);
      case InJob(w, work) => WorkWrittenBy(s, w, work, u);
      case InLoop(loop) => LoopFrame(s, loop);
    }
  }

  lemma WorkWrittenBy(s: State, w: nat, work: WorkStep, u: UserId)
    requires RegistersOk(s) && WorkEnabled(s, w, work)
    requires u in NextWork(s, w, work).written && u !in s.written
    ensures OwnJobWrote(NextWork(s, w, work), u)
  {
    WorkFrame(s, w, work);
    var id := s.core.workers[w].job;
    assert JobOk(s, id) && PhaseFits(s.core.jobs[id].kind, s.phases[w]);
    assert s.core.stage[id] == Held(w);
    assert work.Render? || work.Append?;
  }

  // ---------------------------------------------------------------- writers

  lemma CallWriters(s: State, t: State)
    requires PhasesOk(s) && WritersOk(s) && t.written == s.written
    requires t.phases == s.phases && t.core.workers == s.core.workers && JobsKept(s.core, t.core)
    ensures WritersOk(t)
  {
    forall w: nat | w < |t.phases| && InPhase(t, w) && t.phases[w].Writing?
      ensures WriterOk(t, w)
    {
      assert InPhase(s, w) && s.phases[w].Writing? && JobOf(s, w).user == JobOf(t, w).user;
    }
  }

  /** No two workers write for the same user. */
  lemma OneWriter(s: State, v: nat, w: nat)
    requires RegistersOk(s) && InPhase(s, v) && InPhase(s, w)
    requires JobOf(s, v).kind.GenerateCert? && JobOf(s, w).kind.GenerateCert?
    requires JobOf(s, v).user == JobOf(s, w).user
    ensures v == w
  {
    assert JobOk(s, s.core.workers[v].job) && JobOk(s, s.core.workers[w].job);
    assert s.core.stage[s.core.workers[v].job] == Held(v);
  }

  /** A step inside a job writes for no user but the job's, and only a generate job writes. */
  lemma FileWrites(s: State, v: nat, work: WorkStep, u: UserId)
    requires WorkEnabled(s, v, work) && u in s.written
    ensures var t := NextWork(s, v, work);
            u in t.written
            && (t.written[u] != s.written[u] ==> u == JobOf(s, v).user && (work.Render? || work.Append?))
  {
  }

  lemma OtherWriter(s: State, t: State, v: nat, w: nat)
    requires RegistersOk(s) && WritersOk(s) && w != v && InPhase(s, v) && InPhase(s, w) && s.phases[w].Writing?
    requires t.core == s.core && w < |t.phases| && t.phases[w] == s.phases[w] && JobOf(s, w).user in t.written
    requires t.written[JobOf(s, w).user] != s.written[JobOf(s, w).user] ==>
               JobOf(s, w).user == JobOf(s, v).user && JobOf(s, v).kind.GenerateCert?
    ensures WriterOk(t, w)
  {
    assert WriterOk(s, w);
    assert PhaseFits(JobOf(s, w).kind, s.phases[w]);
    if t.written[JobOf(s, w).user] != s.written[JobOf(s, w).user] { OneWriter(s, v, w); }
  }

  lemma OwnWriter(s: State, v: nat, work: WorkStep)
    requires WritersOk(s) && WorkEnabled(s, v, work) && InPhase(NextWork(s, v, work), v)
    requires NextWork(s, v, work).core == s.core && NextWork(s, v, work).phases[v].Writing?
    ensures WriterOk(NextWork(s, v, work), v)
  {
    assert work.Render? || work.Append?;
    if work.Append? { assert WriterOk(s, v); }
  }

  lemma WorkWriters(s: State, v: nat, work: WorkStep)
    requires RegistersOk(s) && WrittenOk(s) && WritersOk(s) && WorkEnabled(s, v, work)
    ensures WritersOk(NextWork(s, v, work))
  {
    var t := NextWork(s, v, work);
    WorkFrame(s, v, work);
    forall w: nat | w < |t.phases| && InPhase(t, w) && t.phases[w].Writing? ensures WriterOk(t, w) {
      if w == v {
        OwnWriter(s, v, work);
      } else {
        assert s.phases[w] == t.phases[w] && WriterOk(s, w);
        assert PhaseFits(JobOf(s, v).kind, s.phases[v]);
        FileWrites(s, v, work, JobOf(s, w).user);
        OtherWriter(s, t, v, w);
      }
    }
  }

  lemma LoopWriters(s: State, loop: LoopStep)
    requires PhasesOk(s) && WritersOk(s) && LoopEnabled(s, loop)
    ensures WritersOk(NextLoop(s, loop))
  {
    var t := NextLoop(s, loop);
    LoopFrame(s, loop);
    JobsKeptAlong(s, InLoop(loop));
    forall w: nat | w < |t.phases| && InPhase(t, w) && t.phases[w].Writing?
      ensures WriterOk(t, w)
    {
      WorkingBefore(s.core, Inner(s, loop), w);
      assert InPhase(s, w) && s.phases[w] == t.phases[w];
    }
  }

  lemma WritersStep(s: State, step: Step)
    requires RegistersOk(s) && WrittenOk(s) && WritersOk(s) && Enabled(s, step)
    ensures WritersOk(Next(s, step))
  {
    JobsKeptAlong(s, step);
    match step {
      case Open(call) =>
        OpenFrame(s, call);
        CallWriters(s, NextOpen(s, call));
      case InCreate(i, act) =>
        CreateFrame(s, i, act);
        CallWriters(s, NextCreate(s, i, act));
      case InDelete(i, act) =>
        DeleteFrame(s, i, act);
        CallWriters(s, NextDelete(s, i, act));
      case InSubmit(i, act) =>
        SubmitFrame(s, i, act);
        CallWriters(s, NextSubmit(s, i, act));
      case InFetch(i, act) =>
        FetchFrame(s, i, act);
        CallWriters(s, NextFetch(s, i, act));
      case InJob(w, work) => WorkWriters(s, w, work);
      case InLoop(loop) => LoopWriters(s, loop);
    }
  }

  // ---------------------------------------------------------------- files

  lemma SameFiles(s: State, t: State)
    requires FilesOk(s) && UsersKept(s, t) && t.files == s.files && t.written == s.written
    ensures FilesOk(t)
  {
    forall name | name in t.files ensures FileOk(t, name) {
      assert FileOk(s, name);
      var u :| KnownAs(s, u, name) && u in s.written && s.files[name] == s.written[u];
      assert KnownAs(t, u, name);
    }
  }

  lemma WorkFiles(s: State, w: nat, work: WorkStep)
    requires RegistersOk(s) && FilesOk(s) && WorkEnabled(s, w, work) && UsersKept(s, NextWork(s, w, work))
    ensures FilesOk(NextWork(s, w, work))
  {
    var t := NextWork(s, w, work);
    forall name | name in t.files ensures FileOk(t, name) {
      if name == JobOf(s, w).name && (work.Append? || (work.Render? && work.ok)) {
        OwnFile(s, w, work);
      } else {
        OtherFile(s, w, work, name);
      }
    }
  }

  lemma OwnFile(s: State, w: nat, work: WorkStep)
    requires RegistersOk(s) && WorkEnabled(s, w, work) && UsersKept(s, NextWork(s, w, work))
    requires work.Append? || (work.Render? && work.ok)
    requires JobOf(s, w).name in NextWork(s, w, work).files
    ensures FileOk(NextWork(s, w, work), JobOf(s, w).name)
  {
    var t, j := NextWork(s, w, work), JobOf(s, w);
    assert JobOk(s, s.core.workers[w].job) && PhaseFits(j.kind, s.phases[w]);
    assert KnownAs(s, j.user, j.name);
    assert KnownAs(t, j.user, j.name) && t.files[j.name] == t.written[j.user];
  }

  lemma FileUntouched(s: State, w: nat, work: WorkStep, name: string)
    requires WorkEnabled(s, w, work) && name in NextWork(s, w, work).files
    requires name != JobOf(s, w).name || !(work.Append? || (work.Render? && work.ok))
    ensures name in s.files && NextWork(s, w, work).files[name] == s.files[name]
  {
  }

  /** Two users never share a name, so the writer's name is another file's. */
  lemma OtherFile(s: State, w: nat, work: WorkStep, name: string)
    requires RegistersOk(s) && FilesOk(s) && WorkEnabled(s, w, work) && UsersKept(s, NextWork(s, w, work))
    requires name in NextWork(s, w, work).files
    requires name != JobOf(s, w).name || !(work.Append? || (work.Render? && work.ok))
    ensures FileOk(NextWork(s, w, work), name)
  {
    FileUntouched(s, w, work, name);
    assert FileOk(s, name);
    var u :| KnownAs(s, u, name) && u in s.written && s.files[name] == s.written[u];
    FileWrites(s, w, work, u);
    if u == JobOf(s, w).user { OwnName(s, w, work, u, name); }
    assert KnownAs(NextWork(s, w, work), u, name);
  }

  lemma OwnName(s: State, w: nat, work: WorkStep, u: UserId, name: string)
    requires RegistersOk(s) && WorkEnabled(s, w, work) && KnownAs(s, u, name)
    requires name != JobOf(s, w).name || !(work.Append? || (work.Render? && work.ok))
    requires u == JobOf(s, w).user && u in s.written
    ensures NextWork(s, w, work).written == s.written
  {
    assert JobOk(s, s.core.workers[w].job) && PhaseFits(JobOf(s, w).kind, s.phases[w]);
  }

  lemma FilesStep(s: State, step: Step)
    requires RegistersOk(s) && FilesOk(s) && Enabled(s, step) && UsersKept(s, Next(s, step))
    ensures FilesOk(Next(s, step))
  {
    match step {
      case Open(call) =>
        OpenFrame(s, call);
        SameFiles(s, NextOpen(s, call));
      case InCreate(i, act) =>
        CreateFrame(s, i, act);
        SameFiles(s, NextCreate(s, i, act));
      case InDelete(i, act) =>
        DeleteFrame(s, i, act);
        SameFiles(s, NextDelete(s, i, act));
      case InSubmit(i, act) =>
        SubmitFrame(s, i, act);
        SameFiles(s, NextSubmit(s, i, act));
      case InFetch(i, act) =>
        FetchFrame(s, i, act);
        SameFiles(s, NextFetch(s, i, act));
      case InJob(w, work) => WorkFiles(s, w, work);
      case InLoop(loop) =>
        LoopFrame(s, loop);
        SameFiles(s, NextLoop(s, loop));
    }
  }

  // ---------------------------------------------------------------- cached and returned data

  lemma OpenReads(s: State, call: Call)
    requires ReadsOk(s) && RowsFresh(s) && CacheOk(s) && OpenEnabled(s, call) && WrittenGrows(s, NextOpen(s, call))
    ensures ReadsOk(NextOpen(s, call)) && RowsFresh(NextOpen(s, call)) && CacheOk(NextOpen(s, call))
  {
    var t := NextOpen(s, call);
    OpenFrame(s, call);
    forall i | 0 <= i < |t.ops| ensures CarriesData(t, t.ops[i]) && RowOwned(t, t.ops[i]) {
      if i < |s.ops| {
        assert t.ops[i] == t.ops[..|s.ops|][i];
        CarriesStays(s, t, s.ops[i]);
        if s.ops[i].ConfigUpdate? { assert t.ops[s.ops[i].row] == t.ops[..|s.ops|][s.ops[i].row]; }
      }
    }
    forall r | r in t.cache
      ensures r < |t.ops| && t.ops[r].Returned? && Snapshot(t, t.cache[r].user, t.cache[r].copy)
    {
      assert t.ops[r] == t.ops[..|s.ops|][r];
      SnapshotStays(s, t, t.cache[r].user, t.cache[r].copy);
    }
  }

  lemma CarriesStays(s: State, t: State, op: Op)
    requires CarriesData(s, op) && WrittenGrows(s, t)
    ensures CarriesData(t, op)
  {
    match op
    case ConfigSelect(user, copy) => SnapshotStays(s, t, user, copy);
    case ConfigUpdate(user, copy, row) => SnapshotStays(s, t, user, copy);
    case ConfigInsert(user, copy) => SnapshotStays(s, t, user, copy);
    case Returned(Config(user, copy)) => SnapshotStays(s, t, user, copy);
    case _ =>
  }

  /** A statement of call `i` that leaves the cache alone or only drops rows from it. */
  lemma CallReads(s: State, t: State, i: nat)
    requires ReadsOk(s) && RowsFresh(s) && CacheOk(s) && WrittenGrows(s, t)
    requires i < |s.ops| && |t.ops| == |s.ops| && t.ops == s.ops[i := t.ops[i]] && !s.ops[i].Returned?
    requires forall r :: r in t.cache ==> r in s.cache && t.cache[r] == s.cache[r]
    requires CarriesData(t, t.ops[i]) && RowOwned(t, t.ops[i])
    ensures ReadsOk(t) && RowsFresh(t) && CacheOk(t)
  {
    forall k | 0 <= k < |t.ops| ensures CarriesData(t, t.ops[k]) && RowOwned(t, t.ops[k]) {
      if k != i { CallReadsElsewhere(s, t, i, k); }
    }
    CacheStays(s, t, i);
  }

  lemma CacheStays(s: State, t: State, i: nat)
    requires RowsFresh(s) && CacheOk(s) && WrittenGrows(s, t)
    requires i < |s.ops| && |t.ops| == |s.ops| && t.ops == s.ops[i := t.ops[i]] && !s.ops[i].Returned?
    requires forall r :: r in t.cache ==> r in s.cache && t.cache[r] == s.cache[r]
    ensures RowsFresh(t) && CacheOk(t)
  {
    forall r | r in t.cache ensures Snapshot(t, t.cache[r].user, t.cache[r].copy) {
      SnapshotStays(s, t, t.cache[r].user, t.cache[r].copy);
    }
  }

  lemma CallReadsElsewhere(s: State, t: State, i: nat, k: nat)
    requires ReadsOk(s) && WrittenGrows(s, t) && k < |s.ops| && k != i
    requires i < |s.ops| && |t.ops| == |s.ops| && t.ops == s.ops[i := t.ops[i]] && !s.ops[i].Returned?
    requires forall r :: r in t.cache ==> r in s.cache && t.cache[r] == s.cache[r]
    ensures CarriesData(t, t.ops[k]) && RowOwned(t, t.ops[k])
  {
    assert t.ops[k] == s.ops[k];
    CarriesStays(s, t, s.ops[k]);
  }

  /** What GetUserConfig reads from the file is a snapshot of what the user's own job wrote. */
  lemma ReadIsSnapshot(s: State, i: nat)
    requires RegistersOk(s) && FilesOk(s) && i < |s.ops| && s.ops[i].ConfigRead? && s.ops[i].name in s.files
    ensures var op := s.ops[i];
            op.user in s.written && s.files[op.name] == s.written[op.user]
  {
    var op := s.ops[i];
    assert CallOk(s, i, op) && FileOk(s, op.name);
    var u :| KnownAs(s, u, op.name) && u in s.written && s.files[op.name] == s.written[u];
    assert u == op.user;
  }

  lemma ReadCarries(s: State, i: nat, act: FetchStep)
    requires RegistersOk(s) && FilesOk(s) && act.ReadFile?
    requires FetchEnabled(s, i, act) && WrittenGrows(s, NextFetch(s, i, act)) && |NextFetch(s, i, act).ops| == |s.ops|
    ensures CarriesData(NextFetch(s, i, act), NextFetch(s, i, act).ops[i])
    ensures !NextFetch(s, i, act).ops[i].ConfigUpdate?
  {
    if !act.err && s.ops[i].name in s.files { ReadIsSnapshot(s, i); }
  }

  lemma FetchCarries(s: State, i: nat, act: FetchStep)
    requires CacheOk(s) && RowsFresh(s) && i < |s.ops| && CarriesData(s, s.ops[i]) && !act.ReadFile?
    requires FetchEnabled(s, i, act) && WrittenGrows(s, NextFetch(s, i, act)) && |NextFetch(s, i, act).ops| == |s.ops|
    ensures CarriesData(NextFetch(s, i, act), NextFetch(s, i, act).ops[i])
    ensures !act.InsertRow? ==> RowOwned(NextFetch(s, i, act), NextFetch(s, i, act).ops[i])
  {
    var t, op := NextFetch(s, i, act), s.ops[i];
    match act {
      case GetCached(hit) =>
        if hit.Found? { SnapshotStays(s, t, op.user, s.cache[hit.row].copy); }
      case FindName(_) =>
      case _ => SaveCarries(s, i, act);
    }
  }

  lemma SaveCarries(s: State, i: nat, act: FetchStep)
    requires RowsFresh(s) && i < |s.ops| && CarriesData(s, s.ops[i])
    requires act.SelectRow? || act.UpdateRow? || act.InsertRow?
    requires FetchEnabled(s, i, act) && WrittenGrows(s, NextFetch(s, i, act)) && |NextFetch(s, i, act).ops| == |s.ops|
    ensures CarriesData(NextFetch(s, i, act), NextFetch(s, i, act).ops[i])
    ensures !act.InsertRow? ==> RowOwned(NextFetch(s, i, act), NextFetch(s, i, act).ops[i])
  {
    SnapshotStays(s, NextFetch(s, i, act), s.ops[i].user, s.ops[i].copy);
  }

  lemma CreateReads(s: State, i: nat, act: CreateStep)
    requires ReadsOk(s) && RowsFresh(s) && CacheOk(s) && CreateEnabled(s, i, act)
    requires WrittenGrows(s, NextCreate(s, i, act))
    ensures var t := NextCreate(s, i, act); ReadsOk(t) && RowsFresh(t) && CacheOk(t)
  {
    var t := NextCreate(s, i, act);
    CreateFrame(s, i, act);
    assert !s.ops[i].Returned? && (t.ops[i] == Returned(Rejected) || !t.ops[i].Returned?);
    CallReads(s, t, i);
  }

  lemma DeleteReads(s: State, i: nat, act: DeleteStep)
    requires ReadsOk(s) && RowsFresh(s) && CacheOk(s) && DeleteEnabled(s, i, act)
    requires WrittenGrows(s, NextDelete(s, i, act))
    ensures var t := NextDelete(s, i, act); ReadsOk(t) && RowsFresh(t) && CacheOk(t)
  {
    var t := NextDelete(s, i, act);
    DeleteFrame(s, i, act);
    CallReads(s, t, i);
  }

  lemma SubmitReads(s: State, i: nat, act: SubmitStep)
    requires ReadsOk(s) && RowsFresh(s) && CacheOk(s) && SubmitEnabled(s, i, act)
    requires WrittenGrows(s, NextSubmit(s, i, act))
    ensures var t := NextSubmit(s, i, act); ReadsOk(t) && RowsFresh(t) && CacheOk(t)
  {
    var t := NextSubmit(s, i, act);
    SubmitFrame(s, i, act);
    CallReads(s, t, i);
  }

  lemma FetchReads(s: State, i: nat, act: FetchStep)
    requires RegistersOk(s) && FilesOk(s) && ReadsOk(s) && RowsFresh(s) && CacheOk(s) && FetchEnabled(s, i, act)
    requires WrittenGrows(s, NextFetch(s, i, act)) && !act.UpdateRow? && !act.InsertRow?
    ensures var t := NextFetch(s, i, act); ReadsOk(t) && RowsFresh(t) && CacheOk(t)
  {
    var t := NextFetch(s, i, act);
    FetchFrame(s, i, act);
    if act.ReadFile? { ReadCarries(s, i, act); } else { FetchCarries(s, i, act); }
    CallReads(s, t, i);
  }

  /** Saving changes one row of the user whose snapshot it stores, or adds one. */
  ghost predicate RowSaved(s: State, t: State, i: nat, r: RowId)
    requires i < |s.ops|
  {
    && (forall k :: k in s.cache ==> k in t.cache && t.cache[k].user == s.cache[k].user)
    && (forall k :: k in t.cache && k != r ==> k in s.cache && t.cache[k] == s.cache[k])
    && (r in t.cache ==> Snapshot(t, t.cache[r].user, t.cache[r].copy))
    && (r in t.cache && r !in s.cache ==> r == i)
  }

  lemma StoreSaves(s: State, i: nat, act: FetchStep) returns (r: RowId)
    requires ReadsOk(s) && RowsFresh(s) && FetchEnabled(s, i, act) && (act.UpdateRow? || act.InsertRow?)
    requires WrittenGrows(s, NextFetch(s, i, act))
    ensures RowSaved(s, NextFetch(s, i, act), i, r)
    ensures !s.ops[i].Returned? && i !in s.cache
  {
    if act.UpdateRow? {
      r := UpdateSaves(s, i, act);
    } else {
      r := i;
      SnapshotStays(s, NextFetch(s, i, act), s.ops[i].user, s.ops[i].copy);
    }
  }

  lemma UpdateSaves(s: State, i: nat, act: FetchStep) returns (r: RowId)
    requires ReadsOk(s) && RowsFresh(s) && FetchEnabled(s, i, act) && act.UpdateRow?
    requires WrittenGrows(s, NextFetch(s, i, act))
    ensures RowSaved(s, NextFetch(s, i, act), i, r)
  {
    var t, op := NextFetch(s, i, act), s.ops[i];
    assert CarriesData(s, op) && RowOwned(s, op);
    SnapshotStays(s, t, op.user, op.copy);
    if act.err || op.row !in s.cache {
      assert t.cache == s.cache;
      r := i;
    } else {
      assert t.cache == s.cache[op.row := CacheRow(op.user, op.copy)];
      r := op.row;
    }
  }

  lemma StoreReads(s: State, i: nat, act: FetchStep)
    requires ReadsOk(s) && RowsFresh(s) && CacheOk(s) && FetchEnabled(s, i, act)
    requires WrittenGrows(s, NextFetch(s, i, act)) && (act.UpdateRow? || act.InsertRow?)
    ensures var t := NextFetch(s, i, act); ReadsOk(t) && RowsFresh(t) && CacheOk(t)
  {
    var t := NextFetch(s, i, act);
    FetchFrame(s, i, act);
    var op := s.ops[i];
    assert CarriesData(s, op);
    SnapshotStays(s, t, op.user, op.copy);
    var r := StoreSaves(s, i, act);
    SavedReads(s, t, i, r);
  }

  lemma SavedReads(s: State, t: State, i: nat, r: RowId)
    requires ReadsOk(s) && RowsFresh(s) && CacheOk(s) && WrittenGrows(s, t)
    requires i < |s.ops| && |t.ops| == |s.ops| && t.ops == s.ops[i := t.ops[i]] && !s.ops[i].Returned?
    requires t.ops[i].Returned? && CarriesData(t, t.ops[i]) && RowSaved(s, t, i, r)
    ensures ReadsOk(t) && RowsFresh(t) && CacheOk(t)
  {
    forall k | 0 <= k < |t.ops| ensures CarriesData(t, t.ops[k]) && RowOwned(t, t.ops[k]) {
      if k != i {
        assert t.ops[k] == s.ops[k];
        CarriesStays(s, t, s.ops[k]);
      }
    }
    forall q | q in t.cache ensures Snapshot(t, t.cache[q].user, t.cache[q].copy) {
      if q != r { SnapshotStays(s, t, t.cache[q].user, t.cache[q].copy); }
    }
  }

  /** Steps outside the calls keep what the calls and the cache hold. */
  lemma StillReads(s: State, t: State)
    requires ReadsOk(s) && RowsFresh(s) && CacheOk(s) && WrittenGrows(s, t) && t.ops == s.ops && t.cache == s.cache
    ensures ReadsOk(t) && RowsFresh(t) && CacheOk(t)
  {
    forall k | 0 <= k < |t.ops| ensures CarriesData(t, t.ops[k]) && RowOwned(t, t.ops[k]) {
      CarriesStays(s, t, s.ops[k]);
    }
    forall r | r in t.cache ensures Snapshot(t, t.cache[r].user, t.cache[r].copy) {
      SnapshotStays(s, t, t.cache[r].user, t.cache[r].copy);
    }
  }

  lemma ReadsStep(s: State, step: Step)
    requires RegistersOk(s) && ConfigsOk(s) && Enabled(s, step) && WrittenGrows(s, Next(s, step))
    ensures var t := Next(s, step); ReadsOk(t) && RowsFresh(t) && CacheOk(t)
  {
    match step {
      case Open(call) => OpenReads(s, call);
      case InCreate(i, act) => CreateReads(s, i, act);
      case InDelete(i, act) => DeleteReads(s, i, act);
      case InSubmit(i, act) => SubmitReads(s, i, act);
      case InFetch(i, act) =>
        if act.UpdateRow? || act.InsertRow? { StoreReads(s, i, act); } else { FetchReads(s, i, act); }
      case InJob(w, work) =>
        WorkFrame(s, w, work);
        StillReads(s, NextWork(s, w, work));
      case InLoop(loop) =>
        LoopFrame(s, loop);
        StillReads(s, NextLoop(s, loop));
    }
  }

  lemma ConfigsStep(s: State, step: Step)
    requires RegistersOk(s) && ConfigsOk(s) && Enabled(s, step)
    ensures ConfigsOk(Next(s, step))
  {
    RegistersStep(s, step);
    GrowsStep(s, step);
    WrittenStep(s, step);
    WritersStep(s, step);
    FilesStep(s, step);
    ReadsStep(s, step);
  }
}
