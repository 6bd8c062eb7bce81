/** When the cached configs part from the files, and when a user gets a second row. */
module CacheTheorems {
  import opened JobPipeline
  import opened CertService
  import opened ServiceInvariant
  import opened Registers
  import opened Configs
  import opened ServiceTheorems

  // ---------------------------------------------------------------- stale rows

  /** The call returned a config that a cached row holds too and the existing file does not. */
  ghost predicate Stale(t: State, i: nat) {
    && i < |t.ops| && t.ops[i].Returned? && t.ops[i].reply.Config?
    && var user, copy := t.ops[i].reply.user, t.ops[i].reply.copy;
       && user in t.users && t.users[user].name in t.files && t.files[t.users[user].name] != copy.data
       && exists r :: r in t.cache && t.cache[r] == CacheRow(user, copy)
  }

  /** The call has this copy in hand, or has returned it. */
  ghost predicate Holds(s: State, i: nat, user: UserId, copy: Copy) {
    && i < |s.ops|
    && match s.ops[i]
       case ConfigSelect(u, c) => u == user && c == copy
       case ConfigUpdate(u, c, _) => u == user && c == copy
       case ConfigInsert(u, c) => u == user && c == copy
       case Returned(Config(u, c)) => u == user && c == copy
       case _ => false
  }

  lemma HoldsOn(s: State, step: Step, i: nat, user: UserId, copy: Copy)
    requires Enabled(s, step) && Holds(s, i, user, copy)
    ensures Holds(Next(s, step), i, user, copy)
  {
    match step {
      case Open(call) =>
        OpenFrame(s, call);
        assert NextOpen(s, call).ops[i] == NextOpen(s, call).ops[..|s.ops|][i];
      case InCreate(k, act) => CreateFrame(s, k, act);
      case InDelete(k, act) => DeleteFrame(s, k, act);
      case InSubmit(k, act) => SubmitFrame(s, k, act);
      case InFetch(k, act) =>
        FetchFrame(s, k, act);
        if k == i { SaveHolds(s, i, act, user, copy); }
      case InJob(w, work) => WorkFrame(s, w, work);
      case InLoop(loop) => LoopFrame(s, loop);
    }
  }

  lemma SaveHolds(s: State, i: nat, act: FetchStep, user: UserId, copy: Copy)
    requires FetchEnabled(s, i, act) && Holds(s, i, user, copy)
    ensures Holds(NextFetch(s, i, act), i, user, copy)
  {
    match act {
      case SelectRow(_) =>
      case UpdateRow(_) =>
      case InsertRow(_) =>
    }
  }

  lemma {:induction false} HoldsAlong(s: State, steps: seq<Step>, i: nat, user: UserId, copy: Copy)
    requires ServiceOk(s) && IsRun(s, steps) && Holds(s, i, user, copy)
    ensures ServiceOk(After(s, steps)) && Holds(After(s, steps), i, user, copy)
    decreases |steps|
  {
    if steps != [] {
      ServiceStep(s, steps[0]);
      HoldsOn(s, steps[0], i, user, copy);
      HoldsAlong(Next(s, steps[0]), steps[1..], i, user, copy);
    }
  }

  /** A copy read with nothing left to write never goes stale. */
  lemma WholeStaysFresh(s: State, steps: seq<Step>, i: nat, user: UserId, copy: Copy)
    requires ServiceOk(s) && IsRun(s, steps) && Holds(s, i, user, copy) && !copy.torn
    ensures !Stale(After(s, steps), i)
  {
    var t := After(s, steps);
    HoldsAlong(s, steps, i, user, copy);
    if t.ops[i].Returned? {
      assert CarriesData(t, t.ops[i]);
      SnapshotGenuine(t, user, copy);
    }
  }

  /** What two statements of a call leave behind that store its copy. */
  ghost predicate StoredBy(u: State, t: State, i: nat, user: UserId, copy: Copy) {
    && i < |t.ops| && t.ops[i] == Returned(Config(user, copy))
    && (exists r :: r in t.cache && t.cache[r] == CacheRow(user, copy))
    && t.core == u.core && t.phases == u.phases && t.files == u.files && t.users == u.users && t.written == u.written
  }

  lemma StoresByUpdate(u: State, i: nat, user: UserId, copy: Copy) returns (steps: seq<Step>)
    requires i < |u.ops| && u.ops[i] == ConfigSelect(user, copy) && HasRow(u, user)
    ensures IsRun(u, steps) && StoredBy(u, After(u, steps), i, user, copy)
  {
    var r :| r in u.cache && u.cache[r].user == user;
    var first, second := InFetch(i, SelectRow(Found(r))), InFetch(i, UpdateRow(false));
    var v := Next(u, first);
    assert v == Goto(u, i, ConfigUpdate(user, copy, r));
    assert Next(v, second).cache[r] == CacheRow(user, copy);
    TwoSteps(u, first, second);
    steps := [first, second];
  }

  lemma StoresByInsert(u: State, i: nat, user: UserId, copy: Copy) returns (steps: seq<Step>)
    requires i < |u.ops| && u.ops[i] == ConfigSelect(user, copy) && !HasRow(u, user)
    ensures IsRun(u, steps) && StoredBy(u, After(u, steps), i, user, copy)
  {
    var first, second := InFetch(i, SelectRow(NoRow)), InFetch(i, InsertRow(false));
    var v := Next(u, first);
    assert v == Goto(u, i, ConfigInsert(user, copy));
    assert Next(v, second).cache[i] == CacheRow(user, copy);
    TwoSteps(u, first, second);
    steps := [first, second];
  }

  lemma TwoSteps(s: State, first: Step, second: Step)
    requires Enabled(s, first) && Enabled(Next(s, first), second)
    ensures IsRun(s, [first, second]) && After(s, [first, second]) == Next(Next(s, first), second)
  {
    RunSnoc(s, [], first);
    RunSnoc(s, [first], second);
    assert [] + [first] == [first] && [first] + [second] == [first, second];
  }

  /** The worker that has bytes left writes into the file of the user's name. */
  lemma WriterOf(s: State, user: UserId) returns (w: nat)
    requires ServiceOk(s) && Unfinished(s, user) && user in s.users
    ensures w < |s.phases| && InPhase(s, w) && MidWrite(s.phases[w])
    ensures JobOf(s, w).user == user && JobOf(s, w).name == s.users[user].name && WriterOk(s, w)
  {
    w :| w < |s.phases| && InPhase(s, w) && MidWrite(s.phases[w]) && JobOf(s, w).user == user;
    assert WriterOk(s, w);
    assert JobOk(s, s.core.workers[w].job) && PhaseFits(JobOf(s, w).kind, s.phases[w]);
    assert KnownAs(s, user, JobOf(s, w).name);
  }

  /** The writer's next byte makes the file differ from what was read before. */
  lemma NextByteDiffers(s: State, w: nat, name: string)
    requires w < |s.phases| && InPhase(s, w) && MidWrite(s.phases[w]) && WriterOk(s, w)
    requires JobOf(s, w).name == name && name in s.files
    ensures Enabled(s, InJob(w, Append(1)))
    ensures var t := Next(s, InJob(w, Append(1)));
            && t.ops == s.ops && t.cache == s.cache && t.users == s.users
            && name in t.files && t.files[name] != s.written[JobOf(s, w).user]
  {
    var p := s.phases[w];
    assert |p.data[..p.done + 1]| == p.done + 1 && |p.data[..p.done]| == p.done;
  }

  lemma TornGoesStale(u: State, i: nat, user: UserId, copy: Copy) returns (steps: seq<Step>)
    requires ServiceOk(u) && i < |u.ops| && u.ops[i] == ConfigSelect(user, copy) && Unfinished(u, user)
    requires user in u.users && u.users[user].name in u.files && user in u.written && copy.data == u.written[user]
    ensures IsRun(u, steps) && Stale(After(u, steps), i)
  {
    if HasRow(u, user) {
      steps := StoresByUpdate(u, i, user, copy);
    } else {
      steps := StoresByInsert(u, i, user, copy);
    }
    var v := After(u, steps);
    RunKeeps(u, steps);
    UnfinishedSame(u, v, user);
    var w := WriterOf(v, user);
    NextByteDiffers(v, w, u.users[user].name);
    RunSnoc(u, steps, InJob(w, Append(1)));
    steps := steps + [InJob(w, Append(1))];
  }

  lemma UnfinishedSame(s: State, t: State, user: UserId)
    requires Unfinished(s, user) && t.core == s.core && t.phases == s.phases
    ensures Unfinished(t, user)
  {
    var w: nat :| w < |s.phases| && InPhase(s, w) && MidWrite(s.phases[w]) && JobOf(s, w).user == user;
    assert InPhase(t, w) && JobOf(t, w).user == user;
  }

  lemma ReadEffect(s: State, i: nat)
    requires FetchEnabled(s, i, ReadFile(false)) && s.ops[i].name in s.files
    ensures var copy := Copy(s.files[s.ops[i].name], Unfinished(s, s.ops[i].user));
            NextFetch(s, i, ReadFile(false)) == Goto(s, i, ConfigSelect(s.ops[i].user, copy))
  {
  }

  lemma ReaderKnown(s: State, i: nat)
    requires RegistersOk(s) && FilesOk(s) && i < |s.ops| && s.ops[i].ConfigRead? && s.ops[i].name in s.files
    ensures var user := s.ops[i].user;
            && user in s.users && s.users[user].name == s.ops[i].name
            && user in s.written && s.files[s.ops[i].name] == s.written[user]
  {
    ReadIsSnapshot(s, i);
    assert CallOk(s, i, s.ops[i]) && KnownAs(s, s.ops[i].user, s.ops[i].name);
  }

  /** Some continuation caches what call `i` has in hand and leaves it different from the existing file. */
  ghost predicate CanGoStale(u: State, i: nat) {
    exists steps :: IsRun(u, steps) && Stale(After(u, steps), i)
  }

  /**
   What a call reads from the file can end up cached and different from the existing file if and only if a
   worker still has bytes of that user's file to write when the call reads it.
   */
  lemma StaleIff(s: State, i: nat)
    requires Reachable(s) && FetchEnabled(s, i, ReadFile(false)) && s.ops[i].name in s.files
    ensures CanGoStale(NextFetch(s, i, ReadFile(false)), i) <==> Unfinished(s, s.ops[i].user)
  {
    ReachableOk(s);
    ServiceStep(s, InFetch(i, ReadFile(false)));
    ReadEffect(s, i);
    ReaderKnown(s, i);
    var u, user := NextFetch(s, i, ReadFile(false)), s.ops[i].user;
    var copy := Copy(s.files[s.ops[i].name], Unfinished(s, user));
    assert u.ops[i] == ConfigSelect(user, copy);
    if Unfinished(s, user) {
      UnfinishedSame(s, u, user);
      var steps := TornGoesStale(u, i, user, copy);
    } else {
      forall steps | IsRun(u, steps) ensures !Stale(After(u, steps), i) {
        WholeStaysFresh(u, steps, i, user, copy);
      }
    }
  }

  // ---------------------------------------------------------------- rows per user

  ghost predicate OneRow(s: State, user: UserId) {
    forall q, r :: q in s.cache && r in s.cache && s.cache[q].user == user && s.cache[r].user == user ==> q == r
  }

  predicate Inserting(s: State, i: int, user: UserId) {
    0 <= i < |s.ops| && s.ops[i].ConfigInsert? && s.ops[i].user == user
  }

  /** A call is about to insert a row for a user who has one, or whom another call is about to give one. */
  ghost predicate Racing(s: State, user: UserId) {
    exists i :: Inserting(s, i, user) && (HasRow(s, user) || exists j :: j != i && Inserting(s, j, user))
  }

  /** A call finds no row for the user while another is about to insert one. */
  ghost predicate Overlapping(s: State, step: Step, user: UserId) {
    && step.InFetch? && step.fetch == SelectRow(NoRow) && step.i < |s.ops| && s.ops[step.i].ConfigSelect?
    && s.ops[step.i].user == user && exists j :: Inserting(s, j, user)
  }

  /** Where a cached row comes from. */
  lemma RowBefore(s: State, step: Step, r: RowId)
    requires Enabled(s, step) && r in Next(s, step).cache
    ensures || (r in s.cache && s.cache[r].user == Next(s, step).cache[r].user)
            || (step == InFetch(r, InsertRow(false)) && Inserting(s, r, Next(s, step).cache[r].user))
  {
    match step {
      case Open(call) => OpenFrame(s, call);
      case InCreate(k, act) => CreateFrame(s, k, act);
      case InDelete(k, act) => DeleteRows(s, k, act, r);
      case InSubmit(k, act) => SubmitFrame(s, k, act);
      case InFetch(k, act) => FetchRows(s, k, act, r);
      case InJob(w, work) => WorkFrame(s, w, work);
      case InLoop(loop) => LoopFrame(s, loop);
    }
  }

  lemma DeleteRows(s: State, i: nat, act: DeleteStep, r: RowId)
    requires DeleteEnabled(s, i, act) && r in NextDelete(s, i, act).cache
    ensures r in s.cache && s.cache[r] == NextDelete(s, i, act).cache[r]
  {
    match act {
      case FindUser(_) =>
      case SubmitRevoke =>
      case MarkRevoked(_) =>
      case DropCache(_) =>
    }
  }

  lemma FetchRows(s: State, i: nat, act: FetchStep, r: RowId)
    requires FetchEnabled(s, i, act) && r in NextFetch(s, i, act).cache
    ensures var t := NextFetch(s, i, act);
            || (r in s.cache && s.cache[r].user == t.cache[r].user)
            || (r == i && act == InsertRow(false) && Inserting(s, i, t.cache[r].user))
  {
    match act {
      case GetCached(_) =>
      case FindName(_) =>
      case ReadFile(_) =>
      case SelectRow(_) =>
      case UpdateRow(_) =>
      case InsertRow(_) =>
    }
  }

  /** Where a call about to insert comes from. */
  lemma InsertingBefore(s: State, step: Step, i: int, user: UserId)
    requires Enabled(s, step) && Inserting(Next(s, step), i, user)
    ensures || (Inserting(s, i, user) && !(step.InFetch? && step.i == i))
            || (step == InFetch(i, SelectRow(NoRow)) && s.ops[i].ConfigSelect? && s.ops[i].user == user)
  {
    match step {
      case Open(call) =>
        OpenFrame(s, call);
        if i < |s.ops| { assert NextOpen(s, call).ops[i] == NextOpen(s, call).ops[..|s.ops|][i]; }
      case InCreate(k, act) => CreateFrame(s, k, act);
      case InDelete(k, act) => DeleteFrame(s, k, act);
      case InSubmit(k, act) => SubmitFrame(s, k, act);
      case InFetch(k, act) =>
        FetchFrame(s, k, act);
        if k == i { FetchInserts(s, i, act, user); }
      case InJob(w, work) => WorkFrame(s, w, work);
      case InLoop(loop) => LoopFrame(s, loop);
    }
  }

  lemma FetchInserts(s: State, i: nat, act: FetchStep, user: UserId)
    requires FetchEnabled(s, i, act) && Inserting(NextFetch(s, i, act), i, user)
    ensures act == SelectRow(NoRow) && s.ops[i].ConfigSelect? && s.ops[i].user == user
  {
    match act {
      case GetCached(_) =>
      case FindName(_) =>
      case ReadFile(_) =>
      case SelectRow(_) =>
      case UpdateRow(_) =>
      case InsertRow(_) =>
    }
  }

  /** Without a race the user keeps at most one row, and only an overlapping look-up starts a race. */
  lemma RowsStep(s: State, step: Step, user: UserId)
    requires OneRow(s, user) && !Racing(s, user) && Enabled(s, step)
    ensures OneRow(Next(s, step), user)
    ensures Racing(Next(s, step), user) <==> Overlapping(s, step, user)
  {
    var t := Next(s, step);
    forall q, r | q in t.cache && r in t.cache && t.cache[q].user == user && t.cache[r].user == user ensures q == r {
      RowBefore(s, step, q);
      RowBefore(s, step, r);
    }
    if Racing(t, user) { RaceBegins(s, step, user); }
    if Overlapping(s, step, user) { OverlapRaces(s, step, user); }
  }

  lemma RaceBegins(s: State, step: Step, user: UserId)
    requires !Racing(s, user) && Enabled(s, step) && Racing(Next(s, step), user)
    ensures Overlapping(s, step, user)
  {
    var t := Next(s, step);
    var i :| Inserting(t, i, user) && (HasRow(t, user) || exists j :: j != i && Inserting(t, j, user));
    InsertingBefore(s, step, i, user);
    if HasRow(t, user) {
      var r :| r in t.cache && t.cache[r].user == user;
      RowBefore(s, step, r);
    }
    if j :| j != i && Inserting(t, j, user) { InsertingBefore(s, step, j, user); }
  }

  lemma OverlapRaces(s: State, step: Step, user: UserId)
    requires Enabled(s, step) && Overlapping(s, step, user)
    ensures Racing(Next(s, step), user)
  {
    var j :| Inserting(s, j, user);
    var t := Next(s, step);
    assert t == Goto(s, step.i, ConfigInsert(user, s.ops[step.i].copy));
    assert Inserting(t, step.i, user) && Inserting(t, j, user) && j != step.i;
  }

  // ---------------------------------------------------------------- a second row

  /** A run of successful insertions and nothing else. */
  ghost predicate InsertionsOnly(s: State, steps: seq<Step>) {
    IsRun(s, steps) && forall k :: 0 <= k < |steps| ==> steps[k].InFetch? && steps[k].fetch == InsertRow(false)
  }

  /** Letting calls that stand before their insertion go on gives the user a second row. */
  ghost predicate CanDouble(s: State, user: UserId) {
    exists steps :: InsertionsOnly(s, steps) && !OneRow(After(s, steps), user)
  }

  lemma InsertOne(s: State, i: nat, user: UserId) returns (t: State)
    requires Inserting(s, i, user)
    ensures Enabled(s, InFetch(i, InsertRow(false))) && t == Next(s, InFetch(i, InsertRow(false)))
    ensures t.cache == s.cache[i := CacheRow(user, s.ops[i].copy)]
    ensures t.ops == s.ops[i := Returned(Config(user, s.ops[i].copy))]
  {
    t := Next(s, InFetch(i, InsertRow(false)));
  }

  /** One insertion beside an existing row. */
  lemma InsertBeside(s: State, i: nat, user: UserId)
    requires RowsFresh(s) && Inserting(s, i, user) && HasRow(s, user)
    ensures CanDouble(s, user)
  {
    var step := InFetch(i, InsertRow(false));
    var t := InsertOne(s, i, user);
    RunSnoc(s, [], step);
    assert [] + [step] == [step];
    var r :| r in s.cache && s.cache[r].user == user;
    assert t.cache[r].user == user && t.cache[i].user == user;
    assert InsertionsOnly(s, [step]) && !OneRow(After(s, [step]), user);
  }

  /** Two insertions, one after the other. */
  lemma InsertBoth(s: State, i: nat, j: nat, user: UserId)
    requires Inserting(s, i, user) && Inserting(s, j, user) && i != j
    ensures CanDouble(s, user)
  {
    var first, second := InFetch(i, InsertRow(false)), InFetch(j, InsertRow(false));
    var t := InsertOne(s, i, user);
    var u := InsertOne(t, j, user);
    TwoSteps(s, first, second);
    assert u.cache[i].user == user && u.cache[j].user == user;
    assert InsertionsOnly(s, [first, second]) && !OneRow(After(s, [first, second]), user);
  }

  /** A race can always be lost. */
  lemma RaceDoubles(s: State, user: UserId)
    requires RowsFresh(s) && Racing(s, user)
    ensures CanDouble(s, user)
  {
    var i :| Inserting(s, i, user) && (HasRow(s, user) || exists j :: j != i && Inserting(s, j, user));
    if HasRow(s, user) {
      InsertBeside(s, i, user);
    } else {
      var j :| j != i && Inserting(s, j, user);
      InsertBoth(s, i, j, user);
    }
  }

  lemma {:induction false} InsertsKeepOne(s: State, steps: seq<Step>, user: UserId)
    requires OneRow(s, user) && !Racing(s, user) && InsertionsOnly(s, steps)
    ensures OneRow(After(s, steps), user)
    decreases |steps|
  {
    if steps != [] {
      RowsStep(s, steps[0], user);
      assert forall k :: 0 <= k < |steps[1..]| ==> steps[1..][k] == steps[k + 1];
      InsertsKeepOne(Next(s, steps[0]), steps[1..], user);
    }
  }

  /** From a state with at most one row for the user, the insertions under way leave two just if they race. */
  lemma DoublesIff(s: State, user: UserId)
    requires ServiceOk(s) && OneRow(s, user)
    ensures CanDouble(s, user) <==> Racing(s, user)
  {
    if Racing(s, user) {
      RaceDoubles(s, user);
    } else {
      forall steps | InsertionsOnly(s, steps) ensures OneRow(After(s, steps), user) { InsertsKeepOne(s, steps, user); }
    }
  }

  // ---------------------------------------------------------------- over whole runs

  /** Somewhere in the run a call finds no row for the user while another is about to insert one. */
  ghost predicate Overlaps(s: State, steps: seq<Step>, user: UserId)
    requires IsRun(s, steps)
    decreases |steps|
  {
    steps != [] && (Overlapping(s, steps[0], user) || Overlaps(Next(s, steps[0]), steps[1..], user))
  }

  /** Somewhere along the run the user has two rows, or the insertions under way can give two. */
  ghost predicate EverDoubles(s: State, steps: seq<Step>, user: UserId)
    requires IsRun(s, steps)
    decreases |steps|
  {
    || !OneRow(s, user) || CanDouble(s, user)
    || (steps != [] && EverDoubles(Next(s, steps[0]), steps[1..], user))
  }

  lemma {:induction false} EverDoublesIff(s: State, steps: seq<Step>, user: UserId)
    requires ServiceOk(s) && IsRun(s, steps) && OneRow(s, user) && !Racing(s, user)
    ensures EverDoubles(s, steps, user) <==> Overlaps(s, steps, user)
    ensures !Overlaps(s, steps, user) ==> OneRow(After(s, steps), user)
    decreases |steps|
  {
    DoublesIff(s, user);
    if steps != [] {
      var t := Next(s, steps[0]);
      ServiceStep(s, steps[0]);
      RowsStep(s, steps[0], user);
      DoublesIff(t, user);
      if !Racing(t, user) { EverDoublesIff(t, steps[1..], user); }
    }
  }

  /**
   Of a whole run: a user has two rows at some point, or gets them by letting the insertions under way go on,
   if and only if some call found no row for the user while another stood before its insertion. Without that
   the table holds at most one row for each user to the end.
   */
  lemma SecondRowIff(workers: nat, capacity: nat, steps: seq<Step>, user: UserId)
    requires IsRun(Boot(workers, capacity), steps)
    ensures var b := Boot(workers, capacity);
            && (EverDoubles(b, steps, user) <==> Overlaps(b, steps, user))
            && (!Overlaps(b, steps, user) ==> OneRow(After(b, steps), user))
  {
    BootOk(workers, capacity);
    EverDoublesIff(Boot(workers, capacity), steps, user);
  }
}
