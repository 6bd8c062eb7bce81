/**
 Runs that show where the guarantees of ServiceTheorems end, and for which services: a Stop that hangs, a
 revocation undone, a second cached row, half a config in the cache.
 */
module WitnessRuns {
  import opened JobPipeline
  import opened PipelineFacts
  import opened CertService
  import opened OneWorker
  import opened Progress
  import opened Reactivation
  import opened Registers
  import opened Revocations
  import opened ServiceInvariant
  import opened ServiceTheorems

  /** `t` follows from `s`; if `orderly`, by a run whose deletions wait for the creation to return. */
  ghost predicate Leads(s: State, t: State, orderly: bool) {
    exists steps :: IsRun(s, steps) && (orderly ==> OrderlyRun(s, steps)) && After(s, steps) == t
  }

  lemma Here(s: State, orderly: bool)
    ensures Leads(s, s, orderly)
  {
    assert IsRun(s, []) && OrderlyRun(s, []) && After(s, []) == s;
  }

  lemma {:induction false} OrderlySnoc(s: State, steps: seq<Step>, step: Step)
    requires IsRun(s, steps) && OrderlyRun(s, steps)
    requires Enabled(After(s, steps), step) && Orderly(After(s, steps), step)
    ensures OrderlyRun(s, steps + [step])
    decreases |steps|
  {
    if steps == [] {
      assert ([] + [step])[1..] == [];
    } else {
      OrderlySnoc(Next(s, steps[0]), steps[1..], step);
      assert (steps + [step])[1..] == steps[1..] + [step];
    }
  }

  /** One more step. */
  lemma Go(s: State, t: State, orderly: bool, step: Step) returns (u: State)
    requires Leads(s, t, orderly) && Enabled(t, step) && (orderly ==> Orderly(t, step))
    ensures Leads(s, u, orderly) && u == Next(t, step)
  {
    var steps :| IsRun(s, steps) && (orderly ==> OrderlyRun(s, steps)) && After(s, steps) == t;
    RunSnoc(s, steps, step);
    if orderly { OrderlySnoc(s, steps, step); }
    u := Next(t, step);
    assert After(s, steps + [step]) == u;
  }

  /** A run from there. */
  lemma {:induction false} GoOn(s: State, t: State, orderly: bool, steps: seq<Step>)
    requires Leads(s, t, orderly) && IsRun(t, steps) && (orderly ==> OrderlyRun(t, steps))
    ensures Leads(s, After(t, steps), orderly)
    decreases |steps|
  {
    if steps != [] {
      var u := Go(s, t, orderly, steps[0]);
      GoOn(s, u, orderly, steps[1..]);
    }
  }

  lemma LeadsReaches(workers: nat, capacity: nat, t: State, orderly: bool)
    requires Leads(Boot(workers, capacity), t, orderly)
    ensures Reachable(t)
  {
  }

  // ---------------------------------------------------------------- whole calls and jobs as runs

  /** The pipeline after job `i` was registered and sent. */
  function Sent(c: Core, i: JobId, kind: JobKind, user: int, name: string): Core {
    c.(jobs := c.jobs[i := Job(kind, user, name, Pending, false, false)], stage := c.stage[i := Queued],
       queue := c.queue + [i], enqueued := c.enqueued + [i])
  }

  ghost predicate RoomToSend(s: State) {
    |s.ops| !in s.core.jobs && |s.core.queue| < s.core.capacity
  }

  /** CreateUser up to the inserted row. */
  lemma InsertRun(b: State, s: State, orderly: bool, name: string) returns (t: State)
    requires Leads(b, s, orderly) && ValidUsername(name) && !NameTaken(s, name)
    ensures Leads(b, t, orderly)
    ensures t == s.(ops := s.ops + [CreateSubmit(name)], users := s.users[|s.ops| := User(name, Inactive, "")])
  {
    var i := |s.ops|;
    t := Go(b, s, orderly, Open(CreateUser(name)));
    assert t == s.(ops := s.ops + [CreateCheck(name)]);
    t := Go(b, t, orderly, InCreate(i, CheckName(false)));
    assert (s.ops + [CreateCheck(name)])[i := CreateInsert(name)] == s.ops + [CreateInsert(name)];
    assert t == s.(ops := s.ops + [CreateInsert(name)]);
    t := Go(b, t, orderly, InCreate(i, InsertUser(false)));
    assert (s.ops + [CreateInsert(name)])[i := CreateSubmit(name)] == s.ops + [CreateSubmit(name)];
  }

  lemma CreateRun(b: State, s: State, orderly: bool, name: string) returns (t: State)
    requires Leads(b, s, orderly) && RoomToSend(s)
    requires ValidUsername(name) && !NameTaken(s, name)
    ensures Leads(b, t, orderly)
    ensures t == s.(ops := s.ops + [Returned(Created)], users := s.users[|s.ops| := User(name, Inactive, "")],
                    core := Sent(s.core, |s.ops|, GenerateCert, |s.ops|, name))
  {
    var i := |s.ops|;
    t := InsertRun(b, s, orderly, name);
    t := Go(b, t, orderly, InCreate(i, SubmitGenerate));
    assert t.ops == s.ops + [CreateWait];
    t := Go(b, t, orderly, InSubmit(i, Send));
    assert t.ops == s.ops + [Returned(Created)];
    assert s.core.stage[i := Waiting][i := Queued] == s.core.stage[i := Queued];
  }

  /** DeleteUser up to the user it found. */
  lemma FindRun(b: State, s: State, orderly: bool, user: UserId) returns (t: State)
    requires Leads(b, s, orderly) && user in s.users && (orderly ==> CreateOver(s, user))
    ensures Leads(b, t, orderly)
    ensures t == s.(ops := s.ops + [DeleteSubmit(user, s.users[user].name)], deletes := s.deletes + {user})
  {
    var i := |s.ops|;
    t := Go(b, s, orderly, Open(DeleteUser(user)));
    assert t.ops == s.ops + [DeleteFind(user)];
    t := Go(b, t, orderly, InDelete(i, FindUser(false)));
    assert t.ops == s.ops + [DeleteSubmit(user, s.users[user].name)];
  }

  /** DeleteUser up to and including the send of its revoke job. */
  lemma DeleteRun(b: State, s: State, orderly: bool, user: UserId) returns (t: State)
    requires Leads(b, s, orderly) && RoomToSend(s) && user in s.users
    requires orderly ==> CreateOver(s, user)
    ensures Leads(b, t, orderly)
    ensures t == s.(ops := s.ops + [DeleteMark(user)], deletes := s.deletes + {user},
                    core := Sent(s.core, |s.ops|, RevokeCert, user, s.users[user].name))
  {
    var i := |s.ops|;
    t := FindRun(b, s, orderly, user);
    t := Go(b, t, orderly, InDelete(i, SubmitRevoke));
    assert t.ops == s.ops + [DeleteWait(user)];
    t := Go(b, t, orderly, InSubmit(i, Send));
    assert t.ops == s.ops + [DeleteMark(user)];
    assert s.core.stage[i := Waiting][i := Queued] == s.core.stage[i := Queued];
  }

  /** Worker `w` takes job `id` and begins it. */
  lemma BeginRun(b: State, s: State, orderly: bool, w: nat, id: JobId) returns (t: State)
    requires Leads(b, s, orderly) && w < |s.core.workers| && |s.phases| == |s.core.workers|
    requires s.core.workers[w].Idle? && s.core.queue != [] && s.core.queue[0] == id && id in s.core.jobs
    ensures Leads(b, t, orderly)
    ensures t == s.(phases := s.phases[w := FirstPhase(s.core.jobs[id].kind)],
                    core := s.core.(queue := s.core.queue[1..], taken := s.core.taken + [id],
                                    stage := s.core.stage[id := Held(w)],
                                    workers := s.core.workers[w := Working(id)],
                                    jobs := s.core.jobs[id := s.core.jobs[id].(status := Processing, started := true)]))
  {
    t := Go(b, s, orderly, InLoop(TakeJob(w)));
    assert t.core.workers[w] == Taken(id) && t.phases == s.phases;
    t := Go(b, t, orderly, InLoop(BeginJob(w)));
    assert s.core.workers[w := Taken(id)][w := Working(id)] == s.core.workers[w := Working(id)];
  }

  /** Worker `w` ends its job well and waits to post it. */
  lemma FinishRun(b: State, s: State, orderly: bool, w: nat, id: JobId) returns (t: State)
    requires Leads(b, s, orderly) && w < |s.core.workers| && |s.phases| == |s.core.workers|
    requires s.core.workers[w] == Working(id) && id in s.core.jobs && !s.core.jobs[id].kind.RenewCert?
    requires s.phases[w] == Finishing(true)
    ensures Leads(b, t, orderly)
    ensures t == s.(phases := s.phases[w := Resting],
                    core := s.core.(workers := s.core.workers[w := Posting(id)],
                                    jobs := s.core.jobs[id := s.core.jobs[id].(status := Completed, ended := true)]))
  {
    t := Go(b, s, orderly, InLoop(FinishJob(w)));
  }

  lemma PostOnce(b: State, s: State, orderly: bool, w: nat, id: JobId) returns (t: State)
    requires Leads(b, s, orderly) && w < |s.core.workers| && s.core.workers[w] == Posting(id)
    requires s.core.results == [] && s.core.capacity > 0
    ensures Leads(b, t, orderly)
    ensures t == s.(core := s.core.(workers := s.core.workers[w := Idle], results := [id],
                                    stage := s.core.stage[id := Posted]))
  {
    t := Go(b, s, orderly, InLoop(PostJob(w)));
    assert s.core.results + [id] == [id];
  }

  /** Worker `w` posts its job and the collector receives it. */
  lemma PostRun(b: State, s: State, orderly: bool, w: nat, id: JobId) returns (t: State)
    requires Leads(b, s, orderly) && w < |s.core.workers|
    requires s.core.workers[w] == Posting(id) && s.core.results == [] && s.core.collector.Ready?
    requires s.core.capacity > 0
    ensures Leads(b, t, orderly)
    ensures t == s.(core := s.core.(workers := s.core.workers[w := Idle], collector := Delivering(id),
                                    stage := s.core.stage[id := Delivered]))
  {
    t := PostOnce(b, s, orderly, w, id);
    t := Go(b, t, orderly, InLoop(ReceiveResult));
    assert [id][1..] == [] == s.core.results;
    assert s.core.stage[id := Posted][id := Delivered] == s.core.stage[id := Delivered];
  }

  /** Worker `w` posts its completed job and the collector stores its outcome. */
  lemma CollectRun(b: State, s: State, orderly: bool, w: nat, id: JobId) returns (t: State)
    requires Leads(b, s, orderly) && w < |s.core.workers| && id in s.core.jobs
    requires s.core.workers[w] == Posting(id) && s.core.results == [] && s.core.collector.Ready?
    requires s.core.capacity > 0 && EffectOf(s.core.jobs[id]) != []
    ensures Leads(b, t, orderly)
    ensures var e := EffectOf(s.core.jobs[id])[0];
            && t.users == SetStatus(s.users, e.0, e.1)
            && t.landed == (if e.1.Revoked? then s.landed + {e.0} else s.landed)
    ensures t.core.jobs == s.core.jobs && t.core.results == [] && t.core.collector.Ready?
    ensures t.core.workers == s.core.workers[w := Idle] && t.core.capacity == s.core.capacity
    ensures t.core.closed == s.core.closed && t.core.queue == s.core.queue
    ensures t.ops == s.ops && t.phases == s.phases && t.cache == s.cache && t.files == s.files
  {
    t := PostRun(b, s, orderly, w, id);
    t := Go(b, t, orderly, InLoop(CollectResult(false)));
  }

  // ---------------------------------------------------------------- more in flight than the buffer takes

  lemma AliceIsValid()
    ensures ValidUsername("alice")
  {
  }

  /** A user is created and the worker has taken the generate job. */
  lemma OneTaken(b: State) returns (s: State)
    requires b == Boot(1, 1)
    ensures Leads(b, s, false) && !s.core.closed && s.core.capacity == 1 && |s.ops| == 1
    ensures s.core.jobs.Keys == {0} && 0 in s.users
    ensures s.core.queue == [] && s.core.workers == [Taken(0)] && s.core.results == []
  {
    Here(b, false);
    AliceIsValid();
    s := CreateRun(b, b, false, "alice");
    assert s.core.queue == [0] && s.core.workers == [Idle];
    s := Go(b, s, false, InLoop(TakeJob(0)));
  }

  /** The user's deletion sends a second job, and Stop is called. */
  lemma TwoInFlight() returns (s: State)
    ensures Reachable(s) && s.core.closed && s.core.capacity == 1
    ensures s.core.queue == [1] && s.core.workers == [Taken(0)] && s.core.results == []
  {
    var b := Boot(1, 1);
    s := OneTaken(b);
    s := DeleteRun(b, s, false, 0);
    assert s.core.queue == [1];
    s := Go(b, s, false, InLoop(Shutdown));
    LeadsReaches(1, 1, s, false);
  }

  /** With one worker and a buffer of one, Stop can be called with two jobs in flight, and can then hang. */
  lemma StopHangs() returns (s: State, steps: seq<Step>)
    ensures Reachable(s) && s.core.closed && |s.core.workers| == 1 && s.core.capacity == 1
    ensures SystemRun(s, steps) && Stuck(After(s, steps).core)
  {
    s := TwoInFlight();
    ReachableOk(s);
    assert s.core.workers[1..] == [] && s.core.workers[0].Taken?;
    assert BusyCount(s.core.workers) == 1;
    steps := OverflowCanStick(s);
  }

  // ---------------------------------------------------------------- revocations that are undone

  /** Worker `w` carries revoke job `id` out. */
  lemma RevokeRun(b: State, s: State, orderly: bool, w: nat, id: JobId) returns (t: State)
    requires Leads(b, s, orderly) && w < |s.core.workers| && |s.phases| == |s.core.workers|
    requires s.core.workers[w].Idle? && s.core.queue != [] && s.core.queue[0] == id
    requires id in s.core.jobs && s.core.jobs[id].kind.RevokeCert?
    ensures Leads(b, t, orderly)
    ensures t.core.workers == s.core.workers[w := Posting(id)] && t.core.results == s.core.results
    ensures t.core.queue == s.core.queue[1..] && |t.phases| == |s.phases|
    ensures t.core.collector == s.core.collector && t.core.capacity == s.core.capacity
    ensures t.core.jobs == s.core.jobs[id := s.core.jobs[id].(status := Completed, started := true, ended := true)]
    ensures t.users == s.users && t.landed == s.landed && t.cache == s.cache
    ensures t.core.closed == s.core.closed && t.ops == s.ops && t.files == s.files - {s.core.jobs[id].name}
  {
    t := BeginRun(b, s, orderly, w, id);
    t := Go(b, t, orderly, InJob(w, RevokeCertificate(true)));
    assert t.phases[w] == Removing;
    t := Go(b, t, orderly, InJob(w, RemoveFile(true)));
    assert t.phases[w] == Finishing(true);
    t := FinishRun(b, t, orderly, w, id);
    assert s.core.workers[w := Working(id)][w := Posting(id)] == s.core.workers[w := Posting(id)];
  }

  /** The user's revocation went through the collector, and the user is not revoked. */
  predicate Undone(s: State, user: UserId) {
    user in s.landed && user in s.users && !s.users[user].status.Revoked?
  }

  lemma {:induction false} LandedStays(s: State, steps: seq<Step>)
    requires IsRun(s, steps)
    ensures s.landed <= After(s, steps).landed
    decreases |steps|
  {
    if steps != [] {
      LandedGrows(s, steps[0]);
      LandedStays(Next(s, steps[0]), steps[1..]);
    }
  }

  /** A revoked user whose creation is live goes active by the service's own steps. */
  lemma Undo(b: State, s: State, orderly: bool, user: UserId) returns (t: State)
    requires Leads(b, s, orderly) && Serving(s) && user in s.users && user in s.landed && Live(s, user)
    ensures Leads(b, t, orderly) && Undone(t, user)
  {
    var steps := LiveActivates(s, user);
    QuietIsOrderly(s, steps);
    LandedStays(s, steps);
    GoOn(b, s, orderly, steps);
    t := After(s, steps);
  }

  lemma LeadsServing(workers: nat, capacity: nat, s: State, orderly: bool)
    requires Leads(Boot(workers, capacity), s, orderly)
    requires !s.core.closed && |s.core.workers| >= 1 && s.core.capacity >= 1
    ensures Serving(s)
  {
    LeadsReaches(workers, capacity, s, orderly);
    ReachableOk(s);
  }

  /** Worker `w` creates the config file of the generate job in its hands and writes its only byte. */
  lemma WriteRun(b: State, s: State, orderly: bool, w: nat, id: JobId) returns (t: State)
    requires Leads(b, s, orderly) && w < |s.core.workers| && |s.phases| == |s.core.workers|
    requires s.core.workers[w] == Working(id) && id in s.core.jobs && s.phases[w] == Rendering
    ensures Leads(b, t, orderly)
    ensures var j := s.core.jobs[id];
            t == s.(phases := s.phases[w := Writing("x", 1)], files := s.files[j.name := "x"],
                    written := s.written[j.user := "x"])
  {
    var j := s.core.jobs[id];
    t := Go(b, s, orderly, InJob(w, Render(true, "x")));
    assert t == s.(phases := s.phases[w := Writing("x", 0)], files := s.files[j.name := []],
                   written := s.written[j.user := []]);
    t := Go(b, t, orderly, InJob(w, Append(1)));
    assert "x"[..1] == "x";
    assert s.phases[w := Writing("x", 0)][w := Writing("x", 1)] == s.phases[w := Writing("x", 1)];
    assert s.files[j.name := []][j.name := "x"] == s.files[j.name := "x"];
    assert s.written[j.user := []][j.user := "x"] == s.written[j.user := "x"];
  }

  /** Worker `w` issues the certificate of the generate job in its hands and writes a config of one byte. */
  lemma IssueRun(b: State, s: State, orderly: bool, w: nat, id: JobId) returns (t: State)
    requires Leads(b, s, orderly) && w < |s.core.workers| && |s.phases| == |s.core.workers|
    requires s.core.workers[w] == Working(id) && id in s.core.jobs && s.phases[w] == Issuing
    ensures Leads(b, t, orderly)
    ensures var j := s.core.jobs[id];
            t == s.(phases := s.phases[w := Finishing(true)], files := s.files[j.name := "x"],
                    written := s.written[j.user := "x"])
  {
    t := Go(b, s, orderly, InJob(w, Issue(true)));
    assert t == s.(phases := s.phases[w := Rendering]);
    t := WriteRun(b, t, orderly, w, id);
    var written := t;
    t := Go(b, t, orderly, InJob(w, EndWrite(true)));
    assert t == written.(phases := written.phases[w := Inspecting]);
    t := Go(b, t, orderly, InJob(w, Inspect("")));
    assert t == written.(phases := written.phases[w := Finishing(true)]);
  }

  /** Worker `w` carries generate job `id` out; it has yet to post it. */
  lemma GenerateRun(b: State, s: State, orderly: bool, w: nat, id: JobId) returns (t: State)
    requires Leads(b, s, orderly) && w < |s.core.workers| && |s.phases| == |s.core.workers|
    requires s.core.workers[w].Idle? && s.core.queue != [] && s.core.queue[0] == id && s.phases[w] == Resting
    requires id in s.core.jobs && s.core.jobs[id].kind.GenerateCert?
    ensures Leads(b, t, orderly) && t.phases == s.phases && t.ops == s.ops && t.users == s.users && t.landed == s.landed
    ensures t.files == s.files[s.core.jobs[id].name := "x"] && t.cache == s.cache
    ensures t.core == s.core.(queue := s.core.queue[1..], taken := s.core.taken + [id],
                              stage := s.core.stage[id := Held(w)], workers := s.core.workers[w := Posting(id)],
                              jobs := s.core.jobs[id := s.core.jobs[id].(status := Completed, started := true,
                                                                         ended := true)])
  {
    t := BeginRun(b, s, orderly, w, id);
    t := IssueRun(b, t, orderly, w, id);
    t := FinishRun(b, t, orderly, w, id);
    assert s.core.workers[w := Working(id)][w := Posting(id)] == s.core.workers[w := Posting(id)];
    assert s.phases[w := Issuing][w := Finishing(true)][w := Resting] == s.phases;
  }

  /** A user created: worker 0 has issued the certificate, written the config and stands before posting. */
  lemma CreatedAndIssued(workers: nat, capacity: nat) returns (b: State, s: State)
    requires workers >= 1 && capacity >= 1
    ensures b == Boot(workers, capacity) && Leads(b, s, true) && !s.core.closed && s.phases == b.phases
    ensures s.core.queue == [] && s.core.results == [] && s.core.collector.Ready? && s.core.capacity == capacity
    ensures s.core.workers == b.core.workers[0 := Posting(0)]
    ensures s.core.jobs == map[0 := Job(GenerateCert, 0, "alice", Completed, true, true)]
    ensures s.ops == [Returned(Created)] && s.users == map[0 := User("alice", Inactive, "")]
    ensures s.files == map["alice" := "x"] && s.cache == map[] && s.landed == {}
  {
    b := Boot(workers, capacity);
    Here(b, true);
    AliceIsValid();
    s := CreateRun(b, b, true, "alice");
    assert s.ops == [Returned(Created)] && s.core.queue == [0];
    assert s.core.jobs == map[0 := Job(GenerateCert, 0, "alice", Pending, false, false)];
    s := GenerateRun(b, s, true, 0, 0);
  }

  /** And deleted: the revoke job is next. */
  lemma OneIssued(workers: nat, capacity: nat) returns (b: State, s: State)
    requires workers >= 2 && capacity >= 1
    ensures b == Boot(workers, capacity) && Leads(b, s, true) && !s.core.closed && s.phases == b.phases
    ensures s.core.queue == [1] && s.core.results == [] && s.core.collector.Ready? && s.core.capacity == capacity
    ensures s.core.workers == b.core.workers[0 := Posting(0)]
    ensures 0 in s.core.jobs && s.core.jobs[0] == Job(GenerateCert, 0, "alice", Completed, true, true)
    ensures 1 in s.core.jobs && s.core.jobs[1] == Job(RevokeCert, 0, "alice", Pending, false, false)
    ensures s.users == map[0 := User("alice", Inactive, "")] && s.landed == {}
    ensures "alice" in s.files && s.files["alice"] == "x"
  {
    b, s := CreatedAndIssued(workers, capacity);
    s := DeleteRun(b, s, true, 0);
  }

  /**
   With any two or more workers, a collected revocation can be overwritten by the user's own generate job, which
   had issued the certificate before it was revoked.
   */
  lemma TwoWorkersReactivate(workers: nat, capacity: nat) returns (s: State)
    requires workers >= 2 && capacity >= 1
    ensures Leads(Boot(workers, capacity), s, true) && Undone(s, 0)
  {
    var b;
    b, s := OneIssued(workers, capacity);
    s := RevokeRun(b, s, true, 1, 1);
    s := CollectRun(b, s, true, 1, 1);
    assert s.core.workers[0] == Posting(0) && 0 in s.landed && 0 in s.users;
    LeadsServing(workers, capacity, s, true);
    assert s.core.stage[0] == Held(0);
    s := Undo(b, s, true, 0);
  }

  /**
   With one worker or more, so can one of a deletion begun before the creation has registered its job. With one
   worker the revoke job must then run first, and easy-rsa must know a certificate of that name from before this
   process; the generate job takes "already exists" for success.
   */
  lemma EarlyDeleteReactivates(workers: nat, capacity: nat) returns (s: State)
    requires workers >= 1 && capacity >= 1
    ensures Leads(Boot(workers, capacity), s, false) && Undone(s, 0)
  {
    var b := Boot(workers, capacity);
    Here(b, false);
    AliceIsValid();
    s := InsertRun(b, b, false, "alice");
    assert s.ops == [CreateSubmit("alice")];
    s := DeleteRun(b, s, false, 0);
    assert s.ops == [CreateSubmit("alice"), DeleteMark(0)] && s.core.queue == [1];
    s := RevokeRun(b, s, false, 0, 1);
    assert s.ops[0] == CreateSubmit("alice");
    s := CollectRun(b, s, false, 0, 1);
    LeadsServing(workers, capacity, s, false);
    s := Undo(b, s, false, 0);
  }

  /** Without a worker, or without a place in the channels, no job is ever taken and no revocation lands. */
  ghost predicate Idle0(s: State) {
    ServiceOk(s) && (|s.core.workers| == 0 || s.core.capacity == 0) && s.core.taken == [] && s.landed == {}
  }

  lemma {:induction false} IdleStays(s: State, steps: seq<Step>)
    requires Idle0(s) && IsRun(s, steps)
    ensures After(s, steps).landed == {}
    decreases |steps|
  {
    if steps != [] {
      ServiceStep(s, steps[0]);
      IdleStep(s, steps[0]);
      IdleStays(Next(s, steps[0]), steps[1..]);
    }
  }

  lemma CoreStaysIdle(c: Core, step: CoreStep)
    requires CoreInv(c) && (|c.workers| == 0 || c.capacity == 0) && c.taken == [] && CoreEnabled(c, step)
    ensures var d := CoreNext(c, step); |d.workers| == |c.workers| && d.capacity == c.capacity && d.taken == []
    ensures !step.Collect?
  {
  }

  lemma IdleStep(s: State, step: Step)
    requires Idle0(s) && Enabled(s, step)
    ensures var t := Next(s, step);
            && |t.core.workers| == |s.core.workers| && t.core.capacity == s.core.capacity
            && t.core.taken == [] && t.landed == {}
  {
    var moved, c := CoreOfStep(s, step);
    if moved { CoreStaysIdle(s.core, c); }
    if step.InLoop? {
      CoreStaysIdle(s.core, Inner(s, step.loop));
      NothingLands(s, step.loop);
    } else {
      OnlyLoopsLand(s, step);
    }
  }

  lemma OnlyLoopsLand(s: State, step: Step)
    requires Enabled(s, step) && !step.InLoop?
    ensures Next(s, step).landed == s.landed
  {
    match step {
      case Open(call) => OpenFrame(s, call);
      case InCreate(i, act) => CreateFrame(s, i, act);
      case InDelete(i, act) => DeleteFrame(s, i, act);
      case InSubmit(i, act) => SubmitFrame(s, i, act);
      case InFetch(i, act) => FetchFrame(s, i, act);
      case InJob(w, work) => WorkFrame(s, w, work);
    }
  }

  /** A landed revocation can be undone in some run exactly of the services that do any work. */
  lemma UndoneIff(workers: nat, capacity: nat)
    ensures (exists t, user :: Leads(Boot(workers, capacity), t, false) && Undone(t, user))
            <==> workers >= 1 && capacity >= 1
  {
    if workers >= 1 && capacity >= 1 {
      var t := EarlyDeleteReactivates(workers, capacity);
    } else {
      BootOk(workers, capacity);
      forall t, user | Leads(Boot(workers, capacity), t, false) ensures !Undone(t, user) {
        var steps :| IsRun(Boot(workers, capacity), steps) && After(Boot(workers, capacity), steps) == t;
        IdleStays(Boot(workers, capacity), steps);
      }
    }
  }

  /** With deletions that wait for the creation to return, exactly of those with two workers or more. */
  lemma OrderlyUndoneIff(workers: nat, capacity: nat)
    ensures (exists t, user :: Leads(Boot(workers, capacity), t, true) && Undone(t, user))
            <==> workers >= 2 && capacity >= 1
  {
    if workers >= 2 && capacity >= 1 {
      var t := TwoWorkersReactivate(workers, capacity);
    } else {
      var b := Boot(workers, capacity);
      BootOk(workers, capacity);
      forall t, user | Leads(b, t, true) ensures !Undone(t, user) {
        var steps :| IsRun(b, steps) && OrderlyRun(b, steps) && After(b, steps) == t;
        if workers == 1 {
          OneWorkerBoot(capacity);
          OrderlyRunKeeps(b, steps);
          assert user in t.landed ==> Final(t, user);
        } else {
          IdleStays(b, steps);
        }
      }
    }
  }

  // ---------------------------------------------------------------- racing readers

  /** GetUserConfig up to the data it read from the file. */
  lemma ReadRun(b: State, s: State, orderly: bool, user: UserId) returns (t: State)
    requires Leads(b, s, orderly) && user in s.users && s.users[user].name in s.files && !HasRow(s, user)
    ensures Leads(b, t, orderly)
    ensures t == s.(ops := s.ops + [ConfigSelect(user, Copy(s.files[s.users[user].name], Unfinished(s, user)))])
  {
    var i, name := |s.ops|, s.users[user].name;
    t := Go(b, s, orderly, Open(GetUserConfig(user)));
    assert t == s.(ops := s.ops + [ConfigCached(user)]);
    t := Go(b, t, orderly, InFetch(i, GetCached(NoRow)));
    assert t == s.(ops := s.ops + [ConfigFind(user)]);
    t := Go(b, t, orderly, InFetch(i, FindName(false)));
    assert t == s.(ops := s.ops + [ConfigRead(user, name)]);
    SameUnfinished(s, t, user);
    t := Go(b, t, orderly, InFetch(i, ReadFile(false)));
  }

  lemma SameUnfinished(s: State, t: State, user: UserId)
    requires t.core == s.core && t.phases == s.phases
    ensures Unfinished(t, user) == Unfinished(s, user)
  {
    forall w: nat | w < |s.phases| ensures InPhase(s, w) == InPhase(t, w) { }
    if w: nat :| w < |s.phases| && InPhase(s, w) && MidWrite(s.phases[w]) && JobOf(s, w).user == user {
      assert InPhase(t, w) && JobOf(t, w).user == user;
    }
    if w: nat :| w < |t.phases| && InPhase(t, w) && MidWrite(t.phases[w]) && JobOf(t, w).user == user {
      assert InPhase(s, w) && JobOf(s, w).user == user;
    }
  }

  /** A user whose generate job has just created its config file. */
  lemma WritingRun(content: Data) returns (b: State, s: State)
    requires content != []
    ensures b == Boot(1, 1) && Leads(b, s, false)
    ensures s.users == map[0 := User("alice", Inactive, "")] && s.cache == map[] && |s.ops| == 1
    ensures "alice" in s.files && s.files["alice"] == []
    ensures s.core.workers == [Working(0)] && s.phases == [Writing(content, 0)]
    ensures 0 in s.core.jobs && s.core.jobs[0].name == "alice" && s.core.jobs[0].user == 0
  {
    b := Boot(1, 1);
    Here(b, false);
    AliceIsValid();
    s := CreateRun(b, b, false, "alice");
    assert s.core.queue == [0] && s.core.workers == [Idle] && s.phases == [Resting];
    s := BeginRun(b, s, false, 0, 0);
    assert s.core.workers == [Working(0)] && s.phases == [Issuing];
    s := Go(b, s, false, InJob(0, Issue(true)));
    assert s.phases == [Rendering] && s.core.workers == [Working(0)];
    s := Go(b, s, false, InJob(0, Render(true, content)));
  }

  /** Two GetUserConfig calls that have both read the file. */
  lemma BothRead() returns (b: State, s: State, c: Copy)
    ensures b == Boot(1, 1) && Leads(b, s, false)
    ensures |s.ops| == 3 && s.ops[1] == s.ops[2] == ConfigSelect(0, c) && s.cache == map[]
  {
    b, s := WritingRun("x");
    c := Copy([], Unfinished(s, 0));
    var first := s;
    s := ReadRun(b, s, false, 0);
    assert s.ops[1] == ConfigSelect(0, c) && |s.ops| == 2;
    SameUnfinished(first, s, 0);
    s := ReadRun(b, s, false, 0);
  }

  /** Two GetUserConfig calls that both find no cached row leave the user with two. */
  lemma TwoRowsForOneUser() returns (s: State)
    ensures Reachable(s)
    ensures 1 in s.cache && 2 in s.cache && s.cache[1].user == s.cache[2].user
  {
    var b, c;
    b, s, c := BothRead();
    s := Go(b, s, false, InFetch(1, SelectRow(NoRow)));
    assert s.ops[1] == ConfigInsert(0, c) && s.ops[2] == ConfigSelect(0, c) && s.cache == map[];
    s := Go(b, s, false, InFetch(2, SelectRow(NoRow)));
    assert s.ops[1] == ConfigInsert(0, c) && s.ops[2] == ConfigInsert(0, c);
    s := Go(b, s, false, InFetch(1, InsertRow(false)));
    assert s.ops[2] == ConfigInsert(0, c) && 1 in s.cache && s.cache[1].user == 0;
    s := Go(b, s, false, InFetch(2, InsertRow(false)));
    LeadsReaches(1, 1, s, false);
  }

  /** A config of two bytes, one of them written, read and cached. */
  lemma HalfCached() returns (b: State, s: State)
    ensures b == Boot(1, 1) && Leads(b, s, false) && |s.ops| == 2
    ensures s.cache == map[1 := CacheRow(0, Copy("x", true))] && s.users == map[0 := User("alice", Inactive, "")]
    ensures "alice" in s.files && s.core.workers == [Working(0)] && s.phases == [Writing("xy", 1)]
    ensures 0 in s.core.jobs && s.core.jobs[0].name == "alice" && s.core.jobs[0].user == 0
  {
    b, s := WritingRun("xy");
    s := Go(b, s, false, InJob(0, Append(1)));
    assert "xy"[..1] == "x";
    assert s.phases == [Writing("xy", 1)] && s.core.workers == [Working(0)] && s.files["alice"] == "x";
    assert InPhase(s, 0) && MidWrite(s.phases[0]) && JobOf(s, 0).user == 0;
    assert Unfinished(s, 0);
    s := ReadRun(b, s, false, 0);
    assert s.ops[1] == ConfigSelect(0, Copy("x", true));
    s := Go(b, s, false, InFetch(1, SelectRow(NoRow)));
    assert s.ops[1] == ConfigInsert(0, Copy("x", true)) && s.cache == map[];
    s := Go(b, s, false, InFetch(1, InsertRow(false)));
  }

  /** A read in the middle of the write caches half a config, and later calls return that half beside the whole file. */
  lemma TornReadIsCached() returns (s: State)
    ensures Reachable(s) && s.phases == [Inspecting]
    ensures 0 in s.users && s.users[0].name in s.files && s.files[s.users[0].name] == "xy"
    ensures |s.ops| == 3 && s.ops[2] == Returned(Config(0, Copy("x", true)))
  {
    var b;
    b, s := HalfCached();
    s := Go(b, s, false, InJob(0, Append(1)));
    assert "xy"[..2] == "xy" && s.phases == [Writing("xy", 2)] && s.core.workers == [Working(0)];
    s := Go(b, s, false, InJob(0, EndWrite(true)));
    assert s.cache == map[1 := CacheRow(0, Copy("x", true))] && s.files["alice"] == "xy";
    s := Go(b, s, false, Open(GetUserConfig(0)));
    assert s.ops[2] == ConfigCached(0) && s.cache == map[1 := CacheRow(0, Copy("x", true))];
    s := Go(b, s, false, InFetch(2, GetCached(Found(1))));
    LeadsReaches(1, 1, s, false);
  }
}
