/** The migration runner, interrupted at any statement, over any number of runs. */
module Migrations {
  import opened Sequences
  import opened Text

  /** A directory entry; `version` is the number its name begins with, if it does. */
  datatype File = File(isDir: bool, version: Option<int>, statements: nat)

  /** A statement's fate: it takes effect and returns, it fails without effect, or it takes effect and the run ends. */
  datatype Fate = Done | Refused | Lost

  /** The fate of a file's own statements: all take effect, or the run ends after some of them, perhaps none. */
  datatype Exec = All | Stopped(after: nat)

  /** What happens to the statements about one file; `checked` says whether the look-up gives an answer. */
  datatype Fates = Fates(checked: bool, read: bool, exec: Exec, insert: Fate)

  /** What happens in one run. */
  datatype Plan = Plan(listed: bool, table: Fate, files: seq<Fates>)

  /**
   The recorded versions in insertion order; the version of every execution that had an effect; and how many of
   its file's statements took effect each time.
   */
  datatype Db = Db(recorded: seq<int>, executed: seq<int>, effects: seq<nat>)

  datatype Result = Result(db: Db, ok: bool)

  // ---------------------------------------------------------------- one run

  predicate IsMigration(f: File) {
    !f.isDir && f.version.Some?
  }

  /** How many of a file's statements take effect. */
  function Effect(f: File, exec: Exec): nat {
    if exec.Stopped? && exec.after < f.statements then exec.after else f.statements
  }

  /** The file is executed with some effect. */
  predicate HasEffect(f: File, exec: Exec) {
    exec.All? || Effect(f, exec) > 0
  }

  /** The effect of one file, and whether the run goes on. */
  function Step(db: Db, f: File, fates: Fates): Result {
    if !IsMigration(f) then Result(db, true)
    else
      var v := f.version.value;
      if fates.checked && v in db.recorded then Result(db, true)
      else if !fates.read || !HasEffect(f, fates.exec) then Result(db, false)
      else
        var ran := db.(executed := db.executed + [v], effects := db.effects + [Effect(f, fates.exec)]);
        if fates.exec.Stopped? || fates.insert.Refused? || v in db.recorded then Result(ran, false)
        else Result(ran.(recorded := ran.recorded + [v]), fates.insert.Done?)
  }

  function Steps(db: Db, files: seq<File>, fates: seq<Fates>): Result
    requires |fates| == |files|
    decreases |files|
  {
    if files == [] then Result(db, true)
    else
      var r := Step(db, files[0], fates[0]);
      if r.ok then Steps(r.db, files[1..], fates[1..]) else r
  }

  function Run(db: Db, files: seq<File>, plan: Plan): Result
    requires |plan.files| == |files|
  {
    if !plan.listed || !plan.table.Done? then Result(db, false) else Steps(db, files, plan.files)
  }

  class Database {
    var recorded: seq<int>
    ghost var executed: seq<int>
    ghost var effects: seq<nat>

    ghost function Contents(): Db
      reads this
    {
      Db(recorded, executed, effects)
    }

    constructor ()
      ensures Contents() == Db([], [], [])
    {
      recorded := [];
      executed := [];
      effects := [];
    }

    /** Inserting a version twice breaks the primary key. */
    method Insert(version: int, fate: Fate) returns (ok: bool)
      modifies this`recorded
      ensures recorded == old(recorded) + if fate.Refused? || version in old(recorded) then [] else [version]
      ensures ok <==> fate.Done? && version !in old(recorded)
    {
      if fate == Refused || version in recorded {
        return false;
      }
      recorded := recorded + [version];
      return fate == Done;
    }

    /** The driver runs the statements of a file one after the other, outside any transaction. */
    method Execute(file: File, exec: Exec) returns (ok: bool)
      requires IsMigration(file)
      modifies this`executed, this`effects
      ensures executed == old(executed) + if HasEffect(file, exec) then [file.version.value] else []
      ensures effects == old(effects) + if HasEffect(file, exec) then [Effect(file, exec)] else []
      ensures ok <==> exec.All?
    {
      if HasEffect(file, exec) {
        executed := executed + [file.version.value];
        effects := effects + [Effect(file, exec)];
      }
      return exec.All?;
    }

    method Migrate(files: seq<File>, plan: Plan) returns (ok: bool)
      requires |plan.files| == |files|
      modifies this
      ensures Result(Contents(), ok) == Run(old(Contents()), files, plan)
    {
      if !plan.listed {
        return false;
      }
      if plan.table != Done {
        return false;
      }
      var i := 0;
      while i < |files|
        invariant 0 <= i <= |files|
        invariant Steps(Contents(), files[i..], plan.files[i..]) == Steps(old(Contents()), files, plan.files)
      {
        var file, fates := files[i], plan.files[i];
        StepsUnfold(Contents(), files, plan.files, i);
        i := i + 1;
        if file.isDir {
          continue;
        }
        if file.version.None? {
          continue;
        }
        var version := file.version.value;
        if fates.checked && version in recorded {
          continue;
        }
        if !fates.read {
          return false;
        }
        var executedOk := Execute(file, fates.exec);
        if !executedOk {
          return false;
        }
        var insertedOk := Insert(version, fates.insert);
        if !insertedOk {
          return false;
        }
      }
      return true;
    }
  }

  lemma StepsUnfold(db: Db, files: seq<File>, fates: seq<Fates>, i: nat)
    requires |fates| == |files| && i < |files|
    ensures var r := Step(db, files[i], fates[i]);
            Steps(db, files[i..], fates[i..]) == if r.ok then Steps(r.db, files[i + 1..], fates[i + 1..]) else r
  {
    assert files[i..][0] == files[i] && files[i..][1..] == files[i + 1..];
    assert fates[i..][0] == fates[i] && fates[i..][1..] == fates[i + 1..];
  }

  // ---------------------------------------------------------------- what one run does

  /** The versions of the migrations, in file order. */
  function Versions(files: seq<File>): seq<int> {
    if files == [] then []
    else (if IsMigration(files[0]) then [files[0].version.value] else []) + Versions(files[1..])
  }

  /** The first `k` versions are recorded and no other one is. */
  ghost predicate RecordedTo(db: Db, versions: seq<int>, k: nat) {
    && k <= |versions|
    && (forall i :: 0 <= i < k ==> versions[i] in db.recorded)
    && (forall i :: k <= i < |versions| ==> versions[i] !in db.recorded)
  }

  ghost predicate Answered(fates: seq<Fates>) {
    forall i :: 0 <= i < |fates| ==> fates[i].checked
  }

  /** `r` executed the versions from `k` to `k + m` and recorded them, but perhaps not the last. */
  ghost predicate Advanced(db: Db, versions: seq<int>, k: nat, m: nat, r: Result) {
    && k + m <= |versions|
    && r.db.executed == db.executed + versions[k..k + m]
    && (r.db.recorded == db.recorded + versions[k..k + m] ||
        (m > 0 && !r.ok && r.db.recorded == db.recorded + versions[k..k + m - 1]))
    && (r.ok ==> k + m == |versions|)
  }

  lemma VersionsUnfold(files: seq<File>)
    requires files != []
    ensures !IsMigration(files[0]) ==> Versions(files) == Versions(files[1..])
    ensures IsMigration(files[0]) ==> Versions(files) == [files[0].version.value] + Versions(files[1..])
  {
  }

  lemma TailRecorded(db: Db, versions: seq<int>, k: nat)
    requires RecordedTo(db, versions, k) && k > 0
    ensures versions[0] in db.recorded && RecordedTo(db, versions[1..], k - 1)
  {
  }

  lemma TailAdvanced(db: Db, versions: seq<int>, k: nat, m: nat, r: Result)
    requires 0 < k <= |versions| && Advanced(db, versions[1..], k - 1, m, r)
    ensures Advanced(db, versions, k, m, r)
  {
    SliceOfTail(versions, k, m);
    if m > 0 { SliceOfTail(versions, k, m - 1); }
  }

  lemma SliceOfTail(s: seq<int>, k: nat, m: nat)
    requires 0 < k && k + m <= |s|
    ensures s[k..k + m] == s[1..][k - 1..k - 1 + m]
  {
    var a, b := s[k..k + m], s[1..][k - 1..k - 1 + m];
    assert forall i :: 0 <= i < m ==> a[i] == s[k + i] && b[i] == s[1..][k - 1 + i];
  }

  /** With every look-up answered, a run executes a stretch of versions from the first unrecorded one on. */
  lemma {:induction false} StepsAdvance(db: Db, files: seq<File>, fates: seq<Fates>, k: nat) returns (m: nat)
    requires |fates| == |files| && Answered(fates)
    requires Distinct(Versions(files)) && RecordedTo(db, Versions(files), k)
    ensures Advanced(db, Versions(files), k, m, Steps(db, files, fates))
    decreases |files|
  {
    m := 0;
    if files != [] {
      var versions := Versions(files);
      VersionsUnfold(files);
      assert fates[0].checked;
      if !IsMigration(files[0]) {
        m := StepsAdvance(db, files[1..], fates[1..], k);
      } else if k > 0 {
        assert versions[1..] == Versions(files[1..]);
        DistinctTail(versions);
        TailRecorded(db, versions, k);
        m := StepsAdvance(db, files[1..], fates[1..], k - 1);
        TailAdvanced(db, versions, k, m, Steps(db, files, fates));
      } else {
        m := FirstAdvances(db, files, fates);
      }
    }
  }

  /** The same where the first file is a migration not yet recorded. */
  lemma {:induction false} FirstAdvances(db: Db, files: seq<File>, fates: seq<Fates>) returns (m: nat)
    requires files != [] && IsMigration(files[0]) && |fates| == |files| && Answered(fates)
    requires Distinct(Versions(files)) && RecordedTo(db, Versions(files), 0)
    ensures Advanced(db, Versions(files), 0, m, Steps(db, files, fates))
    decreases |files|, 0
  {
    var v, versions := files[0].version.value, Versions(files);
    VersionsUnfold(files);
    assert versions[0] == v && versions[1..] == Versions(files[1..]);
    var r := Step(db, files[0], fates[0]);
    if r.ok {
      DistinctTail(versions);
      NoneRecorded(db, versions, r.db);
      var n := StepsAdvance(r.db, files[1..], fates[1..], 0);
      m := n + 1;
      AfterFirst(db, versions, n, r.db, Steps(db, files, fates));
    } else {
      m := if r.db == db then 0 else 1;
      assert versions[0..1] == [v] && versions[0..0] == [];
    }
  }

  lemma NoneRecorded(db: Db, versions: seq<int>, after: Db)
    requires versions != [] && Distinct(versions) && RecordedTo(db, versions, 0)
    requires after.recorded == db.recorded + [versions[0]]
    ensures RecordedTo(after, versions[1..], 0)
  {
    forall i | 0 <= i < |versions[1..]| ensures versions[1..][i] !in after.recorded {
      assert versions[1..][i] == versions[i + 1];
    }
  }

  lemma AfterFirst(db: Db, versions: seq<int>, n: nat, after: Db, r: Result)
    requires versions != []
    requires after.recorded == db.recorded + [versions[0]] && after.executed == db.executed + [versions[0]]
    requires Advanced(after, versions[1..], 0, n, r)
    ensures Advanced(db, versions, 0, n + 1, r)
  {
    assert versions[0..n + 1] == [versions[0]] + versions[1..][0..n];
    if n > 0 { assert versions[0..n] == [versions[0]] + versions[1..][0..n - 1]; }
  }

  // ---------------------------------------------------------------- what all runs keep

  /**
   The recorded versions are a prefix of file order; all of them were executed; and beyond them at most
   the next version was.
   */
  ghost predicate Inv(db: Db, versions: seq<int>) {
    && db.recorded <= versions
    && (forall v :: v in db.recorded ==> v in db.executed)
    && (forall v :: v in db.executed ==>
          v in db.recorded || (|db.recorded| < |versions| && v == versions[|db.recorded|]))
  }

  /** One file, when the migrations before it are recorded. */
  lemma StepKeeps(db: Db, f: File, fates: Fates, versions: seq<int>, p: nat)
    requires Inv(db, versions) && Distinct(versions) && p <= |db.recorded|
    requires IsMigration(f) ==> p < |versions| && versions[p] == f.version.value
    ensures var r := Step(db, f, fates);
            Inv(r.db, versions) && (r.ok ==> (if IsMigration(f) then p + 1 else p) <= |r.db.recorded|)
  {
    var r := Step(db, f, fates);
    if IsMigration(f) && p == |db.recorded| {
      var v := f.version.value;
      assert v !in db.recorded;
      if r.db.recorded != db.recorded {
        assert r.db.recorded == versions[..p + 1];
      }
    } else if IsMigration(f) {
      assert db.recorded[p] == versions[p];
    }
  }

  lemma {:induction false} StepsKeep(db: Db, files: seq<File>, fates: seq<Fates>, versions: seq<int>, p: nat)
    requires |fates| == |files| && Inv(db, versions) && Distinct(versions)
    requires p <= |db.recorded| && versions[p..] == Versions(files)
    ensures Inv(Steps(db, files, fates).db, versions)
    decreases |files|
  {
    if files != [] {
      var r := Step(db, files[0], fates[0]);
      VersionsUnfold(files);
      if IsMigration(files[0]) {
        assert versions[p] == versions[p..][0] && versions[p + 1..] == versions[p..][1..];
      }
      StepKeeps(db, files[0], fates[0], versions, p);
      if r.ok {
        StepsKeep(r.db, files[1..], fates[1..], versions, if IsMigration(files[0]) then p + 1 else p);
      }
    }
  }

  /** The database after a series of runs over the same files. */
  function Runs(db: Db, files: seq<File>, plans: seq<Plan>): Db
    requires forall i :: 0 <= i < |plans| ==> |plans[i].files| == |files|
    decreases |plans|
  {
    if plans == [] then db else Runs(Run(db, files, plans[0]).db, files, plans[1..])
  }

  /** Some execution of the file had all its statements take effect. */
  ghost predicate RanWhole(db: Db, f: File)
    requires IsMigration(f)
  {
    exists e :: 0 <= e < |db.executed| && e < |db.effects|
                && db.executed[e] == f.version.value && db.effects[e] == f.statements
  }

  /** A file whose version is recorded was executed to its end. */
  ghost predicate RecordedWhole(db: Db, files: seq<File>) {
    && |db.effects| == |db.executed|
    && forall f :: f in files && IsMigration(f) && f.version.value in db.recorded ==> RanWhole(db, f)
  }

  lemma {:induction false} VersionIn(files: seq<File>, f: File)
    requires f in files && IsMigration(f)
    ensures f.version.value in Versions(files)
  {
    VersionsUnfold(files);
    if f != files[0] { VersionIn(files[1..], f); }
  }

  lemma {:induction false} OneFile(files: seq<File>, f: File, g: File)
    requires Distinct(Versions(files)) && f in files && g in files && IsMigration(f) && IsMigration(g)
    requires f.version == g.version
    ensures f == g
  {
    VersionsUnfold(files);
    if IsMigration(files[0]) {
      DistinctTail(Versions(files));
      assert Versions(files)[1..] == Versions(files[1..]);
    }
    if f in files[1..] { VersionIn(files[1..], f); }
    if g in files[1..] { VersionIn(files[1..], g); }
    if f in files[1..] && g in files[1..] { OneFile(files[1..], f, g); }
  }

  lemma StepWhole(db: Db, g: File, fates: Fates, files: seq<File>)
    requires RecordedWhole(db, files) && Distinct(Versions(files)) && g in files
    ensures RecordedWhole(Step(db, g, fates).db, files)
  {
    var d := Step(db, g, fates).db;
    forall f | f in files && IsMigration(f) && f.version.value in d.recorded ensures RanWhole(d, f) {
      if f.version.value in db.recorded {
        var e :| 0 <= e < |db.executed| && e < |db.effects|
                 && db.executed[e] == f.version.value && db.effects[e] == f.statements;
        assert d.executed[e] == f.version.value && d.effects[e] == f.statements;
      } else {
        OneFile(files, f, g);
        assert d.executed[|db.executed|] == f.version.value && d.effects[|db.executed|] == f.statements;
      }
    }
  }

  lemma {:induction false} StepsWhole(db: Db, rest: seq<File>, fates: seq<Fates>, files: seq<File>)
    requires |fates| == |rest| && RecordedWhole(db, files) && Distinct(Versions(files))
    requires forall f :: f in rest ==> f in files
    ensures RecordedWhole(Steps(db, rest, fates).db, files)
    decreases |rest|
  {
    if rest != [] {
      var r := Step(db, rest[0], fates[0]);
      StepWhole(db, rest[0], fates[0], files);
      if r.ok { StepsWhole(r.db, rest[1..], fates[1..], files); }
    }
  }

  /** Whatever interrupts them, and whichever look-ups fail, all runs keep the invariants. */
  lemma {:induction false} RunsKeep(db: Db, files: seq<File>, plans: seq<Plan>)
    requires forall i :: 0 <= i < |plans| ==> |plans[i].files| == |files|
    requires Distinct(Versions(files)) && Inv(db, Versions(files)) && RecordedWhole(db, files)
    ensures Inv(Runs(db, files, plans), Versions(files)) && RecordedWhole(Runs(db, files, plans), files)
    decreases |plans|
  {
    if plans != [] {
      var versions := Versions(files);
      assert versions[0..] == versions;
      StepsKeep(db, files, plans[0].files, versions, 0);
      StepsWhole(db, files, plans[0].files, files);
      RunsKeep(Run(db, files, plans[0]).db, files, plans[1..]);
    }
  }

  /** From an empty database the invariants hold after every series of runs. */
  lemma EveryRunKeeps(files: seq<File>, plans: seq<Plan>)
    requires forall i :: 0 <= i < |plans| ==> |plans[i].files| == |files|
    requires Distinct(Versions(files))
    ensures var db := Runs(Db([], [], []), files, plans); Inv(db, Versions(files)) && RecordedWhole(db, files)
  {
    RunsKeep(Db([], [], []), files, plans);
  }

  lemma InvRecordedTo(db: Db, versions: seq<int>)
    requires Inv(db, versions) && Distinct(versions)
    ensures RecordedTo(db, versions, |db.recorded|)
  {
    forall i | |db.recorded| <= i < |versions| ensures versions[i] !in db.recorded {
      assert forall j :: 0 <= j < |db.recorded| ==> db.recorded[j] == versions[j];
    }
  }

  /** The versions a run executes, in order. */
  function NewlyExecuted(db: Db, r: Db): seq<int>
    requires |db.executed| <= |r.executed|
  {
    r.executed[|db.executed|..]
  }

  /** What was executed by one run: unrecorded versions in file order, only the first perhaps executed before. */
  ghost predicate Fresh(db: Db, versions: seq<int>, ran: seq<int>) {
    && ran <= versions
    && (forall i :: 0 <= i < |ran| ==> ran[i] !in db.recorded)
    && (forall i :: 0 < i < |ran| ==> ran[i] !in db.executed)
  }

  lemma StretchIsFresh(db: Db, versions: seq<int>, m: nat)
    requires Inv(db, versions) && Distinct(versions) && |db.recorded| + m <= |versions|
    ensures Fresh(db, versions[|db.recorded|..], versions[|db.recorded|..|db.recorded| + m])
  {
    var n := |db.recorded|;
    var ran := versions[n..n + m];
    InvRecordedTo(db, versions);
    assert ran == versions[n..][..m];
    forall i | 0 <= i < m ensures ran[i] !in db.recorded && (i > 0 ==> ran[i] !in db.executed) {
      assert ran[i] == versions[n + i];
      assert i > 0 ==> versions[n + i] != versions[n];
    }
  }

  /**
   With every look-up answered, a run executes unrecorded versions only, each once and in file order; one that
   an earlier run executed can only be the first of them; and a successful run leaves every version recorded.
   */
  lemma RunExecutesUnrecorded(db: Db, files: seq<File>, plan: Plan)
    requires |plan.files| == |files| && Answered(plan.files)
    requires Distinct(Versions(files)) && Inv(db, Versions(files))
    ensures var r := Run(db, files, plan);
            && |db.executed| <= |r.db.executed|
            && Fresh(db, Versions(files)[|db.recorded|..], NewlyExecuted(db, r.db))
            && (r.ok ==> r.db.recorded == Versions(files))
  {
    var versions, n, r := Versions(files), |db.recorded|, Run(db, files, plan);
    InvRecordedTo(db, versions);
    var m := 0;
    if plan.listed && plan.table.Done? {
      m := StepsAdvance(db, files, plan.files, n);
    }
    StretchIsFresh(db, versions, m);
    assert NewlyExecuted(db, r.db) == versions[n..n + m];
    if r.ok { assert versions == versions[..n] + versions[n..]; }
  }

  lemma {:induction false} NothingLeft(db: Db, files: seq<File>, fates: seq<Fates>)
    requires |fates| == |files| && Answered(fates) && forall v :: v in Versions(files) ==> v in db.recorded
    ensures Steps(db, files, fates) == Result(db, true)
    decreases |files|
  {
    if files != [] {
      assert fates[0].checked;
      VersionsUnfold(files);
      if IsMigration(files[0]) { assert files[0].version.value in Versions(files); }
      NothingLeft(db, files[1..], fates[1..]);
    }
  }

  /** After a successful run, all later runs whose look-ups are answered execute and record nothing. */
  lemma {:induction false} QuietAfterSuccess(db: Db, files: seq<File>, plan: Plan, later: seq<Plan>)
    requires |plan.files| == |files| && Answered(plan.files)
    requires forall i :: 0 <= i < |later| ==> |later[i].files| == |files| && Answered(later[i].files)
    requires Distinct(Versions(files)) && Inv(db, Versions(files)) && Run(db, files, plan).ok
    ensures Runs(Run(db, files, plan).db, files, later) == Run(db, files, plan).db
  {
    RunExecutesUnrecorded(db, files, plan);
    AllQuiet(Run(db, files, plan).db, files, later);
  }

  lemma {:induction false} AllQuiet(db: Db, files: seq<File>, later: seq<Plan>)
    requires forall i :: 0 <= i < |later| ==> |later[i].files| == |files| && Answered(later[i].files)
    requires forall v :: v in Versions(files) ==> v in db.recorded
    ensures Runs(db, files, later) == db
    decreases |later|
  {
    if later != [] {
      assert Answered(later[0].files);
      NothingLeft(db, files, later[0].files);
      AllQuiet(db, files, later[1..]);
    }
  }

  // ---------------------------------------------------------------- what one run comes to

  /** The file is read, every statement of it takes effect, and so does the one that records it. */
  predicate Works(fates: Fates) {
    fates.read && fates.exec.All? && fates.insert.Done?
  }

  /** A recorded migration is looked up with an answer, an unrecorded one works. */
  predicate Passes(db: Db, f: File, fates: Fates) {
    !f.isDir && f.version.Some? ==> if f.version.value in db.recorded then fates.checked else Works(fates)
  }

  ghost predicate AllPass(db: Db, files: seq<File>, fates: seq<Fates>)
    requires |fates| == |files|
  {
    forall i :: 0 <= i < |files| ==> Passes(db, files[i], fates[i])
  }

  /** The migrations whose version is not recorded, in file order. */
  function Unrecorded(recorded: seq<int>, files: seq<File>): seq<File> {
    if files == [] then []
    else
      var f := files[0];
      (if !f.isDir && f.version.Some? && f.version.value !in recorded then [f] else [])
      + Unrecorded(recorded, files[1..])
  }

  /** How many statements each file has. */
  function Sizes(files: seq<File>): seq<nat> {
    seq(|files|, i requires 0 <= i < |files| => files[i].statements)
  }

  /** Each of these migrations was executed to its last statement and then recorded, in this order. */
  ghost predicate Applied(db: Db, pending: seq<File>, after: Db) {
    && after.recorded == db.recorded + Versions(pending) && after.executed == db.executed + Versions(pending)
    && after.effects == db.effects + Sizes(pending)
  }

  lemma {:induction false} UnrecordedAfter(recorded: seq<int>, v: int, files: seq<File>)
    requires v !in Versions(files)
    ensures Unrecorded(recorded + [v], files) == Unrecorded(recorded, files)
  {
    if files != [] {
      VersionsUnfold(files);
      UnrecordedAfter(recorded, v, files[1..]);
    }
  }

  /** What passes before another migration is recorded passes after it. */
  lemma PassAfter(db: Db, after: Db, v: int, files: seq<File>, fates: seq<Fates>)
    requires |fates| == |files| && v !in Versions(files) && after.recorded == db.recorded + [v]
    ensures AllPass(after, files, fates) <==> AllPass(db, files, fates)
  {
    forall i | 0 <= i < |files| ensures Passes(after, files[i], fates[i]) <==> Passes(db, files[i], fates[i]) {
      if IsMigration(files[i]) { VersionIn(files, files[i]); }
    }
  }

  lemma PassesFirst(db: Db, files: seq<File>, fates: seq<Fates>)
    requires |fates| == |files| && files != []
    ensures AllPass(db, files, fates) <==> Passes(db, files[0], fates[0]) && AllPass(db, files[1..], fates[1..])
  {
    if Passes(db, files[0], fates[0]) && AllPass(db, files[1..], fates[1..]) {
      forall i | 0 <= i < |files| ensures Passes(db, files[i], fates[i]) {
        if i > 0 { assert Passes(db, files[1..][i - 1], fates[1..][i - 1]); }
      }
    }
  }

  lemma AppliedFirst(db: Db, f: File, mid: Db, rest: seq<File>, after: Db)
    requires IsMigration(f) && Applied(mid, rest, after)
    requires mid == Db(db.recorded + [f.version.value], db.executed + [f.version.value], db.effects + [f.statements])
    ensures Applied(db, [f] + rest, after)
  {
    VersionsUnfold([f] + rest);
    assert ([f] + rest)[1..] == rest;
    Regroup(db.recorded, [f.version.value], Versions(rest));
    Regroup(db.executed, [f.version.value], Versions(rest));
    assert Sizes([f] + rest) == [f.statements] + Sizes(rest);
    Regroup(db.effects, [f.statements], Sizes(rest));
  }

  /** One file: it goes on exactly if the file passes, and then the file, if pending, is applied. */
  lemma StepPasses(db: Db, f: File, fates: Fates)
    ensures Step(db, f, fates).ok <==> Passes(db, f, fates)
    ensures Passes(db, f, fates) ==>
              Step(db, f, fates).db == if IsMigration(f) && f.version.value !in db.recorded
                                       then Db(db.recorded + [f.version.value], db.executed + [f.version.value],
                                               db.effects + [f.statements])
                                       else db
  {
  }

  lemma {:induction false} StepsPass(db: Db, files: seq<File>, fates: seq<Fates>)
    requires |fates| == |files| && Distinct(Versions(files))
    ensures Steps(db, files, fates).ok <==> AllPass(db, files, fates)
    ensures AllPass(db, files, fates) ==>
              Applied(db, Unrecorded(db.recorded, files), Steps(db, files, fates).db)
    decreases |files|
  {
    if files != [] {
      var f, r, rest := files[0], Step(db, files[0], fates[0]), files[1..];
      StepPasses(db, f, fates[0]);
      PassesFirst(db, files, fates);
      VersionsUnfold(files);
      if IsMigration(f) {
        assert Versions(files)[1..] == Versions(rest);
        DistinctTail(Versions(files));
      }
      if r.ok { StepsPass(r.db, rest, fates[1..]); }
      if IsMigration(f) && f.version.value !in db.recorded && r.ok {
        PendingPasses(db, files, fates, r.db);
      } else if r.ok {
        assert Unrecorded(db.recorded, files) == [] + Unrecorded(db.recorded, rest) == Unrecorded(db.recorded, rest);
      }
    } else {
      assert Applied(db, [], db);
    }
  }

  /** The first file was pending and has been applied. */
  lemma PendingPasses(db: Db, files: seq<File>, fates: seq<Fates>, mid: Db)
    requires |fates| == |files| && files != [] && IsMigration(files[0])
    requires files[0].version.value !in db.recorded && files[0].version.value !in Versions(files[1..])
    requires var f := files[0];
             mid == Db(db.recorded + [f.version.value], db.executed + [f.version.value], db.effects + [f.statements])
    ensures AllPass(mid, files[1..], fates[1..]) <==> AllPass(db, files[1..], fates[1..])
    ensures forall after ::
              Applied(mid, Unrecorded(mid.recorded, files[1..]), after) ==>
                Applied(db, Unrecorded(db.recorded, files), after)
  {
    var f, rest := files[0], files[1..];
    PassAfter(db, mid, f.version.value, rest, fates[1..]);
    UnrecordedAfter(db.recorded, f.version.value, rest);
    forall after | Applied(mid, Unrecorded(mid.recorded, rest), after)
      ensures Applied(db, Unrecorded(db.recorded, files), after)
    {
      AppliedFirst(db, f, mid, Unrecorded(db.recorded, rest), after);
    }
  }

  /**
   A run succeeds if and only if the directory is listed, the table statement works, every recorded migration is
   looked up with an answer and every unrecorded one is read, executed to its end and recorded; it has then
   executed exactly the unrecorded migrations, all their statements, and recorded them, in file order.
   */
  lemma RunSucceedsIff(db: Db, files: seq<File>, plan: Plan)
    requires |plan.files| == |files| && Distinct(Versions(files))
    ensures Run(db, files, plan).ok <==> plan.listed && plan.table.Done? && AllPass(db, files, plan.files)
    ensures Run(db, files, plan).ok ==> Applied(db, Unrecorded(db.recorded, files), Run(db, files, plan).db)
  {
    StepsPass(db, files, plan.files);
  }

  lemma {:induction false} StepsSplit(db: Db, files: seq<File>, fates: seq<Fates>, i: nat)
    requires |fates| == |files| && i <= |files| && Steps(db, files[..i], fates[..i]).ok
    ensures Steps(db, files, fates) == Steps(Steps(db, files[..i], fates[..i]).db, files[i..], fates[i..])
    decreases i
  {
    if i > 0 {
      var front, first := files[..i], fates[..i];
      assert front[1..] == files[1..][..i - 1] && first[1..] == fates[1..][..i - 1];
      assert files[1..][i - 1..] == files[i..] && fates[1..][i - 1..] == fates[i..];
      StepsSplit(Step(db, files[0], fates[0]).db, files[1..], fates[1..], i - 1);
    } else {
      assert files[0..] == files && fates[0..] == fates;
    }
  }

  lemma {:induction false} VersionsFront(files: seq<File>, i: nat)
    requires i <= |files|
    ensures Versions(files[..i]) <= Versions(files)
    ensures i < |files| && IsMigration(files[i]) ==>
              |Versions(files[..i])| < |Versions(files)|
              && Versions(files)[|Versions(files[..i])|] == files[i].version.value
    decreases i
  {
    VersionsSplit(files, i);
    if i < |files| {
      VersionsUnfold(files[i..]);
      assert files[i..][0] == files[i];
    }
  }

  lemma {:induction false} VersionsSplit(files: seq<File>, i: nat)
    requires i <= |files|
    ensures Versions(files) == Versions(files[..i]) + Versions(files[i..])
    decreases i
  {
    if i == 0 {
      assert files[0..] == files;
    } else {
      assert files[..i][1..] == files[1..][..i - 1] && files[i..] == files[1..][i - 1..];
      VersionsUnfold(files);
      VersionsUnfold(files[..i]);
      VersionsSplit(files[1..], i - 1);
      if IsMigration(files[0]) {
        Regroup([files[0].version.value], Versions(files[1..][..i - 1]), Versions(files[i..]));
      }
    }
  }

  lemma {:induction false} UnrecordedSome(recorded: seq<int>, files: seq<File>, v: int)
    requires v in Versions(Unrecorded(recorded, files))
    ensures v in Versions(files) && v !in recorded
  {
    if files != [] {
      var rest := Unrecorded(recorded, files[1..]);
      VersionsUnfold(files);
      if IsMigration(files[0]) && files[0].version.value !in recorded {
        VersionsUnfold([files[0]] + rest);
        assert ([files[0]] + rest)[1..] == rest;
        if v != files[0].version.value { UnrecordedSome(recorded, files[1..], v); }
      } else {
        assert Unrecorded(recorded, files) == rest;
        UnrecordedSome(recorded, files[1..], v);
      }
    }
  }

  /** What file `i` leaves when it does not pass: perhaps some of its statements, perhaps its record. */
  ghost predicate Stopped(before: Db, f: File, fates: Fates, after: Db)
    requires IsMigration(f)
  {
    var done := if fates.exec.Stopped? && fates.exec.after < f.statements then fates.exec.after else f.statements;
    var ran := fates.read && (fates.exec.All? || done > 0);
    && after.executed == before.executed + (if ran then [f.version.value] else [])
    && after.effects == before.effects + (if ran then [done] else [])
    && after.recorded == before.recorded + if fates.read && fates.exec.All? && fates.insert.Lost?
                                              && f.version.value !in before.recorded then [f.version.value] else []
  }

  lemma StepStops(db: Db, f: File, fates: Fates)
    requires !Passes(db, f, fates)
    ensures !Step(db, f, fates).ok && Stopped(db, f, fates, Step(db, f, fates).db)
  {
  }

  /** A run that gets to its files stops at the first that does not pass, with all pending ones before it applied. */
  lemma RunStopsAt(db: Db, files: seq<File>, plan: Plan, i: nat) returns (before: Db)
    requires |plan.files| == |files| && Distinct(Versions(files)) && plan.listed && plan.table.Done?
    requires i < |files| && AllPass(db, files[..i], plan.files[..i]) && !Passes(db, files[i], plan.files[i])
    ensures Applied(db, Unrecorded(db.recorded, files[..i]), before)
    ensures !Run(db, files, plan).ok && Stopped(before, files[i], plan.files[i], Run(db, files, plan).db)
  {
    var front, fates, v := files[..i], plan.files[..i], files[i].version.value;
    VersionsFront(files, i);
    StepsPass(db, front, fates);
    before := Steps(db, front, fates).db;
    StepsSplit(db, files, plan.files, i);
    StepsUnfold(before, files, plan.files, i);
    if v in Versions(Unrecorded(db.recorded, front)) {
      UnrecordedSome(db.recorded, front, v);
    }
    assert v in before.recorded <==> v in db.recorded;
    StepStops(before, files[i], plan.files[i]);
  }

  // ---------------------------------------------------------------- a recorded version executed again

  /**
   The look-up for a recorded version gives no answer, the statement is read and takes effect, and every earlier
   migration is recorded and was looked up.
   */
  ghost predicate BlindAt(db: Db, files: seq<File>, fates: seq<Fates>, i: int)
    requires |fates| == |files|
  {
    && 0 <= i < |files| && IsMigration(files[i]) && files[i].version.value in db.recorded
    && !fates[i].checked && fates[i].read && HasEffect(files[i], fates[i].exec)
    && forall j :: 0 <= j < i ==> Passed(db, files[j], fates[j])
  }

  ghost predicate Passed(db: Db, f: File, fates: Fates) {
    IsMigration(f) ==> fates.checked && f.version.value in db.recorded
  }

  ghost predicate Blind(db: Db, files: seq<File>, fates: seq<Fates>)
    requires |fates| == |files|
  {
    exists i :: BlindAt(db, files, fates, i)
  }

  lemma BlindUnfolds(db: Db, files: seq<File>, fates: seq<Fates>)
    requires |fates| == |files| && files != []
    ensures Blind(db, files, fates) <==>
            BlindAt(db, files, fates, 0) || (Passed(db, files[0], fates[0]) && Blind(db, files[1..], fates[1..]))
  {
    if Blind(db, files, fates) {
      var i :| BlindAt(db, files, fates, i);
      if i > 0 {
        forall j | 0 <= j < i - 1 ensures Passed(db, files[1..][j], fates[1..][j]) {
          assert Passed(db, files[j + 1], fates[j + 1]);
        }
        assert BlindAt(db, files[1..], fates[1..], i - 1);
      }
    }
    if Passed(db, files[0], fates[0]) && Blind(db, files[1..], fates[1..]) {
      var i :| BlindAt(db, files[1..], fates[1..], i);
      forall j | 0 <= j < i + 1 ensures Passed(db, files[j], fates[j]) {
        if j > 0 { assert Passed(db, files[1..][j - 1], fates[1..][j - 1]); }
      }
      assert BlindAt(db, files, fates, i + 1);
    }
  }

  /** A run only adds executions, and only of its files' versions. */
  lemma {:induction false} StepsExtend(db: Db, files: seq<File>, fates: seq<Fates>)
    requires |fates| == |files|
    ensures db.executed <= Steps(db, files, fates).db.executed
    ensures forall v :: v in NewlyExecuted(db, Steps(db, files, fates).db) ==> v in Versions(files)
    decreases |files|
  {
    if files != [] {
      var r, final := Step(db, files[0], fates[0]), Steps(db, files, fates);
      VersionsUnfold(files);
      if r.ok { StepsExtend(r.db, files[1..], fates[1..]); }
      var first := r.db.executed[|db.executed|..];
      assert NewlyExecuted(db, final.db) == first + final.db.executed[|r.db.executed|..];
    }
  }

  ghost predicate Repeats(db: Db, r: Db)
    requires |db.executed| <= |r.executed|
  {
    exists v :: v in NewlyExecuted(db, r) && v in db.recorded
  }

  /** A run executes a recorded version again exactly when it reaches one whose look-up gives no answer. */
  lemma {:induction false} StepsRepeatIff(db: Db, files: seq<File>, fates: seq<Fates>, k: nat)
    requires |fates| == |files| && Distinct(Versions(files)) && RecordedTo(db, Versions(files), k)
    ensures |db.executed| <= |Steps(db, files, fates).db.executed|
    ensures Repeats(db, Steps(db, files, fates).db) <==> Blind(db, files, fates)
    decreases |files|
  {
    StepsExtend(db, files, fates);
    if files != [] {
      var versions := Versions(files);
      VersionsUnfold(files);
      BlindUnfolds(db, files, fates);
      if !IsMigration(files[0]) {
        StepsRepeatIff(db, files[1..], fates[1..], k);
      } else {
        var v := files[0].version.value;
        assert versions[0] == v && versions[1..] == Versions(files[1..]);
        if k == 0 {
          assert v !in db.recorded;
          assert forall x :: x in versions ==> x !in db.recorded;
        } else {
          TailRecorded(db, versions, k);
          DistinctTail(versions);
          if fates[0].checked {
            StepsRepeatIff(db, files[1..], fates[1..], k - 1);
          } else if fates[0].read && HasEffect(files[0], fates[0].exec) {
            assert NewlyExecuted(db, Steps(db, files, fates).db) == [v];
          }
        }
      }
    }
  }

  lemma RepeatsIff(db: Db, files: seq<File>, plan: Plan)
    requires |plan.files| == |files|
    requires Distinct(Versions(files)) && Inv(db, Versions(files))
    ensures |db.executed| <= |Run(db, files, plan).db.executed|
    ensures Repeats(db, Run(db, files, plan).db) <==>
            plan.listed && plan.table.Done? && Blind(db, files, plan.files)
  {
    InvRecordedTo(db, Versions(files));
    StepsRepeatIff(db, files, plan.files, |db.recorded|);
  }

  /** It does happen: a complete run, then one whose only look-up fails. */
  lemma RecordedVersionRunsAgain()
    ensures var files := [File(false, Some(1), 1)];
            var first := Plan(true, Done, [Fates(true, true, All, Done)]);
            var second := Plan(true, Done, [Fates(false, true, All, Done)]);
            && Run(Db([], [], []), files, first) == Result(Db([1], [1], [1]), true)
            && Run(Db([1], [1], [1]), files, second) == Result(Db([1], [1, 1], [1, 1]), false)
  {
  }
}
