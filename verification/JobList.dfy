/** Listing jobs: the outer loop repeats the scan of the whole map once for each job in it. */
module JobList {
  import opened JobPipeline
  import opened Sequences
  import opened Text

  predicate Wanted(jobs: map<JobId, Job>, status: Option<JobStatus>, id: JobId) {
    id in jobs && (status.None? || jobs[id].status == status.value)
  }

  function Matches(jobs: map<JobId, Job>, status: Option<JobStatus>): set<JobId> {
    set id | id in jobs && Wanted(jobs, status, id)
  }

  /** How often a job is listed. */
  function Count(list: seq<JobId>, id: JobId): nat {
    if list == [] then 0
    else Count(list[..|list| - 1], id) + if list[|list| - 1] == id then 1 else 0
  }

  /** How many entries `rounds` complete scans list. */
  function ListedAfter(rounds: nat, m: nat): nat {
    if rounds == 0 then 0 else ListedAfter(rounds - 1, m) + m
  }

  lemma {:induction false} ListedIsProduct(rounds: nat, m: nat)
    ensures ListedAfter(rounds, m) == rounds * m
  {
    if rounds > 0 { ListedIsProduct(rounds - 1, m); }
  }

  lemma {:induction false} ListedGrows(few: nat, many: nat, m: nat)
    requires few <= many
    ensures ListedAfter(few, m) <= ListedAfter(many, m)
    decreases many
  {
    if few < many { ListedGrows(few, many - 1, m); }
  }

  /** After `rounds` complete scans and a part of the next, which has listed `done`. */
  ghost predicate InRound(list: seq<JobId>, matches: set<JobId>, done: set<JobId>, rounds: nat) {
    && done <= matches
    && |list| == ListedAfter(rounds, |matches|) + |done|
    && (forall id :: id in matches ==> Count(list, id) == rounds + if id in done then 1 else 0)
    && (forall id :: id in list ==> id in matches)
  }

  lemma ListOneMore(list: seq<JobId>, matches: set<JobId>, done: set<JobId>, rounds: nat, id: JobId)
    requires InRound(list, matches, done, rounds) && id in matches && id !in done
    ensures InRound(list + [id], matches, done + {id}, rounds)
  {
    var longer := list + [id];
    assert longer[..|list|] == list;
  }

  lemma ScannedOne(matches: set<JobId>, left: set<JobId>, id: JobId)
    requires id in left
    ensures matches - (left - {id}) == matches - left + if id in matches then {id} else {}
    ensures id !in matches - left
  {
  }

  lemma RoundOver(list: seq<JobId>, matches: set<JobId>, rounds: nat)
    requires InRound(list, matches, matches, rounds)
    ensures InRound(list, matches, {}, rounds + 1)
  {
  }

  /** What the listing holds at the end. */
  ghost predicate Spread(list: seq<JobId>, matches: set<JobId>, n: nat, limit: int) {
    && (forall id :: id in list ==> id in matches)
    && (forall a, b :: a in matches && b in matches ==> Count(list, a) <= Count(list, b) + 1)
    && (limit == 0 ==> |list| == n * |matches| && forall id :: id in matches ==> Count(list, id) == n)
    && (limit > 0 ==> |list| == if limit < n * |matches| then limit else n * |matches|)
    && (limit < 0 ==> list == [])
  }

  lemma Ended(list: seq<JobId>, matches: set<JobId>, done: set<JobId>, rounds: nat, n: nat, limit: int)
    requires InRound(list, matches, done, rounds) && limit >= 0
    requires (done == {} && rounds == n) || (limit > 0 && |list| == limit && rounds < n)
    requires limit > 0 ==> |list| <= limit
    ensures Spread(list, matches, n, limit)
  {
    ListedIsProduct(n, |matches|);
    if rounds < n {
      ListedGrows(rounds + 1, n, |matches|);
      SubsetSize(done, matches);
    }
  }

  /** The inner loop: one scan of the map, in whatever order, cut short at the limit. */
  method ScanJobs(jobs: map<JobId, Job>, status: Option<JobStatus>, limit: int, listed: seq<JobId>, ghost rounds: nat)
    returns (list: seq<JobId>, ghost done: set<JobId>)
    requires InRound(listed, Matches(jobs, status), {}, rounds) && (limit > 0 ==> |listed| < limit)
    ensures InRound(list, Matches(jobs, status), done, rounds)
    ensures limit > 0 ==> |list| <= limit
    ensures limit <= 0 || |list| < limit ==> done == Matches(jobs, status)
  {
    ghost var matches := Matches(jobs, status);
    list, done := listed, {};
    var count := |listed|;
    var left := jobs.Keys;
    assert matches - left == {};
    while left != {}
      invariant left <= jobs.Keys && count == |list|
      invariant done == matches - left && InRound(list, matches, done, rounds)
      invariant limit > 0 ==> count < limit
      decreases left
    {
      var id :| id in left;
      ScannedOne(matches, left, id);
      assert id in matches <==> Wanted(jobs, status, id);
      left := left - {id};
      if status.Some? && jobs[id].status != status.value {
        continue;
      }
      ListOneMore(list, matches, done, rounds, id);
      done := done + {id};
      list := list + [id];
      count := count + 1;
      if limit > 0 && count >= limit {
        break;
      }
    }
  }

  /**
   Without a limit every match is listed as often as there are jobs; with one the listing stops there, the
   matches evenly spread; a negative limit lists nothing.
   */
  method ListJobs(jobs: map<JobId, Job>, status: Option<JobStatus>, limit: int) returns (list: seq<JobId>)
    ensures Spread(list, Matches(jobs, status), |jobs|, limit)
    ensures forall id :: id in list ==> id in jobs && (status.Some? ==> jobs[id].status == status.value)
    ensures limit == 0 ==> forall id :: id in jobs && (status.Some? ==> jobs[id].status == status.value) ==>
                             Count(list, id) == |jobs|
  {
    ghost var matches := Matches(jobs, status);
    list := [];
    var i := |jobs| - 1;
    ghost var done: set<JobId>, rounds: nat := {}, 0;
    while i >= 0 && (limit == 0 || |list| < limit)
      invariant -1 <= i < |jobs|
      invariant InRound(list, matches, done, rounds)
      invariant (done == {} && rounds == |jobs| - 1 - i) || (limit > 0 && |list| == limit && rounds < |jobs|)
      invariant limit > 0 ==> |list| <= limit
      invariant limit < 0 ==> list == []
    {
      list, done := ScanJobs(jobs, status, limit, list, rounds);
      if limit == 0 || |list| < limit {
        RoundOver(list, matches, rounds);
        done, rounds := {}, rounds + 1;
      }
      i := i - 1;
    }
    if limit >= 0 { Ended(list, matches, done, rounds, |jobs|, limit); }
  }
}
