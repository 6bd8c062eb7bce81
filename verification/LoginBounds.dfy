/** How many failures the limiter lets through: one login at a time, and with several in flight. */
module LoginBounds {
  import opened LoginLimiting

  // ---------------------------------------------------------------- one login at a time

  /** A login that asks at `ask` and, if let through and decided, reports at `act`. */
  datatype Visit = Visit(ask: Time, act: Time, body: Body)

  /** Each visit ends before the next begins. */
  ghost predicate InTurn(visits: seq<Visit>) {
    && (forall i :: 0 <= i < |visits| ==> visits[i].ask <= visits[i].act)
    && (forall i, j :: 0 <= i < j < |visits| ==> visits[i].act <= visits[j].ask)
  }

  /** None of them would succeed. */
  ghost predicate Unsuccessful(visits: seq<Visit>) {
    forall i :: 0 <= i < |visits| ==> !visits[i].body.RightCredentials?
  }

  /** The failures recorded after one more visit. */
  function Visited(before: seq<int>, v: Visit): seq<int> {
    if !Admits(before, v.ask) then before
    else match v.body
      case Malformed => before
      case WrongCredentials => before + [v.act as int]
      case RightCredentials => []
  }

  /** The failures recorded for the key after these visits and since its last success. */
  function Recorded(visits: seq<Visit>): seq<int> {
    if visits == [] then [] else Visited(Recorded(visits[..|visits| - 1]), visits[|visits| - 1])
  }

  lemma RecordedMore(visits: seq<Visit>, v: Visit)
    ensures Recorded(visits + [v]) == Visited(Recorded(visits), v)
  {
    assert (visits + [v])[..|visits|] == visits;
  }

  /** One handled login moves the history as one visit does. */
  lemma HandledIsVisited(before: seq<Event>, after: seq<Event>, key: string, v: Visit, status: Answer)
    requires status.TooManyRequests? <==> !Admits(FailuresOf(before, key), v.ask)
    requires !status.TooManyRequests? ==>
               status == match v.body
                         case Malformed => BadRequest
                         case WrongCredentials => Unauthorized
                         case RightCredentials => Ok
    requires after == before + match status
                               case Unauthorized => [Failure(key, v.act)]
                               case Ok => [Success(key)]
                               case _ => []
    ensures FailuresOf(after, key) == Visited(FailuresOf(before, key), v)
  {
    match status {
      case Unauthorized => FailuresSnoc(before, Failure(key, v.act), key);
      case Ok => FailuresSnoc(before, Success(key), key);
      case _ => assert after == before;
    }
  }

  /** HandleLogin, called visit by visit, leaves this key's history at Recorded. */
  method HandleInTurn(limiter: LoginLimiter, key: string, visits: seq<Visit>)
    requires limiter.Valid() && InTurn(visits) && FailuresOf(limiter.log, key) == []
    requires visits != [] ==> limiter.clock <= visits[0].ask
    modifies limiter
    ensures limiter.Valid() && FailuresOf(limiter.log, key) == Recorded(visits)
  {
    var i := 0;
    while i < |visits|
      invariant 0 <= i <= |visits| && limiter.Valid()
      invariant FailuresOf(limiter.log, key) == Recorded(visits[..i])
      invariant i < |visits| ==> limiter.clock <= visits[i].ask
    {
      ghost var before := limiter.log;
      var v := visits[i];
      var status := HandleLogin(limiter, key, v.ask, v.body, v.act);
      HandledIsVisited(before, limiter.log, key, v, status);
      assert visits[..i + 1] == visits[..i] + [v];
      RecordedMore(visits[..i], v);
      i := i + 1;
    }
    assert visits[..i] == visits;
  }

  /** The newest window holds five failures or more, the last of them at `t`. */
  ghost predicate LockedAt(f: seq<int>, t: int) {
    f != [] && f[|f| - 1] == t && |f| - WindowFrom(f) >= MAX_FAILURES
  }

  /** If the newest window holds four failures and a fifth falls into it at `t`, the lock lasts fifteen minutes. */
  lemma FifthFailureBlocks(f: seq<int>, t: int, now: int)
    requires f != [] && |f| - WindowFrom(f) == MAX_FAILURES - 1 && t - f[WindowFrom(f)] < WINDOW
    ensures LockedAt(f + [t], t) && (Admits(f + [t], now) <==> t + LOCKOUT <= now)
  {
    WindowSnoc(f, t);
  }

  lemma LockedVisit(f: seq<int>, t: int, v: Visit)
    requires LockedAt(f, t) && v.ask < t + LOCKOUT
    ensures !Admits(f, v.ask) && Visited(f, v) == f
  {
  }

  lemma LastApart(visits: seq<Visit>, more: seq<Visit>)
    requires more != []
    ensures visits + more == (visits + more[..|more| - 1]) + [more[|more| - 1]]
  {
  }

  lemma {:induction false} LockKeeps(visits: seq<Visit>, more: seq<Visit>, t: int)
    requires LockedAt(Recorded(visits), t) && forall i :: 0 <= i < |more| ==> more[i].ask < t + LOCKOUT
    ensures Recorded(visits + more) == Recorded(visits)
    decreases |more|
  {
    if more == [] {
      assert visits + [] == visits;
    } else {
      var front, v := more[..|more| - 1], more[|more| - 1];
      LockKeeps(visits, front, t);
      LockedVisit(Recorded(visits), t, v);
      RecordedMore(visits + front, v);
      LastApart(visits, more);
    }
  }

  /** While a lock lasts, visits in turn are refused, right credentials or not, and leave the history alone. */
  lemma LockRefuses(visits: seq<Visit>, more: seq<Visit>, t: int)
    requires LockedAt(Recorded(visits), t) && forall i :: 0 <= i < |more| ==> more[i].ask < t + LOCKOUT
    ensures Recorded(visits + more) == Recorded(visits)
    ensures forall i :: 0 <= i < |more| ==> !Admits(Recorded(visits + more[..i]), more[i].ask)
  {
    LockKeeps(visits, more, t);
    forall i | 0 <= i < |more| ensures !Admits(Recorded(visits + more[..i]), more[i].ask) {
      LockKeeps(visits, more[..i], t);
      LockedVisit(Recorded(visits), t, more[i]);
    }
  }

  /**
   A fifth failure at `t` in one window locks the key until exactly fifteen minutes later: every visit that
   asks before then is refused and records nothing, and the next is admitted just if it asks then or later.
   */
  lemma FifthFailureLocks(before: seq<Visit>, fifth: Visit, more: seq<Visit>, next: Visit)
    requires InTurn(before + [fifth] + more + [next]) && fifth.body.WrongCredentials?
    requires var f := Recorded(before);
             f != [] && |f| - WindowFrom(f) == 4 && fifth.act - f[WindowFrom(f)] < 300_000_000_000
    requires forall i :: 0 <= i < |more| ==> more[i].ask < fifth.act + 900_000_000_000
    ensures Recorded(before + [fifth]) == Recorded(before) + [fifth.act as int]
    ensures forall i :: 0 <= i < |more| ==> !Admits(Recorded(before + [fifth] + more[..i]), more[i].ask)
    ensures Recorded(before + [fifth] + more) == Recorded(before + [fifth])
    ensures Admits(Recorded(before + [fifth] + more), next.ask) <==> fifth.act + 900_000_000_000 <= next.ask
  {
    var all, f := before + [fifth] + more + [next], Recorded(before);
    assert all[|before|] == fifth && all[|all| - 1] == next;
    RecordedMore(before, fifth);
    FifthFailureBlocks(f, fifth.act, next.ask);
    WindowSnoc(f, fifth.act);
    LockRefuses(before + [fifth], more, fifth.act);
  }

  /**
   The failures of one key, each with the index of the first failure of its window: no
   window holds more than five, a new one begins five minutes or more after the last
   began, and fifteen after a full one ended.
   */
  ghost predicate Windowed(f: seq<int>, from: seq<nat>) {
    && |from| == |f|
    && (forall i, j :: 0 <= i < j < |f| ==> f[i] <= f[j])
    && (forall k :: 0 <= k < |f| ==> WithinWindow(f, from, k))
    && (forall k :: 0 < k < |f| ==> Continues(f, from, k))
  }

  ghost predicate WithinWindow(f: seq<int>, from: seq<nat>, k: int)
    requires |from| == |f| && 0 <= k < |f|
  {
    from[k] <= k && k - from[k] < MAX_FAILURES && f[k] - f[from[k]] < WINDOW
  }

  ghost predicate Continues(f: seq<int>, from: seq<nat>, k: int)
    requires |from| == |f| && 0 < k < |f|
  {
    && from[k - 1] < |f|
    && (|| (from[k] == from[k - 1] && k - 1 - from[k - 1] < MAX_FAILURES - 1)
        || (from[k] == k && f[k] - f[from[k - 1]] >= WINDOW
            && (k - 1 - from[k - 1] == MAX_FAILURES - 1 ==> f[k] - f[k - 1] >= LOCKOUT)))
  }

  lemma WindowSnoc(f: seq<int>, t: int)
    ensures WindowFrom(f + [t]) ==
            if f == [] then 0 else if t - f[WindowFrom(f)] < WINDOW then WindowFrom(f) else |f|
  {
    assert (f + [t])[..|f|] == f;
    if f != [] { assert (f + [t])[WindowFrom(f)] == f[WindowFrom(f)]; }
  }

  /** A further failure, let through at `ask`, continues the windows. */
  lemma WindowedSnoc(f: seq<int>, from: seq<nat>, ask: int, act: int) returns (more: seq<nat>)
    requires Windowed(f, from) && Admits(f, ask) && ask <= act
    requires f != [] ==> from[|f| - 1] == WindowFrom(f) && f[|f| - 1] <= ask
    ensures Windowed(f + [act], more) && more[|f|] == WindowFrom(f + [act])
  {
    var x := WindowFrom(f + [act]);
    if f == [] {
      more := [0];
    } else {
      LastContinues(f, from, ask, act);
      WindowedExtends(f, from, act, x);
      more := from + [x];
    }
  }

  lemma WindowedExtends(f: seq<int>, from: seq<nat>, act: int, x: nat)
    requires Windowed(f, from) && x <= |f| && |f| - x < MAX_FAILURES && act - (f + [act])[x] < WINDOW
    requires f != [] ==> f[|f| - 1] <= act && Continues(f + [act], from + [x], |f|)
    ensures Windowed(f + [act], from + [x])
  {
    var g, more := f + [act], from + [x];
    forall k | 0 <= k < |g| ensures WithinWindow(g, more, k) {
      if k < |f| { assert WithinWindow(f, from, k); }
    }
    forall k | 0 < k < |g| ensures Continues(g, more, k) {
      if k < |f| { assert Continues(f, from, k) && WithinWindow(f, from, k - 1); }
    }
    forall i, j | 0 <= i < j < |g| ensures g[i] <= g[j] {
      if j == |f| && i < |f| - 1 { assert f[i] <= f[|f| - 1]; }
    }
  }

  lemma LastContinues(f: seq<int>, from: seq<nat>, ask: int, act: int)
    requires Windowed(f, from) && Admits(f, ask) && ask <= act
    requires f != [] && from[|f| - 1] == WindowFrom(f) && f[|f| - 1] <= ask
    ensures var x := WindowFrom(f + [act]);
            x <= |f| && |f| - x < MAX_FAILURES && act - (f + [act])[x] < WINDOW
    ensures Continues(f + [act], from + [WindowFrom(f + [act])], |f|)
  {
    var g, w := f + [act], WindowFrom(f);
    WindowSnoc(f, act);
    assert WithinWindow(f, from, |f| - 1);
    assert g[|f|] == act && g[w] == f[w] && g[|f| - 1] == f[|f| - 1];
  }

  /** The windows of `f`, whose last failure came no later than `bound`. */
  ghost predicate WindowsUpTo(f: seq<int>, from: seq<nat>, bound: int) {
    Windowed(f, from) && (f != [] ==> from[|f| - 1] == WindowFrom(f) && f[|f| - 1] <= bound)
  }

  lemma LaterBound(f: seq<int>, from: seq<nat>, bound: int, later: int)
    requires WindowsUpTo(f, from, bound) && bound <= later
    ensures WindowsUpTo(f, from, later)
  {
  }

  lemma VisitKeepsWindows(f: seq<int>, from: seq<nat>, v: Visit) returns (more: seq<nat>)
    requires WindowsUpTo(f, from, v.ask as int) && v.ask <= v.act
    ensures WindowsUpTo(Visited(f, v), more, v.act as int)
  {
    if !Admits(f, v.ask) || v.body.Malformed? {
      more := from;
      LaterBound(f, from, v.ask, v.act);
    } else if v.body.RightCredentials? {
      more := [];
    } else {
      more := WindowedSnoc(f, from, v.ask, v.act);
    }
  }

  lemma {:induction false} RecordedIsWindowed(visits: seq<Visit>, bound: int) returns (from: seq<nat>)
    requires InTurn(visits) && (visits != [] ==> visits[|visits| - 1].act <= bound)
    ensures WindowsUpTo(Recorded(visits), from, bound)
    decreases |visits|
  {
    if visits == [] {
      from := [];
    } else {
      var front, v := visits[..|visits| - 1], visits[|visits| - 1];
      from := RecordedIsWindowed(front, v.ask);
      from := VisitKeepsWindows(Recorded(front), from, v);
      LaterBound(Recorded(visits), from, v.act, bound);
    }
  }

  /** All failures of a window name the same beginning. */
  lemma {:induction false} OneBeginning(f: seq<int>, from: seq<nat>, k: nat, i: nat)
    requires Windowed(f, from) && k < |f| && from[k] <= i <= k
    ensures from[i] == from[k]
    decreases k
  {
    if i < k {
      assert Continues(f, from, k) && WithinWindow(f, from, k - 1);
      OneBeginning(f, from, k - 1, i);
    }
  }

  /** Nine successive failures span five minutes. */
  lemma NineSpanAWindow(f: seq<int>, from: seq<nat>, i: nat)
    requires Windowed(f, from) && i + 8 < |f|
    ensures f[i + 8] - f[i] >= 300_000_000_000
  {
    var j := i + 8;
    assert WithinWindow(f, from, j);
    var a := from[j];
    OneBeginning(f, from, j, a);
    assert from[a] == a && i < a;
    assert Continues(f, from, a) && WithinWindow(f, from, a - 1);
    var b := from[a - 1];
    assert f[a] - f[b] >= WINDOW;
    assert a == j || f[a] <= f[j];
    if b < i {
      assert i == a - 1 || f[i] <= f[a - 1];
    } else {
      assert i == b || f[i] <= f[b];
    }
  }

  /** How many of these times lie in [from, till). */
  function CountIn(f: seq<int>, since: int, till: int): nat {
    if f == [] then 0
    else CountIn(f[..|f| - 1], since, till) + if since <= f[|f| - 1] < till then 1 else 0
  }

  lemma {:induction false} CountBounded(f: seq<int>, since: int, till: int, i: nat)
    requires i <= |f|
    requires forall k :: 0 <= k < i ==> !(since <= f[k] < till)
    ensures CountIn(f, since, till) <= |f| - i
    decreases |f|
  {
    if f != [] && i < |f| {
      CountBounded(f[..|f| - 1], since, till, i);
    } else if f != [] {
      CountBounded(f[..|f| - 1], since, till, i - 1);
    }
  }

  lemma WindowedFront(f: seq<int>, from: seq<nat>)
    requires Windowed(f, from) && f != []
    ensures Windowed(f[..|f| - 1], from[..|f| - 1])
  {
    var g, h := f[..|f| - 1], from[..|f| - 1];
    forall k | 0 <= k < |g| ensures WithinWindow(g, h, k) { assert WithinWindow(f, from, k); }
    forall k | 0 < k < |g| ensures Continues(g, h, k) {
      assert Continues(f, from, k) && WithinWindow(f, from, k - 1);
    }
  }

  lemma {:induction false} EightPerWindow(f: seq<int>, from: seq<nat>, since: int)
    requires Windowed(f, from)
    ensures CountIn(f, since, since + WINDOW) <= 8
    decreases |f|
  {
    if f != [] {
      var last := f[|f| - 1];
      if since <= last < since + WINDOW {
        if |f| > 8 {
          forall k | 0 <= k < |f| - 8 ensures f[k] < since {
            NineSpanAWindow(f, from, |f| - 9);
          }
          CountBounded(f, since, since + WINDOW, |f| - 8);
        } else {
          CountBounded(f, since, since + WINDOW, 0);
        }
      } else {
        WindowedFront(f, from);
        EightPerWindow(f[..|f| - 1], from[..|f| - 1], since);
      }
    }
  }

  /** However logins follow one another, five minutes see at most eight failures of a key. */
  lemma RateBound(visits: seq<Visit>, since: int)
    requires InTurn(visits) && Unsuccessful(visits)
    ensures CountIn(Recorded(visits), since, since + 300_000_000_000) <= 8
  {
    var from := RecordedIsWindowed(visits, if visits == [] then 0 else visits[|visits| - 1].act);
    EightPerWindow(Recorded(visits), from, since);
  }

  lemma Quotient(x: int, y: int, n: nat)
    requires x + n * WINDOW <= y
    ensures x / WINDOW + n <= y / WINDOW
  {
  }

  /** A window of five is followed by fifteen minutes without failures, a smaller one ends after five. */
  lemma NextWindow(b: nat, k: nat, x: int, y: int)
    requires b <= 4 * (x / WINDOW) && x + WINDOW <= y
    requires k <= b + 4 || (k == b + 5 && x + 3 * WINDOW <= y)
    ensures k <= 4 * (y / WINDOW)
  {
    Quotient(x, y, if k <= b + 4 then 1 else 3);
  }

  /** Failures before the newest window: at most four for every five minutes since the first failure. */
  lemma {:induction false} FourPerWindow(f: seq<int>, from: seq<nat>)
    requires Windowed(f, from) && f != []
    ensures from[|f| - 1] < |f| && from[|f| - 1] <= 4 * ((f[from[|f| - 1]] - f[0]) / WINDOW)
    decreases |f|
  {
    var k := |f| - 1;
    assert WithinWindow(f, from, k);
    if k > 0 {
      WindowedFront(f, from);
      FourPerWindow(f[..k], from[..k]);
      assert Continues(f, from, k) && WithinWindow(f, from, k - 1);
      if from[k] == k {
        var b := from[k - 1];
        assert b <= 4 * ((f[b] - f[0]) / WINDOW);
        assert b == k - 1 || f[b] <= f[k - 1];
        NextWindow(b, k, f[b] - f[0], f[k] - f[0]);
      }
    }
  }

  lemma LongerSpan(a: nat, n: nat, x: int, y: int)
    requires a <= 4 * (x / WINDOW) && n <= a + 5 && x <= y
    ensures n <= 4 * (y / 300_000_000_000) + 5
  {
    Quotient(x, y, 0);
  }

  lemma LongRunOf(f: seq<int>, from: seq<nat>)
    requires Windowed(f, from) && f != []
    ensures |f| <= 4 * ((f[|f| - 1] - f[0]) / 300_000_000_000) + 5
  {
    FourPerWindow(f, from);
    assert WithinWindow(f, from, |f| - 1);
    var a := from[|f| - 1];
    assert f[a] <= f[|f| - 1] by { assert a == |f| - 1 || f[a] <= f[|f| - 1]; }
    LongerSpan(a, |f|, f[a] - f[0], f[|f| - 1] - f[0]);
  }

  /** From the first failure to the last there are at most four for every full five minutes, and five more. */
  lemma LongRunBound(visits: seq<Visit>)
    requires InTurn(visits) && Unsuccessful(visits) && Recorded(visits) != []
    ensures var f := Recorded(visits);
            |f| <= 4 * ((f[|f| - 1] - f[0]) / 300_000_000_000) + 5
  {
    var from := RecordedIsWindowed(visits, if visits == [] then 0 else visits[|visits| - 1].act);
    LongRunOf(Recorded(visits), from);
  }

  // ---------------------------------------------------------------- both bounds are met

  function Wrong(t: Time): Visit {
    Visit(t, t, WrongCredentials)
  }

  /** Visits whose recorded failures are `f`, the newest window beginning at index `w`, `n` from WINDOW on. */
  ghost predicate Built(visits: seq<Visit>, f: seq<int>, w: nat, n: nat) {
    && InTurn(visits) && visits != [] && Recorded(visits) == f && f != []
    && visits[|visits| - 1].act == f[|f| - 1] && w == WindowFrom(f)
    && CountIn(f, WINDOW, 2 * WINDOW) == n
  }

  lemma OneMore(visits: seq<Visit>, f: seq<int>, w: nat, n: nat, t: Time) returns (v: nat)
    requires Built(visits, f, w, n) && Admits(f, t) && f[|f| - 1] <= t && WINDOW <= t < 2 * WINDOW
    ensures Built(visits + [Wrong(t)], f + [t as int], v, n + 1)
    ensures v == if t - f[w] < WINDOW then w else |f|
  {
    WindowSnoc(f, t);
    v := WindowFrom(f + [t as int]);
    RecordedSnoc(visits, f, t);
    CountSnoc(f, WINDOW, 2 * WINDOW, t);
    InTurnSnoc(visits, t);
  }

  lemma RecordedSnoc(visits: seq<Visit>, f: seq<int>, t: Time)
    requires Recorded(visits) == f && Admits(f, t)
    ensures Recorded(visits + [Wrong(t)]) == f + [t as int]
  {
    assert (visits + [Wrong(t)])[..|visits|] == visits;
  }

  lemma CountSnoc(f: seq<int>, since: int, till: int, t: int)
    ensures CountIn(f + [t], since, till) == CountIn(f, since, till) + if since <= t < till then 1 else 0
  {
    assert (f + [t])[..|f|] == f;
  }

  lemma InTurnSnoc(visits: seq<Visit>, t: Time)
    requires InTurn(visits) && visits != [] && visits[|visits| - 1].act <= t
    ensures InTurn(visits + [Wrong(t)])
  {
    var more := visits + [Wrong(t)];
    forall i, j | 0 <= i < j < |more| ensures more[i].act <= more[j].ask {
      if j == |visits| && i < |visits| - 1 {
        assert visits[i].act <= visits[|visits| - 1].ask <= visits[|visits| - 1].act;
      }
    }
  }

  lemma FirstFailure() returns (visits: seq<Visit>)
    ensures Built(visits, [1], 0, 0)
  {
    visits := [Wrong(1)];
    assert visits[..0] == [] && [1][..0] == [];
  }

  /** The bound of eight is met: three failures end one window and five begin the next. */
  lemma EightIsReached() returns (visits: seq<Visit>)
    ensures InTurn(visits) && CountIn(Recorded(visits), 300_000_000_000, 600_000_000_000) == 8
  {
    visits := FirstFailure();
    var f, w, i, b: Time, c: Time := [1], 0, 0, WINDOW, WINDOW + 1;
    while i < 3
      invariant 0 <= i <= 3 && Built(visits, f, w, i) && |f| == 1 + i && w == 0 && f[0] == 1 && f[|f| - 1] <= b
    {
      w := OneMore(visits, f, w, i, b);
      visits, f, i := visits + [Wrong(b)], f + [b as int], i + 1;
    }
    while i < 8
      invariant 3 <= i <= 8 && Built(visits, f, w, i) && |f| == 1 + i && f[|f| - 1] <= c
      invariant if i == 3 then w == 0 && f[0] == 1 else w == 4 && f[4] == c
    {
      w := OneMore(visits, f, w, i, c);
      visits, f, i := visits + [Wrong(c)], f + [c as int], i + 1;
    }
  }

  /** Unsuccessful visits whose recorded failures are `f`, the newest window beginning at index `w`, at `begun`. */
  ghost predicate Failing(visits: seq<Visit>, f: seq<int>, w: nat, begun: int) {
    && InTurn(visits) && Unsuccessful(visits) && visits != [] && Recorded(visits) == f && f != []
    && visits[|visits| - 1].act == f[|f| - 1] && w == WindowFrom(f) && f[w] == begun
  }

  lemma FailsAgain(visits: seq<Visit>, f: seq<int>, w: nat, begun: int, t: Time)
    requires Failing(visits, f, w, begun) && |f| - w < MAX_FAILURES && f[|f| - 1] <= t
    ensures var more, g := visits + [Wrong(t)], f + [t as int];
            if t - begun < WINDOW then Failing(more, g, w, begun) else Failing(more, g, |f|, t)
  {
    WindowSnoc(f, t);
    RecordedSnoc(visits, f, t);
    InTurnSnoc(visits, t);
  }

  /** Three more failures at the instant a window begins. */
  lemma FillToFour(visits: seq<Visit>, f: seq<int>, begun: Time) returns (more: seq<Visit>, g: seq<int>)
    requires f != [] && f[|f| - 1] == begun && Failing(visits, f, |f| - 1, begun)
    ensures |g| == |f| + 3 && g[0] == f[0] && g[|g| - 1] == begun && Failing(more, g, |f| - 1, begun)
  {
    more, g := visits, f;
    while |g| < |f| + 3
      invariant |f| <= |g| <= |f| + 3 && g[0] == f[0] && g[|g| - 1] == begun && Failing(more, g, |f| - 1, begun)
      decreases |f| + 3 - |g|
    {
      FailsAgain(more, g, |f| - 1, begun, begun);
      more, g := more + [Wrong(begun)], g + [begun as int];
    }
  }

  /** Four failures at the beginning of each of so many windows, one begun as soon as the last is over. */
  lemma {:induction false} FoursInARow(windows: nat) returns (visits: seq<Visit>, f: seq<int>)
    ensures Failing(visits, f, 4 * windows, 1 + windows * WINDOW)
    ensures |f| == 4 * windows + 4 && f[0] == 1 && f[|f| - 1] == 1 + windows * WINDOW
  {
    if windows == 0 {
      visits, f := [Wrong(1)], [1];
      assert visits[..0] == [] && Recorded(visits) == [1];
      visits, f := FillToFour(visits, f, 1);
    } else {
      var t: Time := 1 + windows * WINDOW;
      visits, f := FoursInARow(windows - 1);
      FailsAgain(visits, f, 4 * (windows - 1), t - WINDOW, t);
      visits, f := FillToFour(visits + [Wrong(t)], f + [t as int], t);
    }
  }

  /** The bound on long runs is met for every length of time from the first failure to the last. */
  lemma LongRunIsReached(d: nat) returns (visits: seq<Visit>)
    ensures InTurn(visits) && Unsuccessful(visits) && Recorded(visits) != []
    ensures var f := Recorded(visits);
            f[|f| - 1] - f[0] == d && |f| == 4 * (d / 300_000_000_000) + 5
  {
    var windows, f, t: Time := d / WINDOW, [], 1 + d;
    visits, f := FoursInARow(windows);
    FailsAgain(visits, f, 4 * windows, 1 + windows * WINDOW, t);
    visits := visits + [Wrong(t)];
  }

  // ---------------------------------------------------------------- several logins in flight

  /** The table together with the requests of each key that were let through and have not reported back. */
  datatype Gate = Gate(attempts: map<string, Attempt>, inFlight: map<string, nat>, clock: int)

  datatype GateStep =
    | Ask(key: string, now: Time)
    | Fail(key: string, now: Time)
    | Succeed(key: string)
    | Abandon(key: string)

  function Unreported(g: Gate, key: string): nat {
    if key in g.inFlight then g.inFlight[key] else 0
  }

  function FailureCount(g: Gate, key: string): nat {
    if key in g.attempts then g.attempts[key].failures else 0
  }

  /** At most `most` requests of a key are ever let through at once; a refused request is over. */
  predicate GateEnabled(g: Gate, step: GateStep, most: nat) {
    match step
    case Ask(key, now) => g.clock <= now && (Blocked(g.attempts, key, now) || Unreported(g, key) < most)
    case Fail(key, now) => g.clock <= now && Unreported(g, key) > 0
    case Succeed(key) => Unreported(g, key) > 0
    case Abandon(key) => Unreported(g, key) > 0
  }

  function GateNext(g: Gate, step: GateStep, most: nat): Gate
    requires GateEnabled(g, step, most)
  {
    match step
    case Ask(key, now) =>
      var asked := g.(attempts := AfterQuery(g.attempts, key, now), clock := now);
      if Blocked(g.attempts, key, now) then asked
      else asked.(inFlight := g.inFlight[key := Unreported(g, key) + 1])
    case Fail(key, now) =>
      g.(attempts := AfterFailure(g.attempts, key, now), clock := now,
         inFlight := g.inFlight[key := Unreported(g, key) - 1])
    case Succeed(key) =>
      g.(attempts := g.attempts - {key}, inFlight := g.inFlight[key := Unreported(g, key) - 1])
    case Abandon(key) =>
      g.(inFlight := g.inFlight[key := Unreported(g, key) - 1])
  }

  ghost predicate GateRun(g: Gate, steps: seq<GateStep>, most: nat)
    decreases |steps|
  {
    steps != [] ==> GateEnabled(g, steps[0], most) && GateRun(GateNext(g, steps[0], most), steps[1..], most)
  }

  ghost function GateAfter(g: Gate, steps: seq<GateStep>, most: nat): Gate
    requires GateRun(g, steps, most)
    decreases |steps|
  {
    if steps == [] then g else GateAfter(GateNext(g, steps[0], most), steps[1..], most)
  }

  /** Failures counted and failures that may still come stay within four and the number in flight. */
  ghost predicate GateOk(g: Gate, most: nat, key: string) {
    && Unreported(g, key) <= most
    && FailureCount(g, key) + Unreported(g, key) <= MAX_FAILURES - 1 + most
    && (key in g.attempts ==>
          var a := g.attempts[key];
          && NEVER < a.windowStart <= g.clock && a.lockedUntil <= g.clock + LOCKOUT
          && (a.failures >= MAX_FAILURES ==> a.windowStart + LOCKOUT <= a.lockedUntil)
          && (a.lockedUntil != NEVER ==> a.failures >= MAX_FAILURES))
  }

  lemma GateStepOk(g: Gate, step: GateStep, most: nat, key: string)
    requires GateOk(g, most, key) && GateEnabled(g, step, most)
    ensures GateOk(GateNext(g, step, most), most, key)
  {
  }

  /**
   With at most `most` requests of a key between being let through and reporting back, no
   interleaving of requests counts more than 4 + `most` failures for the key. This needs the
   lockout to outlast the window.
   */
  lemma {:induction false} FailuresStayBounded(g: Gate, steps: seq<GateStep>, most: nat, key: string)
    requires GateOk(g, most, key) && GateRun(g, steps, most)
    ensures FailureCount(GateAfter(g, steps, most), key) <= 4 + most
    decreases |steps|
  {
    if steps != [] {
      GateStepOk(g, steps[0], most, key);
      FailuresStayBounded(GateNext(g, steps[0], most), steps[1..], most, key);
    }
  }

  const EMPTY := Gate(map[], map[], NEVER)

  lemma EmptyGateOk(most: nat, key: string)
    ensures GateOk(EMPTY, most, key)
  {
  }

  /** The bound for every run of a limiter from its start. */
  lemma StartedStaysBounded(steps: seq<GateStep>, most: nat, key: string)
    requires GateRun(EMPTY, steps, most)
    ensures FailureCount(GateAfter(EMPTY, steps, most), key) <= 4 + most
  {
    EmptyGateOk(most, key);
    FailuresStayBounded(EMPTY, steps, most, key);
  }

  ghost predicate GateLeads(g: Gate, h: Gate, most: nat) {
    exists steps :: GateRun(g, steps, most) && GateAfter(g, steps, most) == h
  }

  lemma {:induction false} GateSnoc(g: Gate, steps: seq<GateStep>, step: GateStep, most: nat)
    requires GateRun(g, steps, most) && GateEnabled(GateAfter(g, steps, most), step, most)
    ensures GateRun(g, steps + [step], most)
    ensures GateAfter(g, steps + [step], most) == GateNext(GateAfter(g, steps, most), step, most)
    decreases |steps|
  {
    if steps == [] {
      assert ([] + [step])[1..] == [];
    } else {
      GateSnoc(GateNext(g, steps[0], most), steps[1..], step, most);
      assert (steps + [step])[1..] == steps[1..] + [step];
    }
  }

  lemma GateGo(g: Gate, h: Gate, step: GateStep, most: nat) returns (next: Gate)
    requires GateLeads(g, h, most) && GateEnabled(h, step, most)
    ensures next == GateNext(h, step, most) && GateLeads(g, next, most)
  {
    var steps :| GateRun(g, steps, most) && GateAfter(g, steps, most) == h;
    GateSnoc(g, steps, step, most);
    next := GateNext(h, step, most);
  }

  /** The bound is met: four logins in turn, then `most` at once. */
  lemma FailuresReachTheBound(most: nat, key: string) returns (g: Gate)
    requires most >= 1
    ensures GateLeads(EMPTY, g, most) && FailureCount(g, key) == 4 + most
  {
    var start := EMPTY;
    g := start;
    assert GateRun(start, [], most) && GateAfter(start, [], most) == start;
    var i := 0;
    while i < 4
      invariant 0 <= i <= 4 && GateLeads(start, g, most) && FailureCount(g, key) == i && Unreported(g, key) == 0
      invariant g.clock <= 1
      invariant key in g.attempts ==> g.attempts[key].windowStart == 1 && g.attempts[key].lockedUntil == NEVER
    {
      g := GateGo(start, g, Ask(key, 1), most);
      g := GateGo(start, g, Fail(key, 1), most);
      i := i + 1;
    }
    i := 0;
    while i < most
      invariant 0 <= i <= most && GateLeads(start, g, most) && FailureCount(g, key) == 4 && Unreported(g, key) == i
      invariant g.clock <= 1 && key in g.attempts
      invariant g.attempts[key].windowStart == 1 && g.attempts[key].lockedUntil == NEVER
    {
      g := GateGo(start, g, Ask(key, 1), most);
      i := i + 1;
    }
    i := 0;
    while i < most
      invariant 0 <= i <= most && GateLeads(start, g, most) && FailureCount(g, key) == 4 + i
      invariant Unreported(g, key) == most - i
      invariant g.clock <= 1 && key in g.attempts && g.attempts[key].windowStart == 1
    {
      g := GateGo(start, g, Fail(key, 1), most);
      i := i + 1;
    }
  }

  // ---------------------------------------------------------------- the lock with logins in flight

  /** The key is blocked in every state of the run, each looked at by its own clock. */
  ghost predicate StaysBlocked(g: Gate, steps: seq<GateStep>, most: nat, key: string)
    requires GateRun(g, steps, most)
    decreases |steps|
  {
    && BlockedNow(g, key)
    && (steps != [] ==> StaysBlocked(GateNext(g, steps[0], most), steps[1..], most, key))
  }

  predicate BlockedNow(g: Gate, key: string) {
    key in g.attempts && g.attempts[key].lockedUntil != NEVER && g.clock < g.attempts[key].lockedUntil
  }

  /** The key's success, or a failure of the key reported after the window that began at `since` is over. */
  predicate Drops(step: GateStep, key: string, since: int) {
    step == Succeed(key) || (step.Fail? && step.key == key && step.now - since >= 300_000_000_000)
  }

  /** No step of the run comes at `until` or later. */
  predicate EndsBefore(steps: seq<GateStep>, until: int) {
    forall i :: 0 <= i < |steps| ==> (steps[i].Ask? || steps[i].Fail?) ==> steps[i].now < until
  }

  /** One step before the lock is over drops it exactly if it is one of those two; otherwise the window stays. */
  lemma LockStep(g: Gate, step: GateStep, most: nat, key: string)
    requires GateOk(g, most, key) && GateEnabled(g, step, most) && BlockedNow(g, key)
    requires step.Ask? || step.Fail? ==> step.now < g.attempts[key].lockedUntil
    ensures var h := GateNext(g, step, most);
            && (BlockedNow(h, key) <==> !Drops(step, key, g.attempts[key].windowStart))
            && (BlockedNow(h, key) ==> h.attempts[key].windowStart == g.attempts[key].windowStart
                                       && h.attempts[key].lockedUntil >= g.attempts[key].lockedUntil)
  {
    match step {
      case Ask(_, _) =>
      case Fail(_, _) =>
      case Succeed(_) =>
      case Abandon(_) =>
    }
  }

  /**
   With requests in flight, a lock holds in every state of a run that ends before the lock does if and only if
   the run has no success of the key and no failure of it reported five minutes or more after its window began.
   */
  lemma {:induction false} LockHoldsIff(g: Gate, steps: seq<GateStep>, most: nat, key: string)
    requires GateOk(g, most, key) && GateRun(g, steps, most) && BlockedNow(g, key)
    requires EndsBefore(steps, g.attempts[key].lockedUntil)
    ensures StaysBlocked(g, steps, most, key) <==>
            forall i :: 0 <= i < |steps| ==> !Drops(steps[i], key, g.attempts[key].windowStart)
    decreases |steps|
  {
    if steps != [] {
      var h, rest := GateNext(g, steps[0], most), steps[1..];
      GateStepOk(g, steps[0], most, key);
      LockStep(g, steps[0], most, key);
      if BlockedNow(h, key) {
        LockHoldsIff(h, rest, most, key);
        assert forall i :: 0 <= i < |rest| ==> rest[i] == steps[i + 1];
        forall i | 0 <= i < |steps| && StaysBlocked(h, rest, most, key)
          ensures !Drops(steps[i], key, g.attempts[key].windowStart)
        {
          if i > 0 { assert rest[i - 1] == steps[i]; }
        }
      }
    }
  }

  lemma {:induction false} GateRunOk(g: Gate, steps: seq<GateStep>, most: nat, key: string)
    requires GateOk(g, most, key) && GateRun(g, steps, most)
    ensures GateOk(GateAfter(g, steps, most), most, key)
    decreases |steps|
  {
    if steps != [] {
      GateStepOk(g, steps[0], most, key);
      GateRunOk(GateNext(g, steps[0], most), steps[1..], most, key);
    }
  }

  /** The same for every lock a started limiter can come to. */
  lemma StartedLockHoldsIff(front: seq<GateStep>, back: seq<GateStep>, most: nat, key: string)
    requires GateRun(EMPTY, front, most) && GateRun(GateAfter(EMPTY, front, most), back, most)
    requires var g := GateAfter(EMPTY, front, most);
             BlockedNow(g, key) && EndsBefore(back, g.attempts[key].lockedUntil)
    ensures var g := GateAfter(EMPTY, front, most);
            StaysBlocked(g, back, most, key) <==>
            forall i :: 0 <= i < |back| ==> !Drops(back[i], key, g.attempts[key].windowStart)
  {
    EmptyGateOk(most, key);
    GateRunOk(EMPTY, front, most, key);
    LockHoldsIff(GateAfter(EMPTY, front, most), back, most, key);
  }

  /** Six requests let through at once, five of which have failed: locked, with one more to report. */
  lemma LockedWithOneOut(key: string) returns (g: Gate)
    ensures GateLeads(EMPTY, g, 6) && g.clock == 1 && Unreported(g, key) == 1
    ensures key in g.attempts && g.attempts[key] == Attempt(5, 1, 900_000_000_001)
  {
    g := EMPTY;
    assert GateRun(EMPTY, [], 6) && GateAfter(EMPTY, [], 6) == EMPTY;
    var i := 0;
    while i < 6
      invariant 0 <= i <= 6 && GateLeads(EMPTY, g, 6) && Unreported(g, key) == i && key !in g.attempts && g.clock <= 1
    {
      g := GateGo(EMPTY, g, Ask(key, 1), 6);
      i := i + 1;
    }
    i := 0;
    while i < 5
      invariant 0 <= i <= 5 && GateLeads(EMPTY, g, 6) && Unreported(g, key) == 6 - i && g.clock <= 1
      invariant if i == 0 then key !in g.attempts
                else key in g.attempts && g.clock == 1
                     && g.attempts[key] == Attempt(i, 1, if i < 5 then NEVER else 1 + LOCKOUT)
    {
      g := GateGo(EMPTY, g, Fail(key, 1), 6);
      i := i + 1;
    }
  }

  /** It does happen: a failure that was in flight opens a new window and the key is free ten minutes early. */
  lemma LockDropped(key: string) returns (g: Gate, h: Gate)
    ensures GateLeads(EMPTY, g, 6) && BlockedNow(g, key) && g.attempts[key].lockedUntil == 900_000_000_001
    ensures GateEnabled(g, Fail(key, 300_000_000_001), 6) && h == GateNext(g, Fail(key, 300_000_000_001), 6)
    ensures GateLeads(EMPTY, h, 6) && h.clock == 300_000_000_001 && !Blocked(h.attempts, key, 300_000_000_001)
  {
    g := LockedWithOneOut(key);
    h := GateGo(EMPTY, g, Fail(key, 300_000_000_001), 6);
  }

  // ---------------------------------------------------------------- requests in flight

  /** The requests of the key that this step lets through, less those it ends. */
  function Change(g: Gate, step: GateStep, key: string): int {
    match step
    case Ask(k, now) => if k == key && !(key in g.attempts && now < g.attempts[key].lockedUntil) then 1 else 0
    case Fail(k, _) => if k == key then -1 else 0
    case Succeed(k) => if k == key then -1 else 0
    case Abandon(k) => if k == key then -1 else 0
  }

  function Changes(g: Gate, steps: seq<GateStep>, most: nat, key: string): int
    requires GateRun(g, steps, most)
    decreases |steps|
  {
    if steps == [] then 0
    else Change(g, steps[0], key) + Changes(GateNext(g, steps[0], most), steps[1..], most, key)
  }

  lemma OneChange(g: Gate, step: GateStep, most: nat, key: string)
    requires GateOk(g, most, key) && GateEnabled(g, step, most)
    ensures Unreported(GateNext(g, step, most), key) == Unreported(g, key) + Change(g, step, key)
  {
  }

  /** Over every run, the requests in flight are those let through less those that failed, succeeded or were dropped. */
  lemma {:induction false} InFlightCounts(g: Gate, steps: seq<GateStep>, most: nat, key: string)
    requires GateOk(g, most, key) && GateRun(g, steps, most)
    ensures Unreported(GateAfter(g, steps, most), key) == Unreported(g, key) + Changes(g, steps, most, key)
    decreases |steps|
  {
    if steps != [] {
      OneChange(g, steps[0], most, key);
      GateStepOk(g, steps[0], most, key);
      InFlightCounts(GateNext(g, steps[0], most), steps[1..], most, key);
    }
  }
}
