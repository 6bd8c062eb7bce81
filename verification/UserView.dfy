/** The merged list of users: index rows, sessions and static addresses, and what is decided from it. */
module UserView {
  import opened Text
  import opened PkiIndex
  import StatusFile

  type Session = StatusFile.Session

  datatype User = User(
    name: string, status: Status, serial: string, certExpires: int, staticIP: string, revokedAt: Option<int>,
    online: bool, lastIP: string, lastSeenAt: Option<Option<int>>, bytesIn: int, bytesOut: int)

  predicate IsServer(name: string) {
    "server_" <= name
  }

  // ---------------------------------------------------------------- what the list must say

  /** The row that decides: the last valid one, or the last one if none is valid. */
  ghost predicate Decides(certs: seq<Cert>, k: int) {
    && 0 <= k < |certs|
    && (forall j :: k < j < |certs| && certs[j].commonName == certs[k].commonName ==>
          certs[k].status.Valid? && !certs[j].status.Valid?)
    && (forall j :: 0 <= j < k && certs[j].commonName == certs[k].commonName ==>
          certs[j].status.Valid? ==> certs[k].status.Valid?)
  }

  /** The last session of a name. */
  function LastSession(sessions: seq<Session>, name: string): Option<Session> {
    if sessions == [] then None
    else if sessions[|sessions| - 1].commonName == name then Some(sessions[|sessions| - 1])
    else LastSession(sessions[..|sessions| - 1], name)
  }

  /** A user as one row, the name's last session and its static address describe it. */
  function UserOf(c: Cert, sessions: seq<Session>, statics: map<string, string>): User {
    var address := if c.commonName in statics then statics[c.commonName] else "";
    var revoked := if c.revokedAt == NO_TIME then None else Some(c.revokedAt);
    match LastSession(sessions, c.commonName)
    case None =>
      User(c.commonName, c.status, c.serial, c.notAfter, address, revoked, false, "", None, 0, 0)
    case Some(s) =>
      var seen := match s.connectedAt case None => None case Some(at) => Some(at);
      User(c.commonName, c.status, c.serial, c.notAfter, address, revoked,
           true, s.realIP, Some(seen), s.bytesIn, s.bytesOut)
  }

  /** One entry for each name that is not a server's, from the row that decides. */
  ghost predicate IsView(list: seq<User>, certs: seq<Cert>, sessions: seq<Session>, statics: map<string, string>) {
    && (forall i, j :: 0 <= i < j < |list| ==> list[i].name != list[j].name)
    && (forall i :: 0 <= i < |list| ==> FromRow(list[i], certs, sessions, statics))
    && (forall k :: 0 <= k < |certs| && !IsServer(certs[k].commonName) ==> Listed(list, certs[k].commonName))
  }

  ghost predicate FromRow(u: User, certs: seq<Cert>, sessions: seq<Session>, statics: map<string, string>) {
    !IsServer(u.name) && exists k :: IsRow(u, certs, k, sessions, statics)
  }

  ghost predicate IsRow(u: User, certs: seq<Cert>, k: int, sessions: seq<Session>, statics: map<string, string>) {
    Decides(certs, k) && u == UserOf(certs[k], sessions, statics)
  }

  /** The row that decides a user's entry. */
  ghost function RowOf(u: User, certs: seq<Cert>, sessions: seq<Session>, statics: map<string, string>): (k: nat)
    requires FromRow(u, certs, sessions, statics)
    ensures Decides(certs, k) && u == UserOf(certs[k], sessions, statics)
    ensures u.name == certs[k].commonName && u.status == certs[k].status
  {
    var k :| IsRow(u, certs, k, sessions, statics);
    k
  }

  ghost predicate Listed(list: seq<User>, name: string) {
    exists i :: 0 <= i < |list| && list[i].name == name
  }

  // ---------------------------------------------------------------- the merge

  datatype View = Users(list: seq<User>) | Failed

  ghost predicate SessionMap(online: map<string, Session>, sessions: seq<Session>) {
    forall name ::
      && (name in online <==> LastSession(sessions, name).Some?)
      && (name in online ==> LastSession(sessions, name) == Some(online[name]))
  }

  method LastSessions(sessions: seq<Session>) returns (online: map<string, Session>)
    ensures SessionMap(online, sessions)
  {
    online := map[];
    for i := 0 to |sessions|
      invariant SessionMap(online, sessions[..i])
    {
      assert sessions[..i + 1][..i] == sessions[..i];
      online := online[sessions[i].commonName := sessions[i]];
    }
    assert sessions[..|sessions|] == sessions;
  }

  /** Every name's entry comes from the row that decides among the rows so far. */
  ghost predicate Merged(
    byCN: map<string, User>, certs: seq<Cert>, sessions: seq<Session>, statics: map<string, string>)
  {
    && (forall name :: name in byCN ==> byCN[name].name == name && FromRow(byCN[name], certs, sessions, statics))
    && (forall k :: 0 <= k < |certs| && !IsServer(certs[k].commonName) ==> certs[k].commonName in byCN)
  }

  /** A later row of another name, or one that does not replace the decisive row, changes nothing. */
  lemma StillDecides(certs: seq<Cert>, c: Cert, k: int)
    requires Decides(certs, k)
    requires c.commonName != certs[k].commonName || (certs[k].status.Valid? && !c.status.Valid?)
    ensures Decides(certs + [c], k)
  {
  }

  lemma NowDecides(certs: seq<Cert>, c: Cert)
    requires c.status.Valid? ||
             forall j :: 0 <= j < |certs| && certs[j].commonName == c.commonName ==> !certs[j].status.Valid?
    ensures Decides(certs + [c], |certs|)
  {
  }

  /** The decisive row of a name is valid just if some row of the name is. */
  lemma DecidesValid(certs: seq<Cert>, k: int)
    requires Decides(certs, k)
    ensures certs[k].status.Valid? <==>
            exists j :: 0 <= j < |certs| && certs[j].commonName == certs[k].commonName && certs[j].status.Valid?
  {
  }

  lemma StillFromRow(u: User, certs: seq<Cert>, c: Cert, sessions: seq<Session>, statics: map<string, string>)
    requires FromRow(u, certs, sessions, statics)
    requires c.commonName != u.name || (u.status.Valid? && !c.status.Valid?)
    ensures FromRow(u, certs + [c], sessions, statics)
  {
    var k := RowOf(u, certs, sessions, statics);
    StillDecides(certs, c, k);
    assert IsRow(u, certs + [c], k, sessions, statics);
  }

  lemma NowFromRow(certs: seq<Cert>, c: Cert, sessions: seq<Session>, statics: map<string, string>)
    requires !IsServer(c.commonName)
    requires c.status.Valid? ||
             forall j :: 0 <= j < |certs| && certs[j].commonName == c.commonName ==> !certs[j].status.Valid?
    ensures FromRow(UserOf(c, sessions, statics), certs + [c], sessions, statics)
  {
    NowDecides(certs, c);
    assert IsRow(UserOf(c, sessions, statics), certs + [c], |certs|, sessions, statics);
  }

  /** No row of a name is valid unless the name's entry is. */
  lemma NoneValid(
    byCN: map<string, User>, certs: seq<Cert>, name: string, sessions: seq<Session>, statics: map<string, string>)
    requires Merged(byCN, certs, sessions, statics) && !IsServer(name)
    requires name !in byCN || !byCN[name].status.Valid?
    ensures forall j :: 0 <= j < |certs| && certs[j].commonName == name ==> !certs[j].status.Valid?
  {
    if name in byCN {
      DecidesValid(certs, RowOf(byCN[name], certs, sessions, statics));
    }
  }

  lemma MergedSkip(
    byCN: map<string, User>, certs: seq<Cert>, c: Cert, sessions: seq<Session>, statics: map<string, string>)
    requires Merged(byCN, certs, sessions, statics)
    requires IsServer(c.commonName) ||
             (c.commonName in byCN && byCN[c.commonName].status.Valid? && !c.status.Valid?)
    ensures Merged(byCN, certs + [c], sessions, statics)
  {
    forall name | name in byCN ensures FromRow(byCN[name], certs + [c], sessions, statics) {
      StillFromRow(byCN[name], certs, c, sessions, statics);
    }
  }

  lemma MergedPut(
    byCN: map<string, User>, certs: seq<Cert>, c: Cert, sessions: seq<Session>, statics: map<string, string>)
    requires Merged(byCN, certs, sessions, statics) && !IsServer(c.commonName)
    requires !(c.commonName in byCN && byCN[c.commonName].status.Valid? && !c.status.Valid?)
    ensures Merged(byCN[c.commonName := UserOf(c, sessions, statics)], certs + [c], sessions, statics)
  {
    var after, more := byCN[c.commonName := UserOf(c, sessions, statics)], certs + [c];
    if !c.status.Valid? { NoneValid(byCN, certs, c.commonName, sessions, statics); }
    NowFromRow(certs, c, sessions, statics);
    forall name | name in after ensures after[name].name == name && FromRow(after[name], more, sessions, statics) {
      if name != c.commonName { StillFromRow(byCN[name], certs, c, sessions, statics); }
    }
  }

  method CollectUsers(index: Index, sessions: seq<Session>, statics: map<string, string>) returns (view: View)
    ensures index.failed ==> view.Failed?
    ensures !index.failed ==> view.Users? && IsView(view.list, index.certs, sessions, statics)
  {
    if index.failed {
      return Failed;
    }
    var certs := index.certs;
    var online := LastSessions(sessions);
    var byCN: map<string, User> := map[];
    var i := 0;
    while i < |certs|
      invariant 0 <= i <= |certs|
      invariant Merged(byCN, certs[..i], sessions, statics)
    {
      ghost var before := certs[..i];
      var c := certs[i];
      assert certs[..i + 1] == before + [c];
      i := i + 1;
      if IsServer(c.commonName) {
        MergedSkip(byCN, before, c, sessions, statics);
        continue;
      }
      var u := User(c.commonName, c.status, c.serial, c.notAfter,
                    if c.commonName in statics then statics[c.commonName] else "", None, false, "", None, 0, 0);
      if c.revokedAt != NO_TIME {
        u := u.(revokedAt := Some(c.revokedAt));
      }
      if c.commonName in online {
        var x := online[c.commonName];
        var seen := match x.connectedAt case None => None case Some(at) => Some(at);
        u := u.(online := true, lastIP := x.realIP, lastSeenAt := Some(seen),
                bytesIn := x.bytesIn, bytesOut := x.bytesOut);
      }
      assert u == UserOf(c, sessions, statics);
      if c.commonName in byCN && byCN[c.commonName].status == Valid && u.status != Valid {
        MergedSkip(byCN, before, c, sessions, statics);
        continue;
      }
      MergedPut(byCN, before, c, sessions, statics);
      byCN := byCN[c.commonName := u];
    }
    assert certs[..i] == certs;
    var list := Values(byCN);
    return Users(list);
  }

  /** The values of a map in whatever order the map is traversed. */
  method Values(byCN: map<string, User>) returns (list: seq<User>)
    requires forall name :: name in byCN ==> byCN[name].name == name
    ensures forall i, j :: 0 <= i < j < |list| ==> list[i].name != list[j].name
    ensures forall i :: 0 <= i < |list| ==> list[i].name in byCN && list[i] == byCN[list[i].name]
    ensures forall name :: name in byCN ==> Listed(list, name)
  {
    list := [];
    var left := byCN.Keys;
    while left != {}
      invariant left <= byCN.Keys
      invariant forall i, j :: 0 <= i < j < |list| ==> list[i].name != list[j].name
      invariant forall i :: 0 <= i < |list| ==>
                  list[i].name in byCN && list[i].name !in left && list[i] == byCN[list[i].name]
      invariant forall name :: name in byCN && name !in left ==> Listed(list, name)
      decreases left
    {
      var name :| name in left;
      ghost var before := list;
      list := list + [byCN[name]];
      left := left - {name};
      assert list[|before|].name == name;
      forall n | n in byCN && n !in left && n != name ensures Listed(list, n) {
        var i :| 0 <= i < |before| && before[i].name == n;
        assert list[i].name == n;
      }
    }
  }

  // ---------------------------------------------------------------- what an entry shows

  /** The last session of the name is at this position. */
  ghost predicate LastAt(sessions: seq<Session>, name: string, i: int) {
    && 0 <= i < |sessions| && sessions[i].commonName == name
    && forall j :: i < j < |sessions| ==> sessions[j].commonName != name
  }

  lemma {:induction false} LastSessionAt(sessions: seq<Session>, name: string)
    ensures LastSession(sessions, name).None? <==> forall i :: 0 <= i < |sessions| ==> sessions[i].commonName != name
    ensures forall i :: LastAt(sessions, name, i) ==> LastSession(sessions, name) == Some(sessions[i])
  {
    if sessions != [] && sessions[|sessions| - 1].commonName != name {
      var front := sessions[..|sessions| - 1];
      LastSessionAt(front, name);
      forall i | LastAt(sessions, name, i) ensures LastSession(sessions, name) == Some(sessions[i]) {
        assert LastAt(front, name, i);
      }
      if LastSession(sessions, name).None? {
        forall i | 0 <= i < |sessions| ensures sessions[i].commonName != name {
          if i < |front| { assert front[i] == sessions[i]; }
        }
      }
    }
  }

  /**
   Every entry is of a name that is no server's and shows status, serial number, end and revocation of the row that
   decides, the static address if there is one, and addresses, time and counters of the name's last session, if any.
   */
  lemma EntryShows(list: seq<User>, certs: seq<Cert>, sessions: seq<Session>, statics: map<string, string>, i: nat)
    returns (k: nat)
    requires IsView(list, certs, sessions, statics) && i < |list|
    ensures Decides(certs, k) && certs[k].commonName == list[i].name && !("server_" <= list[i].name)
    ensures list[i].status == certs[k].status && list[i].serial == certs[k].serial
    ensures list[i].certExpires == certs[k].notAfter
    ensures list[i].revokedAt == if certs[k].revokedAt == -1 then None else Some(certs[k].revokedAt)
    ensures list[i].staticIP == if list[i].name in statics then statics[list[i].name] else ""
    ensures forall j :: LastAt(sessions, list[i].name, j) ==>
              && list[i].online && list[i].lastIP == sessions[j].realIP
              && list[i].lastSeenAt == Some(sessions[j].connectedAt)
              && list[i].bytesIn == sessions[j].bytesIn && list[i].bytesOut == sessions[j].bytesOut
    ensures (forall j :: 0 <= j < |sessions| ==> sessions[j].commonName != list[i].name) ==>
              && !list[i].online && list[i].lastIP == "" && list[i].lastSeenAt == None
              && list[i].bytesIn == 0 && list[i].bytesOut == 0
  {
    assert FromRow(list[i], certs, sessions, statics);
    k := RowOf(list[i], certs, sessions, statics);
    LastSessionAt(sessions, list[i].name);
  }

  /** Every name in the index that is no server's has an entry, and only one. */
  lemma EveryNameListed(list: seq<User>, certs: seq<Cert>, sessions: seq<Session>, statics: map<string, string>, k: nat)
    returns (i: nat)
    requires IsView(list, certs, sessions, statics) && k < |certs| && !("server_" <= certs[k].commonName)
    ensures i < |list| && list[i].name == certs[k].commonName
    ensures forall j :: 0 <= j < |list| && list[j].name == certs[k].commonName ==> j == i
  {
    assert Listed(list, certs[k].commonName);
    i :| 0 <= i < |list| && list[i].name == certs[k].commonName;
  }

  // ---------------------------------------------------------------- creating a client

  const DEFAULT_DAYS := 3650
  const MIN_DAYS := 1
  const MAX_DAYS := 3650
  const MAX_PASSWORD := 1024

  /** The password's length limit counts bytes. */
  type Byte = b: int | 0 <= b < 256

  predicate NameChar(c: char) {
    'a' <= c <= 'z' || 'A' <= c <= 'Z' || '0' <= c <= '9' || c in {'_', '.', '-'}
  }

  predicate ValidName(name: string) {
    1 <= |name| <= 64 && forall i :: 0 <= i < |name| ==> NameChar(name[i])
  }

  /** One to sixty-four letters, digits, underscores, dots and hyphens, the letters of ASCII only. */
  lemma ValidNameIs(name: string)
    ensures ValidName(name) <==>
            && name != "" && |name| < 65
            && forall i :: 0 <= i < |name| ==>
                 var c := name[i] as int;
                 97 <= c <= 122 || 65 <= c <= 90 || 48 <= c <= 57 || c == 95 || c == 46 || c == 45
  {
    forall c: char ensures NameChar(c) <==> NameCode(c as int) { }
    assert ValidName(name) <==> 1 <= |name| <= 64 && forall i :: 0 <= i < |name| ==> NameCode(name[i] as int);
  }

  predicate NameCode(c: int) {
    97 <= c <= 122 || 65 <= c <= 90 || 48 <= c <= 57 || c == 95 || c == 46 || c == 45
  }

  datatype Admission = InvalidName | InvalidDays | LongPassword | Exists | Admitted(days: int)

  /** Some row of the index makes the name's certificate valid. */
  ghost predicate HasValid(certs: seq<Cert>, name: string) {
    exists k :: 0 <= k < |certs| && certs[k].commonName == name && certs[k].status.Valid?
  }

  /** The checks made before a client certificate is built; an unreadable index is passed over. */
  method AdmitClient(name: string, certDays: int, password: seq<Byte>, index: Index) returns (a: Admission)
    ensures a.InvalidName? <==> !ValidName(name)
    ensures a.InvalidDays? <==> ValidName(name) && (certDays < 0 || certDays > 3650)
    ensures a.LongPassword? <==> ValidName(name) && 0 <= certDays <= 3650 && |password| > 1024
    ensures a.Exists? <==>
            && ValidName(name) && 0 <= certDays <= 3650 && |password| <= 1024
            && !index.failed && HasValid(index.certs, name)
    ensures a.Admitted? ==> a.days == (if certDays == 0 then 3650 else certDays)
  {
    if !ValidName(name) {
      return InvalidName;
    }
    var days := certDays;
    if days == 0 {
      days := DEFAULT_DAYS;
    }
    if days < MIN_DAYS || days > MAX_DAYS {
      return InvalidDays;
    }
    if |password| > MAX_PASSWORD {
      return LongPassword;
    }
    if !index.failed {
      for i := 0 to |index.certs|
        invariant forall j :: 0 <= j < i ==> !(index.certs[j].commonName == name && index.certs[j].status.Valid?)
      {
        var c := index.certs[i];
        if c.commonName == name && c.status == Valid {
          return Exists;
        }
      }
    }
    return Admitted(days);
  }

  ghost predicate ShownValid(list: seq<User>, name: string) {
    exists i :: 0 <= i < |list| && list[i].name == name && list[i].status.Valid?
  }

  /**
   The user list shows a name valid exactly when the index has a valid row for it and it is no server's,
   so, given a readable index, a well-formed request for such a name is refused as existing exactly when the
   list shows it valid.
   */
  lemma ViewShowsValid(
    list: seq<User>, certs: seq<Cert>, sessions: seq<Session>, statics: map<string, string>, name: string)
    requires IsView(list, certs, sessions, statics)
    ensures ShownValid(list, name) <==> HasValid(certs, name) && !IsServer(name)
  {
    if HasValid(certs, name) && !IsServer(name) {
      var k :| 0 <= k < |certs| && certs[k].commonName == name && certs[k].status.Valid?;
      assert Listed(list, certs[k].commonName);
      var i :| 0 <= i < |list| && list[i].name == name;
      assert FromRow(list[i], certs, sessions, statics);
      DecidesValid(certs, RowOf(list[i], certs, sessions, statics));
      assert list[i].status.Valid?;
    }
    if ShownValid(list, name) {
      var i :| 0 <= i < |list| && list[i].name == name && list[i].status.Valid?;
      assert FromRow(list[i], certs, sessions, statics);
      var k := RowOf(list[i], certs, sessions, statics);
      assert certs[k].commonName == name && certs[k].status.Valid?;
    }
  }

  /** The inputs fix the list up to its order. */
  lemma ViewIsDetermined(
    one: seq<User>, other: seq<User>, certs: seq<Cert>, sessions: seq<Session>, statics: map<string, string>, u: User)
    requires IsView(one, certs, sessions, statics) && IsView(other, certs, sessions, statics)
    requires u in one
    ensures u in other
  {
    var i :| 0 <= i < |one| && one[i] == u;
    assert FromRow(one[i], certs, sessions, statics);
    var k := RowOf(u, certs, sessions, statics);
    assert Listed(other, certs[k].commonName);
    var j :| 0 <= j < |other| && other[j].name == u.name;
    assert FromRow(other[j], certs, sessions, statics);
    DecidesOnce(certs, k, RowOf(other[j], certs, sessions, statics));
  }

  lemma DecidesOnce(certs: seq<Cert>, j: int, k: int)
    requires Decides(certs, j) && Decides(certs, k) && certs[j].commonName == certs[k].commonName
    ensures j == k
  {
  }

  // ---------------------------------------------------------------- the dashboard's counts

  const MONTH := 30 * 24 * 60 * 60

  datatype Counts = Counts(total: nat, revoked: nat, expiring: nat)

  predicate IsRevoked(u: User) {
    u.status.Revoked?
  }

  /** Not revoked, and its certificate ends within thirty days or has ended. */
  predicate IsExpiring(u: User, now: int) {
    !u.status.Revoked? && u.certExpires != NO_TIME && u.certExpires - now < MONTH
  }

  function CountRevoked(users: seq<User>): nat {
    |set i | 0 <= i < |users| && IsRevoked(users[i])|
  }

  function CountExpiring(users: seq<User>, now: int): nat {
    |set i | 0 <= i < |users| && IsExpiring(users[i], now)|
  }

  lemma CountMore(users: seq<User>, u: User, now: int)
    ensures CountRevoked(users + [u]) == CountRevoked(users) + if IsRevoked(u) then 1 else 0
    ensures CountExpiring(users + [u], now) == CountExpiring(users, now) + if IsExpiring(u, now) then 1 else 0
  {
    RevokedSnoc(users, u);
    ExpiringSnoc(users, u, now);
  }

  lemma RevokedSnoc(users: seq<User>, u: User)
    ensures CountRevoked(users + [u]) == CountRevoked(users) + if IsRevoked(u) then 1 else 0
  {
    var all, n := users + [u], |users|;
    var r := set i | 0 <= i < n && IsRevoked(users[i]);
    assert (set i | 0 <= i < |all| && IsRevoked(all[i])) == if IsRevoked(u) then r + {n} else r;
  }

  lemma ExpiringSnoc(users: seq<User>, u: User, now: int)
    ensures CountExpiring(users + [u], now) == CountExpiring(users, now) + if IsExpiring(u, now) then 1 else 0
  {
    var all, n := users + [u], |users|;
    var e := set i | 0 <= i < n && IsExpiring(users[i], now);
    assert (set i | 0 <= i < |all| && IsExpiring(all[i], now)) == if IsExpiring(u, now) then e + {n} else e;
  }

  /** Each user is counted once in the total and in at most one of the two other counts. */
  method CountUsers(users: seq<User>, now: int) returns (counts: Counts)
    ensures counts.total == |users| && counts.revoked + counts.expiring <= counts.total
    ensures counts.revoked == |set i | 0 <= i < |users| && users[i].status.Revoked?|
    ensures counts.expiring == |set i | 0 <= i < |users| && !users[i].status.Revoked? && users[i].certExpires != -1
                                        && users[i].certExpires - now < 2_592_000|
  {
    counts := Counts(0, 0, 0);
    for i := 0 to |users|
      invariant counts == Counts(i, CountRevoked(users[..i]), CountExpiring(users[..i], now))
      invariant counts.revoked + counts.expiring <= i
    {
      var u := users[i];
      assert users[..i + 1] == users[..i] + [u];
      CountMore(users[..i], u, now);
      counts := counts.(total := counts.total + 1);
      if u.status == Revoked {
        counts := counts.(revoked := counts.revoked + 1);
        continue;
      }
      if u.certExpires != NO_TIME && u.certExpires - now < MONTH {
        counts := counts.(expiring := counts.expiring + 1);
      }
    }
    assert users[..|users|] == users;
    assert (set i | 0 <= i < |users| && IsRevoked(users[i])) == set i | 0 <= i < |users| && users[i].status.Revoked?;
    assert (set i | 0 <= i < |users| && IsExpiring(users[i], now)) ==
           set i | 0 <= i < |users| && !users[i].status.Revoked? && users[i].certExpires != -1
                   && users[i].certExpires - now < 2_592_000;
  }
}
