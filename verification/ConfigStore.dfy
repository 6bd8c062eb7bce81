/** The table of cached configs: saving looks for a row first, then updates it or inserts one. */
module ConfigStores {

  datatype Row = Row(id: nat, user: int, data: string, created: int, updated: int)

  datatype Fetched = Fetched(data: string) | Nothing | QueryFailed

  /** No two rows share an id, and no two a user. */
  ghost predicate OneEach(rows: seq<Row>) {
    forall i, j :: 0 <= i < j < |rows| ==> rows[i].id != rows[j].id && rows[i].user != rows[j].user
  }

  ghost predicate Stored(rows: seq<Row>, user: int) {
    exists i :: 0 <= i < |rows| && rows[i].user == user
  }

  /** The table stands for a map from users to data. */
  ghost predicate Represents(rows: seq<Row>, contents: map<int, string>) {
    && OneEach(rows)
    && (forall i :: 0 <= i < |rows| ==> rows[i].user in contents && rows[i].data == contents[rows[i].user])
    && (forall user :: user in contents ==> Stored(rows, user))
  }

  lemma Updated(rows: seq<Row>, contents: map<int, string>, k: nat, data: string, now: int)
    requires Represents(rows, contents) && k < |rows|
    ensures Represents(rows[k := rows[k].(data := data, updated := now)], contents[rows[k].user := data])
  {
    var after := rows[k := rows[k].(data := data, updated := now)];
    assert forall i :: 0 <= i < |rows| ==> after[i].user == rows[i].user && after[i].id == rows[i].id;
    forall user | user in contents[rows[k].user := data] ensures Stored(after, user) {
      var i :| 0 <= i < |rows| && rows[i].user == user;
      assert after[i].user == user;
    }
  }

  lemma Inserted(rows: seq<Row>, contents: map<int, string>, row: Row)
    requires Represents(rows, contents) && row.user !in contents
    requires forall i :: 0 <= i < |rows| ==> rows[i].id != row.id
    ensures Represents(rows + [row], contents[row.user := row.data])
  {
    var after := rows + [row];
    assert after[|rows|] == row;
    forall user | user in contents[row.user := row.data] ensures Stored(after, user) {
      if user != row.user {
        var i :| 0 <= i < |rows| && rows[i].user == user;
        assert after[i].user == user;
      }
    }
  }

  lemma Removed(rows: seq<Row>, contents: map<int, string>, k: nat)
    requires Represents(rows, contents) && k < |rows|
    ensures Represents(rows[..k] + rows[k + 1..], contents - {rows[k].user})
  {
    var after, gone := rows[..k] + rows[k + 1..], rows[k].user;
    assert forall i :: 0 <= i < |after| ==> after[i] == rows[if i < k then i else i + 1];
    forall user | user in contents - {gone} ensures Stored(after, user) {
      var i :| 0 <= i < |rows| && rows[i].user == user;
      assert after[if i < k then i else i - 1].user == user;
    }
  }

  /** A series of saves and deletes, one at a time; a failed statement changes nothing. */
  class ConfigStore {
    var rows: seq<Row>
    ghost var contents: map<int, string>

    ghost predicate Valid()
      reads this
    {
      Represents(rows, contents)
    }

    constructor ()
      ensures Valid() && rows == [] && contents == map[]
    {
      rows, contents := [], map[];
    }

    /** The position of the user's row. */
    method Select(user: int) returns (k: nat, found: bool)
      requires Valid()
      ensures found <==> user in contents
      ensures found ==> k < |rows| && rows[k].user == user
    {
      k, found := 0, false;
      while k < |rows|
        invariant k <= |rows| && forall i :: 0 <= i < k ==> rows[i].user != user
      {
        if rows[k].user == user {
          return k, true;
        }
        k := k + 1;
      }
    }

    /** `id` is the generated one; `selects` and `writes` say whether the two statements work. */
    method Save(user: int, data: string, id: nat, now: int, selects: bool, writes: bool) returns (ok: bool)
      requires Valid() && forall i :: 0 <= i < |rows| ==> rows[i].id != id
      modifies this
      ensures Valid() && ok == (selects && writes)
      ensures contents == if ok then old(contents)[user := data] else old(contents)
      ensures !ok ==> rows == old(rows)
      ensures |rows| == |old(rows)| + if ok && user !in old(contents) then 1 else 0
      ensures ok && user !in old(contents) ==> rows[|old(rows)|] == Row(id, user, data, now, now)
      ensures forall i :: 0 <= i < |old(rows)| ==>
                rows[i] == if ok && old(rows)[i].user == user then old(rows)[i].(data := data, updated := now)
                           else old(rows)[i]
    {
      if !selects {
        return false;
      }
      var k, found := Select(user);
      if !writes {
        return false;
      }
      if found {
        Updated(rows, contents, k, data, now);
        rows := rows[k := rows[k].(data := data, updated := now)];
      } else {
        Inserted(rows, contents, Row(id, user, data, now, now));
        rows := rows + [Row(id, user, data, now, now)];
      }
      contents := contents[user := data];
      return true;
    }

    method Get(user: int, selects: bool) returns (r: Fetched)
      requires Valid()
      ensures r == if !selects then QueryFailed else if user in contents then Fetched(contents[user]) else Nothing
    {
      if !selects {
        return QueryFailed;
      }
      var k, found := Select(user);
      return if found then Fetched(rows[k].data) else Nothing;
    }

    method Delete(user: int, writes: bool) returns (ok: bool)
      requires Valid()
      modifies this
      ensures Valid() && ok == writes
      ensures contents == if ok then old(contents) - {user} else old(contents)
      ensures !ok ==> rows == old(rows)
      ensures forall r :: r in rows <==> r in old(rows) && (ok ==> r.user != user)
    {
      if !writes {
        return false;
      }
      var k, found := Select(user);
      if found {
        Removed(rows, contents, k);
        rows := rows[..k] + rows[k + 1..];
        contents := contents - {user};
      }
      return true;
    }
  }
}
