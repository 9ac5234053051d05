/** Child tables written by upserts and read back by owner: each row keeps the owner it was
    inserted with, and a conflicting insert merges into the row already there. */
module Tables {
  import opened Rows

  datatype Row<+R> = Row(owner: Id, data: R)

  type Table<R> = map<Id, Row<R>>

  /** `INSERT .. ON CONFLICT(key) DO UPDATE`: the owner column is never updated. */
  function Upsert<R>(table: Table<R>, owner: Id, key: Id, data: R, merge: (R, R) -> R): Table<R> {
    if key in table then table[key := Row(table[key].owner, merge(table[key].data, data))]
    else table[key := Row(owner, data)]
  }

  function UpsertAll<R>(table: Table<R>, owner: Id, rows: seq<R>, key: R -> Id, merge: (R, R) -> R): Table<R> {
    if rows == [] then table
    else
      var last := rows[|rows| - 1];
      Upsert(UpsertAll(table, owner, rows[..|rows| - 1], key, merge), owner, key(last), last, merge)
  }

  /** `SELECT .. WHERE owner = :owner`, before its ORDER BY. */
  function Select<R>(table: Table<R>, owner: Id): set<R> {
    set k | k in table && table[k].owner == owner :: table[k].data
  }

  /** The table holds exactly the rows of every owner's list, under their own keys. */
  ghost predicate Holds<R(!new)>(table: Table<R>, owned: map<Id, seq<R>>, key: R -> Id) {
    && (forall k :: k in table ==>
          table[k].owner in owned && table[k].data in owned[table[k].owner] && key(table[k].data) == k)
    && (forall o, r :: o in owned && r in owned[o] ==> key(r) in table && table[key(r)] == Row(o, r))
  }

  lemma SelectsOwnRows<R(!new)>(table: Table<R>, owned: map<Id, seq<R>>, key: R -> Id, owner: Id)
    requires Holds(table, owned, key)
    ensures Select(table, owner) == if owner in owned then Members(owned[owner]) else {}
  {
    if owner in owned {
      forall r | r in owned[owner] ensures r in Select(table, owner) {
        assert key(r) in table && table[key(r)] == Row(owner, r);
      }
    }
  }

  /** Rows that may be written for `owner`: no key of another owner, columns the upsert keeps agree. */
  ghost predicate Writable<R(!new)>(table: Table<R>, owner: Id, rows: seq<R>, key: R -> Id, merge: (R, R) -> R) {
    && DistinctBy(rows, key)
    && (forall r :: r in rows && key(r) in table ==>
          table[key(r)].owner == owner && merge(table[key(r)].data, r) == r)
  }

  /** After the upserts: every given row is there with its owner, every other row is as it was. */
  ghost predicate Upserted<R(!new)>(table: Table<R>, after: Table<R>, owner: Id, rows: seq<R>, key: R -> Id) {
    && (forall r :: r in rows ==> key(r) in after && after[key(r)] == Row(owner, r))
    && (forall k :: k in after ==> k in table || exists r :: r in rows && key(r) == k)
    && (forall k :: k in table ==> k in after)
    && (forall k :: k in table && (forall r :: r in rows ==> key(r) != k) ==> after[k] == table[k])
  }

  lemma LastKeyIsNew<R(!new)>(rows: seq<R>, key: R -> Id)
    requires rows != [] && DistinctBy(rows, key)
    ensures forall r :: r in rows[..|rows| - 1] ==> key(r) != key(rows[|rows| - 1])
  {
    var front := rows[..|rows| - 1];
    forall r | r in front ensures key(r) != key(rows[|rows| - 1]) {
      var i := IndexOf(front, r);
      assert key(rows[i]) != key(rows[|rows| - 1]);
    }
  }

  lemma UpsertLast<R(!new)>(table: Table<R>, middle: Table<R>, owner: Id, front: seq<R>, last: R, key: R -> Id, merge: (R, R) -> R)
    requires Upserted(table, middle, owner, front, key) && forall r :: r in front ==> key(r) != key(last)
    requires key(last) in table ==> table[key(last)].owner == owner && merge(table[key(last)].data, last) == last
    ensures Upserted(table, Upsert(middle, owner, key(last), last, merge), owner, front + [last], key)
  {
    var after, rows := Upsert(middle, owner, key(last), last, merge), front + [last];
    assert key(last) in middle ==> key(last) in table && middle[key(last)] == table[key(last)];
    assert after[key(last)] == Row(owner, last);
    forall k | k in after ensures k in table || exists r :: r in rows && key(r) == k {
      if k == key(last) {
        assert last in rows;
      } else if k !in table {
        var r :| r in front && key(r) == k;
        assert r in rows;
      }
    }
    forall k | k in table && forall r :: r in rows ==> key(r) != k ensures after[k] == table[k] {
      assert last in rows;
      assert forall r :: r in front ==> r in rows;
    }
  }

  lemma {:induction false} UpsertAllRows<R(!new)>(table: Table<R>, owner: Id, rows: seq<R>, key: R -> Id, merge: (R, R) -> R)
    requires Writable(table, owner, rows, key, merge)
    ensures Upserted(table, UpsertAll(table, owner, rows, key, merge), owner, rows, key)
  {
    if rows != [] {
      var front, last := rows[..|rows| - 1], rows[|rows| - 1];
      assert rows == front + [last];
      LastKeyIsNew(rows, key);
      UpsertAllRows(table, owner, front, key, merge);
      assert last in rows;
      hide Upserted, Upsert;
      UpsertLast(table, UpsertAll(table, owner, front, key, merge), owner, front, last, key, merge);
    }
  }

  /** Saving an owner's whole list, with every row it had before still in it, replaces its list
      and touches nobody else's. */
  lemma SaveReplaces<R(!new)>(table: Table<R>, owned: map<Id, seq<R>>, owner: Id, rows: seq<R>, key: R -> Id, merge: (R, R) -> R)
    requires Holds(table, owned, key) && Writable(table, owner, rows, key, merge)
    requires owner in owned ==> forall r :: r in owned[owner] ==> exists r' :: r' in rows && key(r') == key(r)
    ensures Holds(UpsertAll(table, owner, rows, key, merge), owned[owner := rows], key)
  {
    hide UpsertAll;
    UpsertAllRows(table, owner, rows, key, merge);
    OnlyKnownRows(table, UpsertAll(table, owner, rows, key, merge), owned, owner, rows, key);
    EveryRowThere(table, UpsertAll(table, owner, rows, key, merge), owned, owner, rows, key, merge);
  }

  lemma OnlyKnownRows<R(!new)>(table: Table<R>, after: Table<R>, owned: map<Id, seq<R>>, owner: Id, rows: seq<R>, key: R -> Id)
    requires Holds(table, owned, key) && Upserted(table, after, owner, rows, key)
    requires owner in owned ==> forall r :: r in owned[owner] ==> exists r' :: r' in rows && key(r') == key(r)
    ensures var lists := owned[owner := rows];
            forall k :: k in after ==> after[k].owner in lists && after[k].data in lists[after[k].owner] && key(after[k].data) == k
  {
    var lists := owned[owner := rows];
    forall k | k in after
      ensures after[k].owner in lists && after[k].data in lists[after[k].owner] && key(after[k].data) == k {
      if exists r :: r in rows && key(r) == k {
        var r :| r in rows && key(r) == k;
        assert after[k] == Row(owner, r);
      } else {
        assert after[k] == table[k];
        assert table[k].owner != owner;
      }
    }
  }

  lemma EveryRowThere<R(!new)>(table: Table<R>, after: Table<R>, owned: map<Id, seq<R>>, owner: Id, rows: seq<R>, key: R -> Id,
                               merge: (R, R) -> R)
    requires Holds(table, owned, key) && Writable(table, owner, rows, key, merge) && Upserted(table, after, owner, rows, key)
    ensures var lists := owned[owner := rows];
            forall o, r :: o in lists && r in lists[o] ==> key(r) in after && after[key(r)] == Row(o, r)
  {
    var lists := owned[owner := rows];
    forall o, r | o in lists && r in lists[o] ensures key(r) in after && after[key(r)] == Row(o, r) {
      if o != owner {
        assert table[key(r)] == Row(o, r);
        forall w | w in rows ensures key(w) != key(r) {
          assert key(w) in table ==> table[key(w)].owner == owner;
        }
      }
    }
  }

  /** Every row that was there is written again, with the columns an upsert keeps unchanged. */
  ghost predicate Covers<R(!new)>(before: seq<R>, rows: seq<R>, key: R -> Id, merge: (R, R) -> R) {
    forall x :: x in before ==> exists y :: y in rows && key(y) == key(x) && merge(x, y) == y
  }

  ghost predicate KeysApart<R(!new)>(a: seq<R>, b: seq<R>, key: R -> Id) {
    forall x, y :: x in a && y in b ==> key(x) != key(y)
  }

  /** The same, from what a caller knows: the lists alone. */
  lemma SaveList<R(!new)>(table: Table<R>, owned: map<Id, seq<R>>, owner: Id, rows: seq<R>, key: R -> Id, merge: (R, R) -> R)
    requires Holds(table, owned, key) && DistinctBy(rows, key)
    requires owner in owned ==> Covers(owned[owner], rows, key, merge)
    requires forall o :: o in owned && o != owner ==> KeysApart(owned[o], rows, key)
    ensures Holds(UpsertAll(table, owner, rows, key, merge), owned[owner := rows], key)
  {
    forall r | r in rows && key(r) in table ensures table[key(r)].owner == owner && merge(table[key(r)].data, r) == r {
      var row := table[key(r)];
      assert row.data in owned[row.owner] && key(row.data) == key(r);
      assert row.owner == owner;
      var y :| y in rows && key(y) == key(row.data) && merge(row.data, y) == y;
      SameKey(rows, r, y, key);
    }
    SaveReplaces(table, owned, owner, rows, key, merge);
  }
}
