/**
 * The IndexedDB database `QuickBillDB` as in-memory tables. `invoices` and
 * `clients` are object stores with an auto-increment key; `settings` holds
 * one record. Reads return copies, so records are values.
 */
module Store {
  import opened Wrappers
  import opened Records

  /** A stored record together with its key (the `id` property). */
  datatype Row<T> = Row(id: int, value: T)

  /** A record as found in a backup file: its `id` may be missing. */
  datatype Keyed<T> = Keyed(id: Option<int>, value: T)

  lemma HasElement(keys: set<int>)
    ensures keys == {} || exists x :: x in keys
  {
    if forall x :: x !in keys {
      assert keys == {};
    }
  }

  lemma {:induction false} MinExists(keys: set<int>)
    requires keys != {}
    ensures exists k :: k in keys && forall j :: j in keys ==> k <= j
    decreases |keys|
  {
    HasElement(keys);
    var x :| x in keys;
    var rest := keys - {x};
    if rest == {} {
      forall j | j in keys
        ensures x <= j
      {
        assert j == x || j in rest;
      }
    } else {
      MinExists(rest);
      var m :| m in rest && forall j :: j in rest ==> m <= j;
      if x < m {
        assert forall j :: j in keys ==> j == x || j in rest;
      } else {
        assert forall j :: j in keys ==> j == x || j in rest;
      }
    }
  }

  function MinKey(keys: set<int>): (k: int)
    requires keys != {}
    ensures k in keys && forall j :: j in keys ==> k <= j
  {
    MinExists(keys);
    var k :| k in keys && forall j :: j in keys ==> k <= j; k
  }

  /** What `getAll` returns: the records, smallest key first. */
  function Entries<T>(rows: map<int, T>): seq<Row<T>>
    decreases |rows.Keys|
  {
    if rows.Keys == {} then []
    else
      var k := MinKey(rows.Keys);
      var rest := rows - {k};
      RemoveShrinks(rows, k);
      [Row(k, rows[k])] + Entries(rest)
  }

  lemma RemoveShrinks<T>(rows: map<int, T>, k: int)
    requires k in rows
    ensures |(rows - {k}).Keys| < |rows.Keys|
  {
    assert (rows - {k}).Keys == rows.Keys - {k};
  }

  /** `getAll` lists every record once, with its key, in ascending key order. */
  lemma {:induction false} EntriesSpec<T>(rows: map<int, T>)
    ensures var r := Entries(rows);
      && |r| == |rows|
      && (forall i :: 0 <= i < |r| ==> r[i].id in rows && rows[r[i].id] == r[i].value)
      && (forall i, j :: 0 <= i < j < |r| ==> r[i].id < r[j].id)
      && (forall k :: k in rows ==> Row(k, rows[k]) in r)
    decreases |rows.Keys|
  {
    if rows.Keys != {} {
      var k := MinKey(rows.Keys);
      var rest := rows - {k};
      RemoveShrinks(rows, k);
      EntriesSpec(rest);
      EntriesStep(rows, k, rest, Entries(rest));
    } else {
      assert rows == map[];
    }
  }

  lemma EntriesStep<T>(rows: map<int, T>, k: int, rest: map<int, T>, tail: seq<Row<T>>)
    requires k in rows && forall j :: j in rows ==> k <= j
    requires rest == rows - {k}
    requires |tail| == |rest|
    requires forall i :: 0 <= i < |tail| ==> tail[i].id in rest && rest[tail[i].id] == tail[i].value
    requires forall i, j :: 0 <= i < j < |tail| ==> tail[i].id < tail[j].id
    requires forall j :: j in rest ==> Row(j, rest[j]) in tail
    ensures |rest.Keys| < |rows.Keys|
    ensures var r := [Row(k, rows[k])] + tail;
      && |r| == |rows|
      && (forall i :: 0 <= i < |r| ==> r[i].id in rows && rows[r[i].id] == r[i].value)
      && (forall i, j :: 0 <= i < j < |r| ==> r[i].id < r[j].id)
      && (forall j :: j in rows ==> Row(j, rows[j]) in r)
  {
    assert rest.Keys == rows.Keys - {k};
    assert |rows| == |rows.Keys| && |rest| == |rest.Keys|;
    var r := [Row(k, rows[k])] + tail;
    forall i | 0 <= i < |r|
      ensures r[i].id in rows && rows[r[i].id] == r[i].value
    {
      if i > 0 {
        assert r[i] == tail[i - 1];
      }
    }
    forall i, j | 0 <= i < j < |r|
      ensures r[i].id < r[j].id
    {
      assert r[j] == tail[j - 1];
      if i > 0 {
        assert r[i] == tail[i - 1];
      } else {
        assert r[j].id in rest;
      }
    }
    forall j | j in rows
      ensures Row(j, rows[j]) in r
    {
      if j != k {
        assert j in rest;
        assert Row(j, rest[j]) in tail;
      }
    }
  }

  /**
   * The table after inserting `values` one by one without keys: the key
   * generator hands out `nextKey`, `nextKey + 1`, ... Records already
   * present are untouched and the table grows by exactly `|values|`.
   */
  ghost function Inserted<T>(rows: map<int, T>, nextKey: int, values: seq<T>): map<int, T>
    decreases |values|
  {
    if values == [] then rows else Inserted(rows[nextKey := values[0]], nextKey + 1, values[1..])
  }

  /**
   * The keys after the insertion are the old ones and the next `|values|`
   * generated ones; old records keep their value and the i-th new key holds
   * the i-th record.
   */
  lemma {:induction false} InsertedSpec<T>(rows: map<int, T>, nextKey: int, values: seq<T>)
    requires forall k :: k in rows ==> k < nextKey
    ensures var r := Inserted(rows, nextKey, values);
      && (forall k :: k in r <==> k in rows || nextKey <= k < nextKey + |values|)
      && (forall k :: k in rows ==> r[k] == rows[k])
      && (forall i :: 0 <= i < |values| ==> r[nextKey + i] == values[i])
    decreases |values|
  {
    if values != [] {
      var next := rows[nextKey := values[0]];
      InsertedSpec(next, nextKey + 1, values[1..]);
      var r := Inserted(rows, nextKey, values);
      assert r == Inserted(next, nextKey + 1, values[1..]);
      forall i | 0 <= i < |values|
        ensures r[nextKey + i] == values[i]
      {
        if i > 0 {
          assert values[i] == values[1..][i - 1];
        }
      }
    }
  }

  /** The table grows by exactly `|values|` records. */
  lemma {:induction false} InsertedSize<T>(rows: map<int, T>, nextKey: int, values: seq<T>)
    requires forall k :: k in rows ==> k < nextKey
    ensures |Inserted(rows, nextKey, values)| == |rows| + |values|
    decreases |values|
  {
    if values != [] {
      var next := rows[nextKey := values[0]];
      assert nextKey !in rows;
      assert |next| == |rows| + 1;
      InsertedSize(next, nextKey + 1, values[1..]);
    }
  }

  /** The records of a backup list, without their keys (`delete inv.id`). */
  function Values<T>(s: seq<Keyed<T>>): (r: seq<T>)
    ensures |r| == |s| && forall i :: 0 <= i < |s| ==> r[i] == s[i].value
  {
    seq(|s|, i requires 0 <= i < |s| => s[i].value)
  }

  /** `getAll`'s rows as a backup lists them: each record with its `id`. */
  function WithKeys<T>(rows: seq<Row<T>>): (r: seq<Keyed<T>>)
    ensures |r| == |rows| && forall i :: 0 <= i < |rows| ==> r[i] == Keyed(Some(rows[i].id), rows[i].value)
  {
    seq(|rows|, i requires 0 <= i < |rows| => Keyed(Some(rows[i].id), rows[i].value))
  }

  /**
   * Records stored one by one into an empty store come back from `getAll`
   * in the order they were stored, under the keys 1, 2, 3, ...
   */
  lemma EntriesOfInsertedIntoEmpty<T>(values: seq<T>)
    ensures var e := Entries(Inserted(map[], 1, values));
      |e| == |values| && forall i :: 0 <= i < |e| ==> e[i] == Row(i + 1, values[i])
  {
    var m := Inserted(map[], 1, values);
    InsertedSpec(map[], 1, values);
    InsertedSize(map[], 1, values);
    EntriesSpec(m);
    AscendingOverRange(m, Entries(m), values);
  }

  lemma AscendingOverRange<T>(m: map<int, T>, e: seq<Row<T>>, values: seq<T>)
    requires forall k :: k in m <==> 1 <= k < 1 + |values|
    requires forall i :: 0 <= i < |values| ==> m[1 + i] == values[i]
    requires |e| == |values|
    requires forall i :: 0 <= i < |e| ==> e[i].id in m && m[e[i].id] == e[i].value
    requires forall i, j :: 0 <= i < j < |e| ==> e[i].id < e[j].id
    ensures forall i :: 0 <= i < |e| ==> e[i] == Row(i + 1, values[i])
  {
    forall i | 0 <= i < |e|
      ensures e[i] == Row(i + 1, values[i])
    {
      IdAtLeast(e, 1, i);
      IdAtMost(e, 1, i);
    }
  }

  /** In a strictly ascending run of keys from `lo` on, the key at `i` is at least `lo + i`. */
  lemma {:induction false} IdAtLeast<T>(e: seq<Row<T>>, lo: int, i: nat)
    requires i < |e|
    requires forall j :: 0 <= j < |e| ==> lo <= e[j].id
    requires forall j, k :: 0 <= j < k < |e| ==> e[j].id < e[k].id
    ensures e[i].id >= lo + i
  {
    if i > 0 {
      IdAtLeast(e, lo, i - 1);
    }
  }

  /** In a strictly ascending run of keys below `lo + |e|`, the key at `i` is at most `lo + i`. */
  lemma {:induction false} IdAtMost<T>(e: seq<Row<T>>, lo: int, i: nat)
    requires i < |e|
    requires forall j :: 0 <= j < |e| ==> e[j].id < lo + |e|
    requires forall j, k :: 0 <= j < k < |e| ==> e[j].id < e[k].id
    ensures e[i].id <= lo + i
    decreases |e| - i
  {
    if i < |e| - 1 {
      IdAtMost(e, lo, i + 1);
    }
  }

  /** Storing one more record extends the insertion by its next key. */
  lemma InsertedSnoc<T>(rows: map<int, T>, nextKey: int, values: seq<T>, v: T)
    requires forall k :: k in rows ==> k < nextKey
    ensures Inserted(rows, nextKey, values + [v]) == Inserted(rows, nextKey, values)[nextKey + |values| := v]
  {
    var a := Inserted(rows, nextKey, values + [v]);
    var b := Inserted(rows, nextKey, values)[nextKey + |values| := v];
    InsertedSpec(rows, nextKey, values + [v]);
    InsertedSpec(rows, nextKey, values);
    assert forall k :: k in a <==> k in b;
    assert a.Keys == b.Keys;
    forall k | k in a
      ensures a[k] == b[k]
    {
      if k !in rows {
        assert (values + [v])[k - nextKey] == if k - nextKey < |values| then values[k - nextKey] else v;
      }
    }
  }

  /** An IndexedDB object store with `autoIncrement`. */
  class Table<T> {
    var rows: map<int, T>
    /** The key generator's current number. */
    var nextKey: int

    ghost predicate Valid()
      reads this
    {
      1 <= nextKey && forall k :: k in rows ==> k < nextKey
    }

    constructor ()
      ensures Valid() && rows == map[] && nextKey == 1
    {
      rows := map[];
      nextKey := 1;
    }

    /**
     * `put`: with a key, overwrite (or create) that record and lift the key
     * generator past the key; without one, store under a fresh key.
     */
    method Put(key: Option<int>, value: T) returns (id: int)
      requires Valid()
      modifies this
      ensures Valid()
      ensures rows == old(rows)[id := value]
      ensures key.Some? ==> id == key.value && nextKey == (if id >= old(nextKey) then id + 1 else old(nextKey))
      ensures key.None? ==> id == old(nextKey) && id !in old(rows) && nextKey == old(nextKey) + 1
    {
      if key.Some? {
        id := key.value;
        if id >= nextKey {
          nextKey := id + 1;
        }
      } else {
        id := nextKey;
        nextKey := nextKey + 1;
      }
      rows := rows[id := value];
    }

    /** `put` without keys, one record after another (the `for ... of` loop of an import). */
    method PutAll(values: seq<T>) returns (count: nat)
      requires Valid()
      modifies this
      ensures Valid()
      ensures count == |values|
      ensures rows == Inserted(old(rows), old(nextKey), values)
      ensures nextKey == old(nextKey) + |values|
    {
      count := 0;
      while count < |values|
        invariant count <= |values|
        invariant Valid()
        invariant nextKey == old(nextKey) + count
        invariant rows == Inserted(old(rows), old(nextKey), values[..count])
      {
        var id := Put(None, values[count]);
        InsertedSnoc(old(rows), old(nextKey), values[..count], values[count]);
        assert values[..count + 1] == values[..count] + [values[count]];
        count := count + 1;
      }
      assert values[..count] == values;
    }

    /** `get` */
    method Get(key: int) returns (r: Option<T>)
      ensures key in rows ==> r == Some(rows[key])
      ensures key !in rows ==> r == None
    {
      r := if key in rows then Some(rows[key]) else None;
    }

    /** `getAll` */
    method GetAll() returns (all: seq<Row<T>>)
      ensures all == Entries(rows)
    {
      all := Entries(rows);
    }

    /** `delete`; deleting a missing key is not an error. */
    method Delete(key: int)
      requires Valid()
      modifies this
      ensures Valid()
      ensures rows == old(rows) - {key} && nextKey == old(nextKey)
    {
      rows := rows - {key};
    }
  }

  /** The three object stores. */
  class Database {
    const invoices: Table<Document>
    const clients: Table<Client>
    /** The `settings` store's record under the key 'appSettings', if any. */
    var settings: Option<Settings>

    ghost predicate Valid()
      reads this, invoices, clients
    {
      invoices.Valid() && clients.Valid()
    }

    /** A database opened for the first time: empty stores. */
    constructor ()
      ensures Valid() && fresh(invoices) && fresh(clients)
      ensures invoices.rows == map[] && clients.rows == map[] && settings == None
    {
      invoices := new Table<Document>();
      clients := new Table<Client>();
      settings := None;
    }
  }
}
