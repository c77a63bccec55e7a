/**
 * The saved-clients list as `saveClient` maintains it: a client saved from
 * the editor is matched by name, ignoring case, against the stored
 * clients; a match is updated in place, otherwise a new record is added.
 */
module Contacts {
  import opened Wrappers
  import opened Text
  import opened Records
  import opened Store

  /** `a.toLowerCase() === b.toLowerCase()` */
  predicate SameName(a: string, b: string)
  {
    Lower(a) == Lower(b)
  }

  /** `all.find(c => c.name.toLowerCase() === name.toLowerCase())`, as an index. */
  function FindByName(all: seq<Row<Client>>, name: string): (r: Option<nat>)
    ensures r.Some? ==> r.value < |all| && SameName(all[r.value].value.name, name)
    ensures r.Some? ==> forall i :: 0 <= i < r.value ==> !SameName(all[i].value.name, name)
    ensures r.None? <==> forall i :: 0 <= i < |all| ==> !SameName(all[i].value.name, name)
  {
    if all == [] then None
    else if SameName(all[0].value.name, name) then Some(0)
    else
      var rest := FindByName(all[1..], name);
      assert forall i :: 1 <= i < |all| ==> all[i] == all[1..][i - 1];
      if rest.Some? then Some(rest.value + 1) else None
  }

  /** The keys of the stored clients whose name matches `name`. */
  ghost function Matches(rows: map<int, Client>, name: string): set<int>
  {
    set k | k in rows && SameName(rows[k].name, name)
  }

  /** No two stored clients share a name, ignoring case. */
  ghost predicate UniqueNames(rows: map<int, Client>)
  {
    forall j, k :: j in rows && k in rows && SameName(rows[j].name, rows[k].name) ==> j == k
  }

  /**
   * `saveClient` on a table with records `rows` and key generator `nextKey`:
   * the matching client with the smallest key (the first one `getAll`
   * returns) absorbs the payload; with no match the payload is stored under
   * a fresh key. The result is the new records and the new generator value.
   */
  ghost function Upsert(rows: map<int, Client>, nextKey: int, p: Client): (map<int, Client>, int)
  {
    var m := Matches(rows, p.name);
    if m != {} then
      var k := MinKey(m);
      (rows[k := MergeClient(rows[k], p)], nextKey)
    else
      (rows[nextKey := p], nextKey + 1)
  }

  /**
   * What saving a client does to the table: the key generator stays ahead
   * of every key; a match leaves the keys as they were, no match adds
   * exactly one fresh key; afterwards a client carries the payload's name;
   * clients whose name does not match are untouched.
   */
  lemma UpsertShape(rows: map<int, Client>, nextKey: int, p: Client)
    requires forall k :: k in rows ==> k < nextKey
    ensures var r := Upsert(rows, nextKey, p);
      && (forall k :: k in r.0 ==> k < r.1)
      && (Matches(rows, p.name) != {} ==> r.0.Keys == rows.Keys && r.1 == nextKey)
      && (Matches(rows, p.name) == {} ==> r.0.Keys == rows.Keys + {nextKey} && nextKey !in rows && r.1 == nextKey + 1)
      && (exists k :: k in r.0 && r.0[k].name == p.name)
      && (forall k :: k in rows && !SameName(rows[k].name, p.name) ==> k in r.0 && r.0[k] == rows[k])
  {
    var r := Upsert(rows, nextKey, p);
    var m := Matches(rows, p.name);
    if m != {} {
      var k := MinKey(m);
      assert k in r.0 && r.0[k].name == p.name;
    } else {
      assert nextKey in r.0 && r.0[nextKey].name == p.name;
    }
  }

  /** The first match `find` meets in `getAll` order is the matching client with the smallest key. */
  lemma FindFirstIsLeastMatch(rows: map<int, Client>, name: string)
    ensures var r := FindByName(Entries(rows), name);
      && (r.None? <==> Matches(rows, name) == {})
      && (r.Some? ==> Entries(rows)[r.value].id == MinKey(Matches(rows, name)))
  {
    EntriesSpec(rows);
    FirstInKeyOrder(rows, Entries(rows), name);
  }

  /** The same, for any listing of `rows` in ascending key order. */
  lemma FirstInKeyOrder(rows: map<int, Client>, all: seq<Row<Client>>, name: string)
    requires forall i :: 0 <= i < |all| ==> all[i].id in rows && rows[all[i].id] == all[i].value
    requires forall i, j :: 0 <= i < j < |all| ==> all[i].id < all[j].id
    requires forall k :: k in rows ==> Row(k, rows[k]) in all
    ensures var r := FindByName(all, name);
      && (r.None? <==> Matches(rows, name) == {})
      && (r.Some? ==> all[r.value].id == MinKey(Matches(rows, name)))
  {
    var r := FindByName(all, name);
    var m := Matches(rows, name);
    if r.Some? {
      var k := all[r.value].id;
      assert k in m;
      forall j | j in m
        ensures k <= j
      {
        assert Row(j, rows[j]) in all;
        var n :| 0 <= n < |all| && all[n] == Row(j, rows[j]);
        assert SameName(all[n].value.name, name);
      }
      assert MinKey(m) == k;
    } else {
      forall j | j in rows
        ensures j !in m
      {
        assert Row(j, rows[j]) in all;
        var n :| 0 <= n < |all| && all[n] == Row(j, rows[j]);
        assert !SameName(all[n].value.name, name);
      }
      assert m == {};
    }
  }

  /**
   * `saveClient` in the terms of its code: the first match in `getAll`
   * order is merged and put back under its own key; with none, the payload
   * is put under the next generated key.
   */
  lemma UpsertByFirstMatch(rows: map<int, Client>, nextKey: int, p: Client)
    requires forall k :: k in rows ==> k < nextKey
    ensures var all := Entries(rows);
      var found := FindByName(all, p.name);
      && (found.Some? ==> Upsert(rows, nextKey, p) == (rows[all[found.value].id := MergeClient(all[found.value].value, p)], nextKey))
      && (found.None? ==> Upsert(rows, nextKey, p) == (rows[nextKey := p], nextKey + 1))
  {
    EntriesSpec(rows);
    FindFirstIsLeastMatch(rows, p.name);
  }

  /** Saving a client never creates a second client with the same name. */
  lemma UpsertKeepsNamesUnique(rows: map<int, Client>, nextKey: int, p: Client)
    requires forall k :: k in rows ==> k < nextKey
    requires UniqueNames(rows)
    ensures UniqueNames(Upsert(rows, nextKey, p).0)
  {
    UpsertShape(rows, nextKey, p);
    var r := Upsert(rows, nextKey, p).0;
    var m := Matches(rows, p.name);
    var k := if m != {} then MinKey(m) else nextKey;
    assert forall i :: i in r && i != k ==> i in rows && r[i] == rows[i];
    assert k in r && r[k].name == p.name;
  }

  /** Merging the same payload twice changes nothing the second time. */
  lemma MergeIdempotent(existing: Client, p: Client)
    ensures MergeClient(MergeClient(existing, p), p) == MergeClient(existing, p)
  {
  }

  /** Saving the same client twice leaves the table as saving it once does. */
  lemma UpsertIdempotent(rows: map<int, Client>, nextKey: int, p: Client)
    requires forall k :: k in rows ==> k < nextKey
    ensures var once := Upsert(rows, nextKey, p);
      Upsert(once.0, once.1, p) == once
  {
    UpsertShape(rows, nextKey, p);
    var once := Upsert(rows, nextKey, p);
    var m := Matches(rows, p.name);
    var m1 := Matches(once.0, p.name);
    if m != {} {
      var k := MinKey(m);
      assert k in m1;
      forall j | j in m1
        ensures k <= j
      {
        if j != k {
          assert once.0[j] == rows[j];
          assert j in m;
        }
      }
      assert MinKey(m1) == k;
      MergeIdempotent(rows[k], p);
      assert once.0[k := MergeClient(once.0[k], p)] == once.0;
    } else {
      assert nextKey in m1;
      forall j | j in once.0 && j != nextKey
        ensures j !in m1
      {
        assert once.0[j] == rows[j] && j !in m;
      }
      assert m1 == {nextKey};
      assert MinKey(m1) == nextKey;
      assert MergeClient(p, p) == p;
      assert once.0[nextKey := p] == once.0;
    }
  }
}
