/**
 * The dashboard: all stored documents sorted by save time (newest first),
 * narrowed by one filter button and a case-insensitive search, and the
 * four figures shown above the list.
 */
module Listing {
  import opened Wrappers
  import opened Text
  import opened Kinds
  import opened Totals
  import opened Records
  import opened Store

  /** The dashboard's filter buttons; any other value filters nothing. */
  datatype Filter = All | Invoices | Estimates | PaidOnly | DraftOnly | SentOnly

  /** `new Date(d.savedAt || 0)`: a record never saved sorts as time 0. */
  function SavedKey(d: Document): int
  {
    if d.savedAt.Some? then d.savedAt.value else 0
  }

  /** The status buttons look at `status` only, so they match estimates too. */
  predicate MatchesFilter(f: Filter, d: Document)
  {
    match f
    case All => true
    case Invoices => d.kind != Estimate
    case Estimates => d.kind == Estimate
    case PaidOnly => d.status == Paid
    case DraftOnly => d.status == Draft
    case SentOnly => d.status == Sent
  }

  /** `q` (already lower-case) occurs in the lower-cased number, client name or client email. */
  predicate MatchesSearch(q: string, d: Document)
  {
    Contains(Lower(d.invoiceNumber), q) || Contains(Lower(d.clientName), q) || Contains(Lower(d.clientEmail), q)
  }

  /** The predicates the dashboard filters with. */
  datatype Criterion = ByFilter(f: Filter) | BySearch(q: string) | Unpaid | Both(a: Criterion, b: Criterion)

  predicate Holds(c: Criterion, d: Document)
  {
    match c
    case ByFilter(f) => MatchesFilter(f, d)
    case BySearch(q) => MatchesSearch(q, d)
    case Unpaid => d.status != Paid
    case Both(a, b) => Holds(a, d) && Holds(b, d)
  }

  predicate SortedDesc(s: seq<Row<Document>>)
  {
    forall i, j :: 0 <= i < j < |s| ==> SavedKey(s[i].value) >= SavedKey(s[j].value)
  }

  /** `filter`: keeps, in order, the rows that satisfy `c`. */
  function Select(s: seq<Row<Document>>, c: Criterion): seq<Row<Document>>
  {
    if s == [] then []
    else (if Holds(c, s[0].value) then [s[0]] else []) + Select(s[1..], c)
  }

  /** A filter keeps every row that satisfies `c` as often as it occurs, and no other row. */
  lemma {:induction false} SelectCount(s: seq<Row<Document>>, c: Criterion)
    ensures forall e :: multiset(Select(s, c))[e] == if Holds(c, e.value) then multiset(s)[e] else 0
  {
    if s != [] {
      SelectCount(s[1..], c);
      assert s == [s[0]] + s[1..];
    }
  }

  /** A filter keeps exactly the rows that satisfy its criterion. */
  lemma SelectMembers(s: seq<Row<Document>>, c: Criterion)
    ensures forall e :: e in Select(s, c) <==> e in s && Holds(c, e.value)
  {
    var r := Select(s, c);
    SelectCount(s, c);
    forall e
      ensures e in r <==> e in s && Holds(c, e.value)
    {
      assert e in r <==> multiset(r)[e] > 0;
      assert e in s <==> multiset(s)[e] > 0;
    }
  }

  /** Filtering a newest-first list leaves it newest first. */
  lemma {:induction false} SelectSorted(s: seq<Row<Document>>, c: Criterion)
    requires SortedDesc(s)
    ensures SortedDesc(Select(s, c))
  {
    if s != [] {
      var rest := s[1..];
      assert SortedDesc(rest) by {
        forall i, j | 0 <= i < j < |rest|
          ensures SavedKey(rest[i].value) >= SavedKey(rest[j].value)
        {
          assert rest[i] == s[i + 1] && rest[j] == s[j + 1];
        }
      }
      forall i | 0 <= i < |rest|
        ensures SavedKey(rest[i].value) <= SavedKey(s[0].value)
      {
        assert rest[i] == s[i + 1];
      }
      SelectSorted(rest, c);
      SelectBounded(rest, c, SavedKey(s[0].value));
      var tail := Select(rest, c);
      if Holds(c, s[0].value) {
        var r := [s[0]] + tail;
        forall i, j | 0 <= i < j < |r|
          ensures SavedKey(r[i].value) >= SavedKey(r[j].value)
        {
          assert r[j] == tail[j - 1];
          if i > 0 {
            assert r[i] == tail[i - 1];
          }
        }
      }
    }
  }

  /** A filter keeps rows from its input, so it keeps an upper bound on their keys. */
  lemma {:induction false} SelectBounded(s: seq<Row<Document>>, c: Criterion, bound: int)
    requires forall i :: 0 <= i < |s| ==> SavedKey(s[i].value) <= bound
    ensures forall i :: 0 <= i < |Select(s, c)| ==> SavedKey(Select(s, c)[i].value) <= bound
  {
    if s != [] {
      forall i | 0 <= i < |s| - 1
        ensures SavedKey(s[1..][i].value) <= bound
      {
        assert s[1..][i] == s[i + 1];
      }
      SelectBounded(s[1..], c, bound);
      var tail := Select(s[1..], c);
      var r := Select(s, c);
      if Holds(c, s[0].value) {
        assert r == [s[0]] + tail;
        forall i | 0 <= i < |r|
          ensures SavedKey(r[i].value) <= bound
        {
          if i > 0 {
            assert r[i] == tail[i - 1];
          }
        }
      } else {
        assert r == tail;
      }
    }
  }

  /** Inserts `x` before the first row saved no later than it. */
  function Insert(x: Row<Document>, s: seq<Row<Document>>): (r: seq<Row<Document>>)
    requires SortedDesc(s)
    ensures SortedDesc(r)
    ensures multiset(r) == multiset(s) + multiset{x}
  {
    if s == [] then [x]
    else if SavedKey(s[0].value) <= SavedKey(x.value) then
      ConsSorted(x, s);
      [x] + s
    else
      var tail := Insert(x, s[1..]);
      InsertBehind(x, s, tail);
      [s[0]] + tail
  }

  /** What goes behind the head of a sorted list, with `x` added, stays behind it. */
  lemma InsertBehind(x: Row<Document>, s: seq<Row<Document>>, tail: seq<Row<Document>>)
    requires s != [] && SortedDesc(s) && SavedKey(s[0].value) > SavedKey(x.value)
    requires SortedDesc(tail) && multiset(tail) == multiset(s[1..]) + multiset{x}
    ensures SortedDesc([s[0]] + tail)
    ensures multiset([s[0]] + tail) == multiset(s) + multiset{x}
  {
    assert s == [s[0]] + s[1..];
    forall e | e in tail
      ensures SavedKey(s[0].value) >= SavedKey(e.value)
    {
      assert multiset(tail)[e] > 0;
      if e != x {
        assert e in multiset(s[1..]);
      }
    }
    ConsSorted(s[0], tail);
  }

  /** A row saved no earlier than every row of a sorted list can go in front of it. */
  lemma ConsSorted(y: Row<Document>, s: seq<Row<Document>>)
    requires SortedDesc(s)
    requires forall e | e in s :: SavedKey(y.value) >= SavedKey(e.value)
    ensures SortedDesc([y] + s)
  {
    var r := [y] + s;
    forall i, j | 0 <= i < j < |r|
      ensures SavedKey(r[i].value) >= SavedKey(r[j].value)
    {
      assert r[j] == s[j - 1];
      if i > 0 {
        assert r[i] == s[i - 1];
      }
    }
  }

  /** The comparator sort `(b.savedAt || 0) - (a.savedAt || 0)`: newest first. */
  function SortDesc(s: seq<Row<Document>>): (r: seq<Row<Document>>)
    ensures SortedDesc(r)
    ensures multiset(r) == multiset(s)
  {
    if s == [] then []
    else
      assert s == [s[0]] + s[1..];
      Insert(s[0], SortDesc(s[1..]))
  }

  /** The filter button, then (when the lower-cased query is non-empty) the search. */
  function Narrow(sorted: seq<Row<Document>>, f: Filter, search: string): seq<Row<Document>>
  {
    var filtered := Select(sorted, ByFilter(f));
    var q := Lower(search);
    if q != "" then Select(filtered, BySearch(q)) else filtered
  }

  /**
   * The list `refreshDashboard` shows: newest first, and exactly the stored
   * rows that pass the filter and the search, each as often as it is stored.
   */
  function Listing(all: seq<Row<Document>>, f: Filter, search: string): (r: seq<Row<Document>>)
    ensures SortedDesc(r)
    ensures forall e :: multiset(r)[e] == (if Shown(f, search, e.value) then multiset(all)[e] else 0)
    ensures forall e :: e in r <==> e in all && Shown(f, search, e.value)
  {
    var sorted := SortDesc(all);
    NarrowKeeps(sorted, f, search);
    Narrow(sorted, f, search)
  }

  lemma NarrowKeeps(sorted: seq<Row<Document>>, f: Filter, search: string)
    requires SortedDesc(sorted)
    ensures var r := Narrow(sorted, f, search);
      && SortedDesc(r)
      && (forall e :: multiset(r)[e] == (if Shown(f, search, e.value) then multiset(sorted)[e] else 0))
      && (forall e :: e in r <==> e in sorted && Shown(f, search, e.value))
  {
    var filtered := Select(sorted, ByFilter(f));
    SelectSorted(sorted, ByFilter(f));
    SelectCount(sorted, ByFilter(f));
    var r := Narrow(sorted, f, search);
    if Lower(search) != "" {
      SelectSorted(filtered, BySearch(Lower(search)));
      SelectCount(filtered, BySearch(Lower(search)));
    }
    forall e
      ensures e in r <==> e in sorted && Shown(f, search, e.value)
    {
      assert e in r <==> multiset(r)[e] > 0;
      assert e in sorted <==> multiset(sorted)[e] > 0;
    }
  }

  /** A stored document passes the filter button and the search box. */
  predicate Shown(f: Filter, search: string, d: Document)
  {
    MatchesFilter(f, d) && (Lower(search) == "" || MatchesSearch(Lower(search), d))
  }

  /** The figures above the list: all documents, paid and pending invoices, paid revenue. */
  datatype DashStats = DashStats(total: nat, paid: nat, pending: nat, revenue: real)

  /** `reduce((s, d) => s + (d.total || 0), 0)` */
  function Revenue(s: seq<Row<Document>>): real
  {
    if s == [] then 0.0 else OrZero(s[0].value.total) + Revenue(s[1..])
  }

  /**
   * The dashboard figures: `paid` and `pending` split the invoices (not
   * estimates) between them, and with the estimates they make up `total`.
   */
  function Stats(all: seq<Row<Document>>): (st: DashStats)
    ensures st.total == |all|
    ensures st.paid + st.pending == |Select(all, ByFilter(Invoices))|
    ensures st.paid + st.pending + |Select(all, ByFilter(Estimates))| == st.total
    ensures var paid := Select(all, Both(ByFilter(Invoices), ByFilter(PaidOnly)));
      st.paid == |paid| && st.revenue == Revenue(paid)
    ensures st.pending == |Select(all, Both(ByFilter(Invoices), Unpaid))|
  {
    var invoices := Select(all, ByFilter(Invoices));
    var paid := Select(invoices, ByFilter(PaidOnly));
    var pending := Select(invoices, Unpaid);
    SelectSplits(invoices, ByFilter(PaidOnly), Unpaid);
    SelectSplits(all, ByFilter(Invoices), ByFilter(Estimates));
    SelectSelect(all, ByFilter(Invoices), ByFilter(PaidOnly));
    SelectSelect(all, ByFilter(Invoices), Unpaid);
    DashStats(|all|, |paid|, |pending|, Revenue(paid))
  }

  /** Filtering by `a` and then by `b` is filtering by both at once. */
  lemma {:induction false} SelectSelect(s: seq<Row<Document>>, a: Criterion, b: Criterion)
    ensures Select(Select(s, a), b) == Select(s, Both(a, b))
  {
    if s != [] {
      SelectSelect(s[1..], a, b);
      var head := if Holds(a, s[0].value) then [s[0]] else [];
      assert Select(s, a) == head + Select(s[1..], a);
      SelectConcat(head, Select(s[1..], a), b);
    }
  }

  /** Filtering distributes over concatenation. */
  lemma {:induction false} SelectConcat(s: seq<Row<Document>>, t: seq<Row<Document>>, c: Criterion)
    ensures Select(s + t, c) == Select(s, c) + Select(t, c)
  {
    if s != [] {
      assert (s + t)[1..] == s[1..] + t;
      SelectConcat(s[1..], t, c);
    } else {
      assert s + t == t;
    }
  }

  /** Two complementary filters split a list between them. */
  lemma {:induction false} SelectSplits(s: seq<Row<Document>>, c1: Criterion, c2: Criterion)
    requires forall d :: Holds(c1, d) != Holds(c2, d)
    ensures |Select(s, c1)| + |Select(s, c2)| == |s|
  {
    if s != [] {
      SelectSplits(s[1..], c1, c2);
      assert Holds(c1, s[0].value) != Holds(c2, s[0].value);
    }
  }

  lemma {:induction false} RevenueConcat(a: seq<Row<Document>>, b: seq<Row<Document>>)
    ensures Revenue(a + b) == Revenue(a) + Revenue(b)
  {
    if a == [] {
      assert a + b == b;
    } else {
      assert (a + b)[1..] == a[1..] + b;
      RevenueConcat(a[1..], b);
    }
  }

  /** Taking out the row at `j` takes one copy of it out of the multiset. */
  lemma RemoveAt(t: seq<Row<Document>>, j: nat)
    requires j < |t|
    ensures multiset(t[..j] + t[j + 1..]) == multiset(t) - multiset{t[j]}
  {
    assert t == t[..j] + [t[j]] + t[j + 1..];
  }

  /** Revenue does not depend on the order of the rows. */
  lemma {:induction false} RevenuePermutation(s: seq<Row<Document>>, t: seq<Row<Document>>)
    requires multiset(s) == multiset(t)
    ensures Revenue(s) == Revenue(t)
    decreases |s|
  {
    if s == [] {
      assert |t| == |multiset(t)| == 0;
    } else {
      var x := s[0];
      assert x in multiset(t);
      var j :| 0 <= j < |t| && t[j] == x;
      var rest := t[..j] + t[j + 1..];
      RemoveAt(t, j);
      assert s == [x] + s[1..];
      assert multiset(rest) == multiset(s[1..]);
      RevenuePermutation(s[1..], rest);
      RevenueRemove(t, j);
    }
  }

  /** The revenue of rows is that of the row at `j` plus that of the others. */
  lemma {:induction false} RevenueRemove(t: seq<Row<Document>>, j: nat)
    requires j < |t|
    ensures Revenue(t) == OrZero(t[j].value.total) + Revenue(t[..j] + t[j + 1..])
  {
    if j == 0 {
      assert t[..0] + t[1..] == t[1..];
    } else {
      RevenueRemove(t[1..], j - 1);
      var rest := t[1..][..j - 1] + t[1..][j..];
      assert t[..j] + t[j + 1..] == [t[0]] + rest;
      assert ([t[0]] + rest)[1..] == rest;
    }
  }

  /** Rows with the same multiset pass the same rows through a filter. */
  lemma SelectPermutation(s: seq<Row<Document>>, t: seq<Row<Document>>, c: Criterion)
    requires multiset(s) == multiset(t)
    ensures multiset(Select(s, c)) == multiset(Select(t, c))
  {
    var a, b := Select(s, c), Select(t, c);
    SelectCount(s, c);
    SelectCount(t, c);
    forall e
      ensures multiset(a)[e] == multiset(b)[e]
    {
    }
  }

  /** The figures depend only on which rows are stored, not on their order. */
  lemma StatsPermutation(s: seq<Row<Document>>, t: seq<Row<Document>>)
    requires multiset(s) == multiset(t)
    ensures Stats(s) == Stats(t)
  {
    var invS, invT := Select(s, ByFilter(Invoices)), Select(t, ByFilter(Invoices));
    SelectPermutation(s, t, ByFilter(Invoices));
    SelectPermutation(invS, invT, ByFilter(PaidOnly));
    SelectPermutation(invS, invT, Unpaid);
    var ps, pt := Select(invS, ByFilter(PaidOnly)), Select(invT, ByFilter(PaidOnly));
    assert |ps| == |multiset(ps)| == |multiset(pt)| == |pt|;
    var us, ut := Select(invS, Unpaid), Select(invT, Unpaid);
    assert |us| == |multiset(us)| == |multiset(ut)| == |ut|;
    assert |s| == |multiset(s)| == |multiset(t)| == |t|;
    RevenuePermutation(ps, pt);
  }
}
