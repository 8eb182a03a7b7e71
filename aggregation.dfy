/** The two aggregation stages the reports are built from, over entries of
    the form (group key, summed value):
    - `$group` with `{ $sum: 1 }` and `{ $sum: value }`, as GroupSum;
    - `$sort` on one numeric field, as SortBy (an insertion sort). */
module Aggregation {

  /** One output document of `$group`: its key, how many entries fell in it,
      and the sum of their values. */
  datatype Group<K> = Group(key: K, count: nat, total: int)

  /** Reference definitions: how many entries carry key `k`, and their sum. */
  function CountOf<K(==)>(es: seq<(K, int)>, k: K): nat
  {
    if es == [] then 0
    else CountOf(es[..|es| - 1], k) + (if es[|es| - 1].0 == k then 1 else 0)
  }

  function SumOf<K(==)>(es: seq<(K, int)>, k: K): int
  {
    if es == [] then 0
    else SumOf(es[..|es| - 1], k) + (if es[|es| - 1].0 == k then es[|es| - 1].1 else 0)
  }

  function SumValues<K>(es: seq<(K, int)>): int
  {
    if es == [] then 0 else SumValues(es[..|es| - 1]) + es[|es| - 1].1
  }

  /** Sums over the groups of a result. */
  function SumCounts<K>(gs: seq<Group<K>>): nat
  {
    if gs == [] then 0 else gs[0].count + SumCounts(gs[1..])
  }

  function SumTotals<K>(gs: seq<Group<K>>): int
  {
    if gs == [] then 0 else gs[0].total + SumTotals(gs[1..])
  }

  /** The count and total of the group with key `k` (0 when there is none). */
  function CountIn<K(==)>(gs: seq<Group<K>>, k: K): nat
  {
    if gs == [] then 0 else if gs[0].key == k then gs[0].count else CountIn(gs[1..], k)
  }

  function TotalIn<K(==)>(gs: seq<Group<K>>, k: K): int
  {
    if gs == [] then 0 else if gs[0].key == k then gs[0].total else TotalIn(gs[1..], k)
  }

  predicate HasKey<K(==)>(gs: seq<Group<K>>, k: K)
  {
    exists i :: 0 <= i < |gs| && gs[i].key == k
  }

  predicate DistinctKeys<K(==)>(gs: seq<Group<K>>)
  {
    forall i, j :: 0 <= i < j < |gs| ==> gs[i].key != gs[j].key
  }

  /** Folds one entry into the groups built so far. */
  function AddEntry<K(==)>(gs: seq<Group<K>>, k: K, v: int): seq<Group<K>>
  {
    if gs == [] then [Group(k, 1, v)]
    else if gs[0].key == k then [Group(k, gs[0].count + 1, gs[0].total + v)] + gs[1..]
    else [gs[0]] + AddEntry(gs[1..], k, v)
  }

  /** `$group`: one group per distinct key. MongoDB leaves the order of the
      groups unspecified; listing them in order of first appearance is this
      model's own choice, and every caller that needs an order sorts. */
  function GroupSum<K(==)>(es: seq<(K, int)>): seq<Group<K>>
  {
    if es == [] then []
    else AddEntry(GroupSum(es[..|es| - 1]), es[|es| - 1].0, es[|es| - 1].1)
  }

  /** Folding an entry in adds one to its key's count and its value to its
      key's total, and leaves every other key's group as it was. */
  lemma {:induction false} AddEntryLookups<K>(gs: seq<Group<K>>, k: K, v: int)
    ensures forall k' :: CountIn(AddEntry(gs, k, v), k') == CountIn(gs, k') + (if k' == k then 1 else 0)
    ensures forall k' :: TotalIn(AddEntry(gs, k, v), k') == TotalIn(gs, k') + (if k' == k then v else 0)
    ensures SumCounts(AddEntry(gs, k, v)) == SumCounts(gs) + 1
    ensures SumTotals(AddEntry(gs, k, v)) == SumTotals(gs) + v
  {
    var r := AddEntry(gs, k, v);
    if gs != [] {
      if gs[0].key == k {
        assert r[1..] == gs[1..];
      } else {
        AddEntryLookups(gs[1..], k, v);
        assert r[1..] == AddEntry(gs[1..], k, v);
      }
    }
  }

  /** Folding an entry in adds its key and no other. */
  lemma {:induction false} AddEntryKeys<K>(gs: seq<Group<K>>, k: K, v: int)
    ensures forall k' :: HasKey(AddEntry(gs, k, v), k') <==> HasKey(gs, k') || k' == k
  {
    var r := AddEntry(gs, k, v);
    if gs == [] {
      assert r[0].key == k;
    } else if gs[0].key == k {
      assert r[0].key == k;
      assert forall i :: 1 <= i < |r| ==> r[i] == gs[i];
      forall k' ensures HasKey(r, k') <==> HasKey(gs, k') || k' == k {
        if HasKey(gs, k') {
          var i :| 0 <= i < |gs| && gs[i].key == k';
          assert r[i].key == k';
        }
        if HasKey(r, k') {
          var i :| 0 <= i < |r| && r[i].key == k';
          assert gs[i].key == k';
        }
      }
    } else {
      var tail := gs[1..];
      var rt := AddEntry(tail, k, v);
      AddEntryKeys(tail, k, v);
      assert r[1..] == rt && r[0] == gs[0];
      forall k' ensures HasKey(r, k') <==> HasKey(gs, k') || k' == k {
        if gs[0].key == k' {
          assert r[0].key == k';
        } else {
          if HasKey(gs, k') {
            var i :| 0 <= i < |gs| && gs[i].key == k';
            assert tail[i - 1].key == k';
          }
          if HasKey(rt, k') {
            var m :| 0 <= m < |rt| && rt[m].key == k';
            assert r[m + 1].key == k';
          }
          if HasKey(r, k') {
            var i :| 0 <= i < |r| && r[i].key == k';
            assert rt[i - 1].key == k';
          }
          if HasKey(tail, k') {
            var m :| 0 <= m < |tail| && tail[m].key == k';
            assert gs[m + 1].key == k';
          }
        }
      }
    }
  }

  /** Folding an entry in keeps the keys distinct. */
  lemma {:induction false} AddEntryDistinct<K>(gs: seq<Group<K>>, k: K, v: int)
    requires DistinctKeys(gs)
    ensures DistinctKeys(AddEntry(gs, k, v))
  {
    var r := AddEntry(gs, k, v);
    if gs == [] {
    } else if gs[0].key == k {
      forall i, j | 0 <= i < j < |r| ensures r[i].key != r[j].key {
        assert r[i].key == gs[i].key && r[j].key == gs[j].key;
      }
    } else {
      var tail := gs[1..];
      var rt := AddEntry(tail, k, v);
      assert DistinctKeys(tail) by {
        forall i, j | 0 <= i < j < |tail| ensures tail[i].key != tail[j].key {
          assert tail[i] == gs[i + 1] && tail[j] == gs[j + 1];
        }
      }
      assert !HasKey(tail, gs[0].key) by {
        forall i | 0 <= i < |tail| ensures tail[i].key != gs[0].key {
          assert tail[i] == gs[i + 1];
        }
      }
      AddEntryDistinct(tail, k, v);
      AddEntryKeys(tail, k, v);
      assert r[1..] == rt && r[0] == gs[0];
      forall i, j | 0 <= i < j < |r| ensures r[i].key != r[j].key {
        if i == 0 {
          assert r[j] == rt[j - 1];
          assert HasKey(rt, r[j].key);
        } else {
          assert r[i] == rt[i - 1] && r[j] == rt[j - 1];
        }
      }
    }
  }

  /** What `$group` promises: distinct keys, a key present exactly when some
      entry carries it, each group's count and sum those of its entries, and
      the groups together account for every entry. */
  lemma {:induction false} GroupSumCorrect<K>(es: seq<(K, int)>)
    ensures var gs := GroupSum(es);
      && DistinctKeys(gs)
      && (forall k :: HasKey(gs, k) <==> CountOf(es, k) > 0)
      && (forall k :: CountIn(gs, k) == CountOf(es, k))
      && (forall k :: TotalIn(gs, k) == SumOf(es, k))
      && SumCounts(gs) == |es|
      && SumTotals(gs) == SumValues(es)
  {
    if es != [] {
      var init := es[..|es| - 1];
      GroupSumCorrect(init);
      var gs := GroupSum(init);
      AddEntryLookups(gs, es[|es| - 1].0, es[|es| - 1].1);
      AddEntryKeys(gs, es[|es| - 1].0, es[|es| - 1].1);
      AddEntryDistinct(gs, es[|es| - 1].0, es[|es| - 1].1);
    }
  }

  /** In distinct groups, looking a group's own key up finds that group. */
  lemma {:induction false} LookupOwnKey<K>(gs: seq<Group<K>>, i: nat)
    requires DistinctKeys(gs) && i < |gs|
    ensures CountIn(gs, gs[i].key) == gs[i].count && TotalIn(gs, gs[i].key) == gs[i].total
  {
    if i > 0 {
      var tail := gs[1..];
      assert DistinctKeys(tail) by {
        forall a, b | 0 <= a < b < |tail| ensures tail[a].key != tail[b].key {
          assert tail[a] == gs[a + 1] && tail[b] == gs[b + 1];
        }
      }
      assert tail[i - 1] == gs[i];
      LookupOwnKey(tail, i - 1);
    }
  }

  /** Each group of `$group`'s output, read on its own terms. */
  lemma GroupAt<K>(es: seq<(K, int)>, i: nat)
    requires i < |GroupSum(es)|
    ensures var g := GroupSum(es)[i];
      g.count == CountOf(es, g.key) && g.total == SumOf(es, g.key) && g.count > 0
  {
    var gs := GroupSum(es);
    GroupSumCorrect(es);
    LookupOwnKey(gs, i);
    assert HasKey(gs, gs[i].key);
  }

  /** Entries sum by key: counting over a concatenation adds up. */
  lemma {:induction false} CountOfAppend<K>(a: seq<(K, int)>, b: seq<(K, int)>, k: K)
    ensures CountOf(a + b, k) == CountOf(a, k) + CountOf(b, k)
    ensures SumOf(a + b, k) == SumOf(a, k) + SumOf(b, k)
    decreases |b|
  {
    if b == [] {
      assert a + b == a;
    } else {
      var b' := b[..|b| - 1];
      assert (a + b)[..|a + b| - 1] == a + b';
      assert (a + b)[|a + b| - 1] == b[|b| - 1];
      CountOfAppend(a, b', k);
    }
  }

  // ---------------------------------------------------------------- sorting

  /** Non-decreasing in `rank`. `$sort: {f: 1}` uses rank f, `{f: -1}` rank -f. */
  predicate SortedBy<T>(s: seq<T>, rank: T -> int)
  {
    forall i, j :: 0 <= i < j < |s| ==> rank(s[i]) <= rank(s[j])
  }

  function Insert<T>(x: T, s: seq<T>, rank: T -> int): seq<T>
  {
    if s == [] then [x]
    else if rank(x) <= rank(s[0]) then [x] + s
    else [s[0]] + Insert(x, s[1..], rank)
  }

  function SortBy<T>(s: seq<T>, rank: T -> int): seq<T>
  {
    if s == [] then [] else Insert(s[0], SortBy(s[1..], rank), rank)
  }

  /** An insertion holds `x` and the elements of `s`, and nothing else. */
  lemma {:induction false} InsertElements<T>(x: T, s: seq<T>, rank: T -> int, y: T)
    ensures y in Insert(x, s, rank) <==> y == x || y in s
  {
    if s != [] && rank(x) > rank(s[0]) {
      InsertElements(x, s[1..], rank, y);
      assert s == [s[0]] + s[1..];
      assert Insert(x, s, rank) == [s[0]] + Insert(x, s[1..], rank);
    }
  }

  lemma {:induction false} InsertSorted<T>(x: T, s: seq<T>, rank: T -> int)
    requires SortedBy(s, rank)
    ensures SortedBy(Insert(x, s, rank), rank)
  {
    if s != [] && rank(x) > rank(s[0]) {
      var t := s[1..];
      assert SortedBy(t, rank) by {
        forall i, j | 0 <= i < j < |t| ensures rank(t[i]) <= rank(t[j]) {
          assert t[i] == s[i + 1] && t[j] == s[j + 1];
        }
      }
      InsertSorted(x, t, rank);
      var it := Insert(x, t, rank);
      var r := Insert(x, s, rank);
      assert r == [s[0]] + it;
      forall j | 0 <= j < |it| ensures rank(s[0]) <= rank(it[j]) {
        var y := it[j];
        InsertElements(x, t, rank, y);
        assert y in it;
        if y != x {
          var m :| 0 <= m < |t| && t[m] == y;
          assert t[m] == s[m + 1];
        }
      }
      forall i, j | 0 <= i < j < |r| ensures rank(r[i]) <= rank(r[j]) {
        if i == 0 {
          assert r[j] == it[j - 1];
        } else {
          assert r[i] == it[i - 1] && r[j] == it[j - 1];
        }
      }
    }
  }

  lemma InsertCorrect<T>(x: T, s: seq<T>, rank: T -> int)
    requires SortedBy(s, rank)
    ensures SortedBy(Insert(x, s, rank), rank)
    ensures multiset(Insert(x, s, rank)) == multiset(s) + multiset{x}
  {
    InsertSorted(x, s, rank);
    InsertCorrect'(x, s, rank);
  }

  /** What `$sort` promises: ordered by rank, a permutation of its input. */
  lemma {:induction false} SortByCorrect<T>(s: seq<T>, rank: T -> int)
    ensures SortedBy(SortBy(s, rank), rank)
    ensures multiset(SortBy(s, rank)) == multiset(s)
  {
    if s != [] {
      SortByCorrect(s[1..], rank);
      InsertCorrect(s[0], SortBy(s[1..], rank), rank);
      assert s == [s[0]] + s[1..];
    }
  }

  lemma SortByMembers<T>(s: seq<T>, rank: T -> int, y: T)
    ensures y in SortBy(s, rank) <==> y in s
  {
    SortByCorrect(s, rank);
    assert y in multiset(SortBy(s, rank)) <==> y in multiset(s);
  }

  /** No two elements share a key. */
  ghost predicate DistinctBy<T, K>(s: seq<T>, key: T -> K)
  {
    forall i, j :: 0 <= i < j < |s| ==> key(s[i]) != key(s[j])
  }

  /** Sorting never merges two elements that a key tells apart. */
  lemma {:induction false} InsertKeepsDistinct<T, K>(x: T, s: seq<T>, rank: T -> int, key: T -> K)
    requires DistinctBy(s, key)
    requires forall i :: 0 <= i < |s| ==> key(s[i]) != key(x)
    ensures DistinctBy(Insert(x, s, rank), key)
  {
    var r := Insert(x, s, rank);
    if s != [] && rank(x) > rank(s[0]) {
      var t := s[1..];
      assert forall i :: 0 <= i < |t| ==> t[i] == s[i + 1];
      InsertKeepsDistinct(x, t, rank, key);
      var it := Insert(x, t, rank);
      assert r == [s[0]] + it;
      forall i, j | 0 <= i < j < |r| ensures key(r[i]) != key(r[j]) {
        if i == 0 {
          assert r[j] == it[j - 1];
          InsertElements(x, t, rank, it[j - 1]);
          assert it[j - 1] in it;
          if it[j - 1] != x {
            var m :| 0 <= m < |t| && t[m] == it[j - 1];
            assert t[m] == s[m + 1];
          }
        } else {
          assert r[i] == it[i - 1] && r[j] == it[j - 1];
        }
      }
    }
  }

  /** The elements of an insertion, regardless of order. */
  lemma {:induction false} InsertCorrect'<T>(x: T, s: seq<T>, rank: T -> int)
    ensures multiset(Insert(x, s, rank)) == multiset(s) + multiset{x}
  {
    if s != [] && rank(x) > rank(s[0]) {
      InsertCorrect'(x, s[1..], rank);
      assert s == [s[0]] + s[1..];
    }
  }

  lemma {:induction false} SortKeepsDistinct<T, K>(s: seq<T>, rank: T -> int, key: T -> K)
    requires DistinctBy(s, key)
    ensures DistinctBy(SortBy(s, rank), key)
  {
    if s != [] {
      var t := s[1..];
      assert forall i :: 0 <= i < |t| ==> t[i] == s[i + 1];
      SortKeepsDistinct(t, rank, key);
      var st := SortBy(t, rank);
      forall i | 0 <= i < |st| ensures key(st[i]) != key(s[0]) {
        SortByMembers(t, rank, st[i]);
        var m :| 0 <= m < |t| && t[m] == st[i];
        assert t[m] == s[m + 1];
      }
      InsertKeepsDistinct(s[0], st, rank, key);
    }
  }

  /** Sorting groups keeps their count and total sums. */
  lemma {:induction false} InsertSums<K>(g: Group<K>, s: seq<Group<K>>, rank: Group<K> -> int)
    ensures SumCounts(Insert(g, s, rank)) == g.count + SumCounts(s)
    ensures SumTotals(Insert(g, s, rank)) == g.total + SumTotals(s)
  {
    if s != [] && rank(g) > rank(s[0]) {
      InsertSums(g, s[1..], rank);
      assert Insert(g, s, rank)[1..] == Insert(g, s[1..], rank);
    } else {
      assert Insert(g, s, rank)[1..] == s;
    }
  }

  lemma {:induction false} SortSums<K>(s: seq<Group<K>>, rank: Group<K> -> int)
    ensures SumCounts(SortBy(s, rank)) == SumCounts(s)
    ensures SumTotals(SortBy(s, rank)) == SumTotals(s)
  {
    if s != [] {
      SortSums(s[1..], rank);
      InsertSums(s[0], SortBy(s[1..], rank), rank);
    }
  }
}
