/** Newest-first ordering of threads.

    Every list of threads in the pages is ordered by
    `(a, b) => time(b.created_at) - time(a.created_at)`, i.e. by creation
    instant descending, using `Array.prototype.sort`, which is stable. The
    model of that sort is a stable insertion sort: `Insert` places a thread
    before every thread that is not strictly newer, so among threads created
    at the same instant the one that came first in the input stays first. */
module Chronology {
  import opened Records

  /** Creation instants never increase along the list. */
  predicate SortedDesc(s: seq<Thread>) {
    forall i, j :: 0 <= i < j < |s| ==> s[i].createdAt >= s[j].createdAt
  }

  /** No two entries share an id. */
  predicate DistinctIds(s: seq<Thread>) {
    forall i, j :: 0 <= i < |s| && 0 <= j < |s| && s[i].id == s[j].id ==> i == j
  }

  /** `s.some(t => t.id === id)`. */
  predicate HasId(s: seq<Thread>, id: string) {
    exists t :: t in s && t.id == id
  }

  /** Number of leading entries strictly newer than instant `at`. */
  function NewerPrefix(s: seq<Thread>, at: int): (k: nat)
    ensures k <= |s|
    ensures forall i :: 0 <= i < k ==> s[i].createdAt > at
    ensures k < |s| ==> s[k].createdAt <= at
  {
    if |s| == 0 || s[0].createdAt <= at then 0 else 1 + NewerPrefix(s[1..], at)
  }

  /** One step of the stable sort: `x` goes in front of the first entry that
      is not strictly newer than it. */
  function Insert(x: Thread, s: seq<Thread>): (r: seq<Thread>)
    ensures |r| == |s| + 1
    ensures multiset(r) == multiset(s) + multiset{x}
  {
    if |s| == 0 || s[0].createdAt <= x.createdAt then [x] + s
    else
      assert s == [s[0]] + s[1..];
      [s[0]] + Insert(x, s[1..])
  }

  /** Inserting into a sorted list keeps it sorted. */
  lemma {:induction false} InsertSorted(x: Thread, s: seq<Thread>)
    requires SortedDesc(s)
    ensures SortedDesc(Insert(x, s))
  {
    if |s| == 0 || s[0].createdAt <= x.createdAt {
    } else {
      var rest := Insert(x, s[1..]);
      InsertSorted(x, s[1..]);
      forall i | 0 <= i < |rest|
        ensures rest[i].createdAt <= s[0].createdAt
      {
        assert rest[i] in multiset(rest);
        if rest[i] != x {
          assert rest[i] in multiset(s[1..]);
          var j :| 0 <= j < |s[1..]| && s[1..][j] == rest[i];
          assert s[j + 1] == rest[i];
        }
      }
    }
  }

  /** Stable descending sort by creation instant. */
  function SortDesc(s: seq<Thread>): (r: seq<Thread>)
    ensures |r| == |s|
    ensures multiset(r) == multiset(s)
    ensures SortedDesc(r)
  {
    if |s| == 0 then []
    else
      assert s == [s[0]] + s[1..];
      InsertSorted(s[0], SortDesc(s[1..]));
      Insert(s[0], SortDesc(s[1..]))
  }

  /** `Insert` is the splice of `x` at the end of the strictly-newer prefix. */
  lemma {:induction false} InsertIsSplice(x: Thread, s: seq<Thread>)
    ensures Insert(x, s) == s[..NewerPrefix(s, x.createdAt)] + [x] + s[NewerPrefix(s, x.createdAt)..]
  {
    if |s| == 0 || s[0].createdAt <= x.createdAt {
      assert s[..0] == [] && s[0..] == s;
    } else {
      var t := s[1..];
      InsertIsSplice(x, t);
      assert s == [s[0]] + t;
      SpliceCons(s[0], t, NewerPrefix(t, x.createdAt), x);
    }
  }

  /** Splicing behind a first entry is splicing one position further on. */
  lemma SpliceCons(a: Thread, t: seq<Thread>, k: nat, x: Thread)
    requires k <= |t|
    ensures [a] + (t[..k] + [x] + t[k..]) == ([a] + t)[..k + 1] + [x] + ([a] + t)[k + 1..]
  {
  }

  /** Sorting an already sorted list leaves it unchanged, so re-sorting after
      every merge is idempotent. */
  lemma {:induction false} SortDescOfSorted(s: seq<Thread>)
    requires SortedDesc(s)
    ensures SortDesc(s) == s
  {
    if |s| > 0 {
      assert SortedDesc(s[1..]);
      SortDescOfSorted(s[1..]);
      assert s == [s[0]] + s[1..];
    }
  }

  /** Sorting is idempotent. */
  lemma SortDescIdempotent(s: seq<Thread>)
    ensures SortDesc(SortDesc(s)) == SortDesc(s)
  {
    SortDescOfSorted(SortDesc(s));
  }

  /** `[x, ...prev].sort(newestFirst)` on a sorted `prev` is a single insertion. */
  lemma {:induction false} SortPrepended(x: Thread, s: seq<Thread>)
    requires SortedDesc(s)
    ensures SortDesc([x] + s) == Insert(x, s)
  {
    assert ([x] + s)[1..] == s;
    SortDescOfSorted(s);
  }

  /** A permutation has the same members. */
  lemma SameMembers(a: seq<Thread>, b: seq<Thread>)
    requires multiset(a) == multiset(b)
    ensures forall t :: t in a <==> t in b
  {
    forall t
      ensures t in a <==> t in b
    {
      assert t in a <==> t in multiset(a);
      assert t in b <==> t in multiset(b);
    }
  }

  /** A permutation has the same ids. */
  lemma SameIds(a: seq<Thread>, b: seq<Thread>, id: string)
    requires multiset(a) == multiset(b)
    ensures HasId(a, id) <==> HasId(b, id)
  {
    SameMembers(a, b);
  }

  /** Id-distinctness of a list with one more entry in front. */
  lemma ConsDistinct(x: Thread, s: seq<Thread>)
    ensures DistinctIds([x] + s) <==> DistinctIds(s) && !HasId(s, x.id)
  {
    var c := [x] + s;
    if DistinctIds(c) {
      forall i, j | 0 <= i < |s| && 0 <= j < |s| && s[i].id == s[j].id
        ensures i == j
      {
        assert c[i + 1] == s[i] && c[j + 1] == s[j];
      }
      forall t | t in s
        ensures t.id != x.id
      {
        var i :| 0 <= i < |s| && s[i] == t;
        assert c[i + 1] == t && c[0] == x;
      }
    }
    if DistinctIds(s) && !HasId(s, x.id) {
      forall i, j | 0 <= i < |c| && 0 <= j < |c| && c[i].id == c[j].id
        ensures i == j
      {
        if i > 0 && j > 0 {
          assert c[i] == s[i - 1] && c[j] == s[j - 1];
        }
      }
      assert DistinctIds(c);
    }
  }

  /** Inserting a thread whose id is new keeps the ids distinct. */
  lemma {:induction false} InsertDistinct(x: Thread, s: seq<Thread>)
    requires DistinctIds(s) && !HasId(s, x.id)
    ensures DistinctIds(Insert(x, s))
  {
    if |s| == 0 || s[0].createdAt <= x.createdAt {
      ConsDistinct(x, s);
    } else {
      assert s == [s[0]] + s[1..];
      ConsDistinct(s[0], s[1..]);
      assert !HasId(s[1..], x.id) by {
        forall t | t in s[1..] ensures t.id != x.id { assert t in s; }
      }
      InsertDistinct(x, s[1..]);
      var r := Insert(x, s[1..]);
      SameMembers(r, s[1..] + [x]);
      assert !HasId(r, s[0].id) by {
        forall t | t in r ensures t.id != s[0].id {
          assert t in s[1..] + [x];
          if t == x {
            assert s[0] in s;
          }
        }
      }
      ConsDistinct(s[0], r);
    }
  }

  /** Sorting keeps the ids distinct. */
  lemma {:induction false} SortDescDistinct(s: seq<Thread>)
    requires DistinctIds(s)
    ensures DistinctIds(SortDesc(s))
  {
    if |s| > 0 {
      assert s == [s[0]] + s[1..];
      ConsDistinct(s[0], s[1..]);
      SortDescDistinct(s[1..]);
      SameIds(SortDesc(s[1..]), s[1..], s[0].id);
      InsertDistinct(s[0], SortDesc(s[1..]));
    }
  }
}
