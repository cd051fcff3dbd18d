/** Sorting the job list with the comparator, as `applySorting` does on a copy of the list. */
module Sorting {
  import opened Jobs
  import opened Comparator

  /** No job comes after a job it should precede. */
  predicate Sorted(field: string, direction: string, s: seq<Job>) {
    forall i, j :: 0 <= i < j < |s| ==> Compare(field, direction, s[i], s[j]) <= 0
  }

  /** Places `x` in front of the first job it does not come after. */
  function Insert(field: string, direction: string, x: Job, s: seq<Job>): (r: seq<Job>)
    ensures multiset(r) == multiset(s) + multiset{x}
    decreases |s|
  {
    if |s| == 0 then [x]
    else if Compare(field, direction, x, s[0]) <= 0 then [x] + s
    else
      assert s == [s[0]] + s[1..];
      [s[0]] + Insert(field, direction, x, s[1..])
  }

  /** A job that does not come after the first of a sorted list may go in front of it. */
  lemma PrependKeepsOrder(field: string, direction: string, x: Job, s: seq<Job>)
    requires Sorted(field, direction, s)
    requires |s| > 0 && Compare(field, direction, x, s[0]) <= 0
    ensures Sorted(field, direction, [x] + s)
  {
    var r := [x] + s;
    forall i, j | 0 <= i < j < |r|
      ensures Compare(field, direction, r[i], r[j]) <= 0
    {
      if i == 0 && j > 1 {
        CompareTransitive(field, direction, x, s[0], s[j - 1]);
      }
    }
  }

  /** Every job that `Insert` returns is `x` or a job of `s`. */
  lemma InsertDrawsFrom(field: string, direction: string, x: Job, s: seq<Job>, k: int)
    requires 0 <= k < |Insert(field, direction, x, s)|
    ensures Insert(field, direction, x, s)[k] == x || Insert(field, direction, x, s)[k] in s
  {
    var r := Insert(field, direction, x, s);
    assert r[k] in multiset(r);
  }

  lemma {:induction false} InsertKeepsOrder(field: string, direction: string, x: Job, s: seq<Job>)
    requires Sorted(field, direction, s)
    ensures Sorted(field, direction, Insert(field, direction, x, s))
    decreases |s|
  {
    if |s| == 0 {
    } else if Compare(field, direction, x, s[0]) <= 0 {
      PrependKeepsOrder(field, direction, x, s);
    } else {
      var rest := Insert(field, direction, x, s[1..]);
      InsertKeepsOrder(field, direction, x, s[1..]);
      CompareTotal(field, direction, x, s[0]);
      forall k | 0 <= k < |rest|
        ensures Compare(field, direction, s[0], rest[k]) <= 0
      {
        InsertDrawsFrom(field, direction, x, s[1..], k);
      }
      assert Insert(field, direction, x, s) == [s[0]] + rest;
    }
  }

  /** The list sorted under the comparator: insertion sort, which keeps jobs that compare equal in
      their input order. */
  function Sort(field: string, direction: string, s: seq<Job>): (r: seq<Job>)
    ensures multiset(r) == multiset(s)
    decreases |s|
  {
    if |s| == 0 then []
    else
      assert s == [s[0]] + s[1..];
      Insert(field, direction, s[0], Sort(field, direction, s[1..]))
  }

  /** The sorted list is in order under the comparator. */
  lemma {:induction false} SortIsOrdered(field: string, direction: string, s: seq<Job>)
    ensures Sorted(field, direction, Sort(field, direction, s))
    decreases |s|
  {
    if |s| > 0 {
      SortIsOrdered(field, direction, s[1..]);
      InsertKeepsOrder(field, direction, s[0], Sort(field, direction, s[1..]));
    }
  }

  /** Sorting adds and drops no job: the result has the same length and the same jobs, each as often. */
  lemma SortIsPermutation(field: string, direction: string, s: seq<Job>)
    ensures |Sort(field, direction, s)| == |s|
    ensures forall x :: multiset(Sort(field, direction, s))[x] == multiset(s)[x]
  {
    var r := Sort(field, direction, s);
    assert |r| == |multiset(r)| == |multiset(s)| == |s|;
  }

  /** A list that is already in order comes back unchanged. */
  lemma {:induction false} SortKeepsSorted(field: string, direction: string, s: seq<Job>)
    requires Sorted(field, direction, s)
    ensures Sort(field, direction, s) == s
    decreases |s|
  {
    if |s| > 0 {
      assert Sorted(field, direction, s[1..]);
      SortKeepsSorted(field, direction, s[1..]);
      assert s == [s[0]] + s[1..];
    }
  }

  /** Sorting twice by the same property and direction gives the order of sorting once. */
  lemma SortIdempotent(field: string, direction: string, s: seq<Job>)
    ensures Sort(field, direction, Sort(field, direction, s)) == Sort(field, direction, s)
  {
    SortIsOrdered(field, direction, s);
    SortKeepsSorted(field, direction, Sort(field, direction, s));
  }

  /** The jobs of `s` whose sort value is `v`, in the order `s` lists them. */
  function Ties(field: string, v: string, s: seq<Job>): seq<Job>
    decreases |s|
  {
    if |s| == 0 then []
    else if SortValue(s[0], field) == v then [s[0]] + Ties(field, v, s[1..])
    else Ties(field, v, s[1..])
  }

  /** A sort value has ties in `s` exactly when some job of `s` has that value. */
  lemma {:induction false} TiesMember(field: string, v: string, s: seq<Job>)
    ensures Ties(field, v, s) != [] <==> exists k :: 0 <= k < |s| && SortValue(s[k], field) == v
    decreases |s|
  {
    if |s| > 0 {
      TiesMember(field, v, s[1..]);
      assert forall k :: 0 < k < |s| ==> s[k] == s[1..][k - 1];
    }
  }

  /** The ties of a list that starts with `a`: `a` itself when it has the value, then the rest's. */
  lemma TiesCons(field: string, v: string, a: Job, t: seq<Job>)
    ensures SortValue(a, field) == v ==> Ties(field, v, [a] + t) == [a] + Ties(field, v, t)
    ensures SortValue(a, field) != v ==> Ties(field, v, [a] + t) == Ties(field, v, t)
  {
    assert ([a] + t)[1..] == t;
  }

  /** `Insert` passes only jobs that sort strictly before `x`, so it puts `x` after every job of
      `s` that ties with it and moves no tied job. */
  lemma {:induction false} InsertKeepsTies(field: string, direction: string, x: Job, s: seq<Job>, v: string)
    ensures SortValue(x, field) == v ==> Ties(field, v, Insert(field, direction, x, s)) == [x] + Ties(field, v, s)
    ensures SortValue(x, field) != v ==> Ties(field, v, Insert(field, direction, x, s)) == Ties(field, v, s)
    decreases |s|
  {
    if |s| == 0 {
      TiesCons(field, v, x, s);
      assert [x] + s == [x];
    } else if Compare(field, direction, x, s[0]) <= 0 {
      TiesCons(field, v, x, s);
    } else {
      var rest := Insert(field, direction, x, s[1..]);
      InsertKeepsTies(field, direction, x, s[1..], v);
      assert Insert(field, direction, x, s) == [s[0]] + rest;
      TiesCons(field, v, s[0], rest);
      // `x` sorts strictly after `s[0]`, so they do not tie.
      assert SortValue(x, field) != SortValue(s[0], field);
    }
  }

  /** The sort is stable: jobs with the same sort value keep their input order. */
  lemma {:induction false} SortIsStable(field: string, direction: string, s: seq<Job>, v: string)
    ensures Ties(field, v, Sort(field, direction, s)) == Ties(field, v, s)
    decreases |s|
  {
    if |s| > 0 {
      SortIsStable(field, direction, s[1..], v);
      InsertKeepsTies(field, direction, s[0], Sort(field, direction, s[1..]), v);
    }
  }

  /** The first job of a list in order comes after no job whose sort value occurs in the list. */
  lemma FirstNotAfter(field: string, direction: string, s: seq<Job>, v: string, x: Job)
    requires Sorted(field, direction, s)
    requires Ties(field, v, s) != [] && SortValue(x, field) == v
    ensures |s| > 0 && Compare(field, direction, s[0], x) <= 0
  {
    TiesMember(field, v, s);
    var k :| 0 <= k < |s| && SortValue(s[k], field) == v;
    assert Compare(field, direction, s[0], s[k]) <= 0;
  }

  /** Two lists in order that list the jobs of every sort value alike start with the same job. */
  lemma SortedTiesSameHead(field: string, direction: string, r: seq<Job>, q: seq<Job>)
    requires Sorted(field, direction, r) && Sorted(field, direction, q)
    requires forall v :: Ties(field, v, r) == Ties(field, v, q)
    requires |r| > 0 && |q| > 0
    ensures r[0] == q[0]
  {
    var a, b := r[0], q[0];
    var va, vb := SortValue(a, field), SortValue(b, field);
    assert Ties(field, va, r)[0] == a;
    assert Ties(field, vb, q)[0] == b;
    assert Ties(field, va, q) == Ties(field, va, r) != [];
    assert Ties(field, vb, r) == Ties(field, vb, q) != [];
    FirstNotAfter(field, direction, q, va, a);
    FirstNotAfter(field, direction, r, vb, b);
    CompareAntisymmetric(field, direction, a, b);
    assert va == vb;
  }

  /** Dropping a common first job keeps the jobs of every sort value alike. */
  lemma TiesAfterHead(field: string, r: seq<Job>, q: seq<Job>, v: string)
    requires |r| > 0 && |q| > 0 && r[0] == q[0]
    requires Ties(field, v, r) == Ties(field, v, q)
    ensures Ties(field, v, r[1..]) == Ties(field, v, q[1..])
  {
    if SortValue(r[0], field) == v {
      assert Ties(field, v, r[1..]) == Ties(field, v, r)[1..];
      assert Ties(field, v, q[1..]) == Ties(field, v, q)[1..];
    }
  }

  /** A non-empty list has a job of the first job's sort value. */
  lemma TiesOfHead(field: string, s: seq<Job>)
    ensures |s| > 0 ==> Ties(field, SortValue(s[0], field), s) != []
  {
  }

  /** Two lists in order that list the jobs of every sort value alike are the same list. */
  lemma {:induction false} SortedTiesUnique(field: string, direction: string, r: seq<Job>, q: seq<Job>)
    requires Sorted(field, direction, r) && Sorted(field, direction, q)
    requires forall v :: Ties(field, v, r) == Ties(field, v, q)
    ensures r == q
    decreases |r|
  {
    TiesOfHead(field, r);
    TiesOfHead(field, q);
    if |r| > 0 && |q| > 0 {
      SortedTiesSameHead(field, direction, r, q);
      forall v ensures Ties(field, v, r[1..]) == Ties(field, v, q[1..]) {
        TiesAfterHead(field, r, q, v);
      }
      SortedTiesUnique(field, direction, r[1..], q[1..]);
      assert r == [r[0]] + r[1..] && q == [q[0]] + q[1..];
    }
  }

  /** `Sort` is the only stable result: any list in order under the comparator that keeps the
      input order of tied jobs is `Sort`'s. */
  lemma SortIsTheStableOrder(field: string, direction: string, s: seq<Job>, r: seq<Job>)
    requires Sorted(field, direction, r)
    requires forall v :: Ties(field, v, r) == Ties(field, v, s)
    ensures r == Sort(field, direction, s)
  {
    SortIsOrdered(field, direction, s);
    forall v ensures Ties(field, v, r) == Ties(field, v, Sort(field, direction, s)) {
      SortIsStable(field, direction, s, v);
    }
    SortedTiesUnique(field, direction, r, Sort(field, direction, s));
  }
}
