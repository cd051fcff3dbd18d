/** What the fold computes, stated against the input jobs alone: which groups exist, which jobs each
    leaf holds and in what order, each leaf's date range, each group's row count, and the fields a
    group takes from the first job filed under it. */
module Grouping {
  import opened Jobs
  import opened Dicts
  import opened Hierarchy
  import opened StepEffects

  /** The distinct paths of the jobs. */
  function PathsOf(js: seq<Job>): (ps: set<Path>)
    ensures |js| > 0 ==> PathOf(js[|js| - 1]) in ps
    decreases |js|
  {
    if |js| == 0 then {} else PathsOf(js[..|js| - 1]) + {PathOf(js[|js| - 1])}
  }

  /** A path is among the paths of the jobs exactly when some job is on it. */
  lemma {:induction false} PathsOfMembers(js: seq<Job>, q: Path)
    ensures q in PathsOf(js) <==> exists i :: 0 <= i < |js| && PathOf(js[i]) == q
    decreases |js|
  {
    if |js| > 0 {
      var front := js[..|js| - 1];
      PathsOfMembers(front, q);
      assert forall i :: 0 <= i < |front| ==> front[i] == js[i];
    }
  }

  /** The distinct paths below the group at depth `n` of `p`: those agreeing with `p` on its first
      `n` keys. Depth 4 is the leaf itself. */
  function PathsUnder(js: seq<Job>, p: Path, n: nat): set<Path> {
    set q | q in PathsOf(js) && Agree(q, p, n)
  }

  /** Appending a job adds its path below every group on that path and nowhere else. */
  lemma PathsUnderAppend(js: seq<Job>, p: Path, n: nat)
    requires |js| > 0
    ensures var front, j := js[..|js| - 1], js[|js| - 1];
      && (Agree(PathOf(j), p, n) ==> PathsUnder(js, p, n) == PathsUnder(front, p, n) + {PathOf(j)})
      && (!Agree(PathOf(j), p, n) ==> PathsUnder(js, p, n) == PathsUnder(front, p, n))
      && |PathsUnder(js, p, n)| == |PathsUnder(front, p, n)| + (if Agree(PathOf(j), p, n) && PathOf(j) !in PathsOf(front) then 1 else 0)
  {
    var front, x := js[..|js| - 1], PathOf(js[|js| - 1]);
    var below := PathsUnder(front, p, n);
    assert PathsOf(js) == PathsOf(front) + {x};
    if Agree(x, p, n) {
      assert PathsUnder(js, p, n) == below + {x};
      assert x in below <==> x in PathsOf(front);
      if x in below {
        assert below + {x} == below;
      } else {
        assert |below + {x}| == |below| + 1;
      }
    } else {
      assert PathsUnder(js, p, n) == below;
    }
  }

  /** The jobs on path `p`, in input order. */
  function JobsAt(js: seq<Job>, p: Path): (r: seq<Job>)
    ensures forall k :: 0 <= k < |r| ==> PathOf(r[k]) == p
    ensures |r| <= |js|
    decreases |js|
  {
    if |js| == 0 then []
    else JobsAt(js[..|js| - 1], p) + (if PathOf(js[|js| - 1]) == p then [js[|js| - 1]] else [])
  }

  /** A path has jobs exactly when some job is on it. */
  lemma {:induction false} JobsAtNonEmpty(js: seq<Job>, p: Path)
    ensures |JobsAt(js, p)| > 0 <==> p in PathsOf(js)
    decreases |js|
  {
    if |js| > 0 {
      JobsAtNonEmpty(js[..|js| - 1], p);
    }
  }

  /** Selecting the jobs of a path distributes over concatenation: the selection keeps input order. */
  lemma {:induction false} JobsAtAppend(a: seq<Job>, b: seq<Job>, p: Path)
    ensures JobsAt(a + b, p) == JobsAt(a, p) + JobsAt(b, p)
    decreases |b|
  {
    if |b| == 0 {
      assert a + b == a;
    } else {
      var n := |b| - 1;
      assert (a + b)[..|a + b| - 1] == a + b[..n];
      JobsAtAppend(a, b[..n], p);
    }
  }

  /** A single job is selected exactly when it is on the path. */
  lemma JobsAtSingle(j: Job, p: Path)
    ensures JobsAt([j], p) == if PathOf(j) == p then [j] else []
  {
    assert [j][..0] == [];
  }

  /** Selection keeps every copy of every job on the path and nothing else. */
  lemma {:induction false} JobsAtCounts(js: seq<Job>, p: Path, j: Job)
    ensures multiset(JobsAt(js, p))[j] == if PathOf(j) == p then multiset(js)[j] else 0
    decreases |js|
  {
    if |js| > 0 {
      var front := js[..|js| - 1];
      JobsAtCounts(front, p, j);
      assert js == front + [js[|js| - 1]];
    }
  }

  /** The earliest delivery date among the jobs: `None` exactly when no job has one, otherwise a
      date some job has and no dated job is earlier than. */
  ghost predicate IsEarliest(r: Option<int>, js: seq<Job>) {
    && (r.None? <==> forall i :: 0 <= i < |js| ==> js[i].deliveryDate.None?)
    && (r.Some? ==> exists i :: 0 <= i < |js| && js[i].deliveryDate == r)
    && (r.Some? ==> forall i :: 0 <= i < |js| && js[i].deliveryDate.Some? ==> r.value <= js[i].deliveryDate.value)
  }

  /** The latest delivery date among the jobs, in the same sense. */
  ghost predicate IsLatest(r: Option<int>, js: seq<Job>) {
    && (r.None? <==> forall i :: 0 <= i < |js| ==> js[i].deliveryDate.None?)
    && (r.Some? ==> exists i :: 0 <= i < |js| && js[i].deliveryDate == r)
    && (r.Some? ==> forall i :: 0 <= i < |js| && js[i].deliveryDate.Some? ==> js[i].deliveryDate.value <= r.value)
  }

  /** Folding one more job into a running minimum keeps it the minimum of all the jobs seen. */
  lemma EarlierExtends(r: Option<int>, js: seq<Job>, j: Job)
    requires IsEarliest(r, js)
    ensures IsEarliest(Earlier(r, j.deliveryDate), js + [j])
  {
    var r' := Earlier(r, j.deliveryDate);
    var js' := js + [j];
    assert forall i :: 0 <= i < |js| ==> js'[i] == js[i];
    assert js'[|js|] == j;
    if r' == r && r.Some? {
      var i :| 0 <= i < |js| && js[i].deliveryDate == r;
      assert js'[i].deliveryDate == r';
    }
  }

  lemma LaterExtends(r: Option<int>, js: seq<Job>, j: Job)
    requires IsLatest(r, js)
    ensures IsLatest(Later(r, j.deliveryDate), js + [j])
  {
    var r' := Later(r, j.deliveryDate);
    var js' := js + [j];
    assert forall i :: 0 <= i < |js| ==> js'[i] == js[i];
    assert js'[|js|] == j;
    if r' == r && r.Some? {
      var i :| 0 <= i < |js| && js[i].deliveryDate == r;
      assert js'[i].deliveryDate == r';
    }
  }

  /** The earliest date is never after the latest. */
  lemma EarliestNotAfterLatest(first: Option<int>, last: Option<int>, js: seq<Job>)
    requires IsEarliest(first, js) && IsLatest(last, js)
    ensures first.Some? <==> last.Some?
    ensures first.Some? ==> first.value <= last.value
  {
    if first.Some? {
      var i :| 0 <= i < |js| && js[i].deliveryDate == first;
    }
  }

  /** Filing a job into a leaf keeps the leaf's date range the range of its jobs. */
  lemma FileInLeafDates(l: EwcGroup, j: Job, bump: nat)
    requires IsEarliest(l.firstService, l.jobs) && IsLatest(l.lastService, l.jobs)
    ensures var l' := FileInLeaf(l, j, bump);
      IsEarliest(l'.firstService, l'.jobs) && IsLatest(l'.lastService, l'.jobs)
  {
    EarlierExtends(l.firstService, l.jobs, j);
    LaterExtends(l.lastService, l.jobs, j);
  }

  /** The leaf on a path exists exactly when some job is on the path; it then holds exactly the jobs
      on the path, in input order, and spans the earliest to the latest of their delivery dates. */
  lemma {:induction false} FoldLeafAt(js: seq<Job>, p: Path)
    ensures LeafAt(Fold(js), p).Some? <==> p in PathsOf(js)
    ensures LeafAt(Fold(js), p).Some? ==>
      var l := LeafAt(Fold(js), p).value;
      && l.jobs == JobsAt(js, p)
      && IsEarliest(l.firstService, l.jobs)
      && IsLatest(l.lastService, l.jobs)
    decreases |js|
  {
    if |js| > 0 {
      var front, j := js[..|js| - 1], js[|js| - 1];
      FoldLeafAt(front, p);
      StepLeafAt(Fold(front), j, p);
      if p == PathOf(j) {
        var l := LeafAt(Fold(front), p).GetOr(NewEwc(j));
        JobsAtNonEmpty(front, p);
        FileInLeafDates(l, j, Bump(Fold(front), j));
      }
    }
  }

  /** A job starts a new leaf exactly when no earlier job is on its path. */
  lemma BumpIsNewPath(js: seq<Job>, j: Job)
    ensures Bump(Fold(js), j) == if PathOf(j) in PathsOf(js) then 0 else 1
  {
    FoldLeafAt(js, PathOf(j));
  }

  /** The first job filed below the group at depth `n` of `p`. */
  function FirstUnder(js: seq<Job>, p: Path, n: nat): (r: Option<Job>)
    ensures r.None? <==> PathsUnder(js, p, n) == {}
    decreases |js|
  {
    if |js| == 0 then None
    else
      var front, j := js[..|js| - 1], js[|js| - 1];
      PathsUnderAppend(js, p, n);
      match FirstUnder(front, p, n)
      case Some(f) => Some(f)
      case None => if Agree(PathOf(j), p, n) then Some(j) else None
  }

  /** `FirstUnder` is the job at the least index whose path agrees with `p`. */
  lemma {:induction false} FirstUnderIsFirst(js: seq<Job>, p: Path, n: nat)
    requires FirstUnder(js, p, n).Some?
    ensures exists i :: 0 <= i < |js| && js[i] == FirstUnder(js, p, n).value && Agree(PathOf(js[i]), p, n)
                        && forall k :: 0 <= k < i ==> !Agree(PathOf(js[k]), p, n)
    decreases |js|
  {
    var front, j := js[..|js| - 1], js[|js| - 1];
    if FirstUnder(front, p, n).Some? {
      FirstUnderIsFirst(front, p, n);
      var i :| 0 <= i < |front| && front[i] == FirstUnder(front, p, n).value && Agree(PathOf(front[i]), p, n)
                && forall k :: 0 <= k < i ==> !Agree(PathOf(front[k]), p, n);
      assert js[i] == front[i];
      assert forall k :: 0 <= k < i ==> js[k] == front[k];
    } else {
      assert PathsUnder(front, p, n) == {};
      forall k | 0 <= k < |front|
        ensures !Agree(PathOf(js[k]), p, n)
      {
        PathsOfMembers(front, PathOf(front[k]));
        assert PathOf(front[k]) !in PathsUnder(front, p, n);
      }
      assert js[|js| - 1] == FirstUnder(js, p, n).value;
    }
  }
}
