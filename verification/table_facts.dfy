/** What the rendered table shows, stated against the input jobs: every leaf row holds the jobs of
    its path in input order with their date range, every group row spans the distinct leaf paths
    below it, every job is in exactly one leaf row, and no job is lost. */
module TableFacts {
  import opened Jobs
  import opened Dicts
  import opened Hierarchy
  import opened TreeShape
  import opened Grouping
  import opened UpperGroups
  import opened Comparator
  import opened Sorting
  import opened Table

  /** A leaf row holds exactly the jobs on its path, in input order, spans one row, and shows the
      earliest and latest delivery dates of its jobs. */
  lemma GroupDataLeaf(js: seq<Job>, i: int, k: int, m: int, q: int)
    requires IsRow(GroupData(js), i, k, m, q)
    ensures var l, p := GroupData(js)[i].depots[k].wasteTypes[m].ewcCodes[q], RowPath(GroupData(js), i, k, m, q);
      && l.jobs == JobsAt(js, p)
      && |l.jobs| > 0
      && l.rowspan == 1
      && IsEarliest(l.firstService, l.jobs)
      && IsLatest(l.lastService, l.jobs)
  {
    var p := RowPath(GroupData(js), i, k, m, q);
    FoldOk(js);
    RowIsLookup(Fold(js), i, k, m, q);
    FoldShapeAt(js, p);
    FoldLeafAt(js, p);
    assert LeafAt(Fold(js), p).Some?;
  }

  /** A waste type row spans its EWC codes, one row each, which are the distinct leaf paths below it;
      it shows the waste type of the first job filed below it and no date range. */
  lemma GroupDataWasteType(js: seq<Job>, i: int, k: int, m: int, q: int)
    requires IsRow(GroupData(js), i, k, m, q)
    ensures var w, p := GroupData(js)[i].depots[k].wasteTypes[m], RowPath(GroupData(js), i, k, m, q);
      && w.rowspan == |w.ewcCodes| == |PathsUnder(js, p, 3)|
      && FirstUnder(js, p, 3).Some?
      && w.wasteType == Get(FirstUnder(js, p, 3).value, "wasteType")
      && w.firstService.None? && w.lastService.None?
  {
    var p := RowPath(GroupData(js), i, k, m, q);
    FoldOk(js);
    RowIsLookup(Fold(js), i, k, m, q);
    FoldShapeAt(js, p);
    FoldWasteAt(js, p);
    assert WasteAt(Fold(js), p).Some?;
  }

  /** A depot row spans the distinct leaf paths below it and shows the depot and link of the first
      job filed below it. */
  lemma GroupDataDepot(js: seq<Job>, i: int, k: int, m: int, q: int)
    requires IsRow(GroupData(js), i, k, m, q)
    ensures var d, p := GroupData(js)[i].depots[k], RowPath(GroupData(js), i, k, m, q);
      && d.rowspan == |PathsUnder(js, p, 2)|
      && FirstUnder(js, p, 2).Some?
      && d.depotDispose == Get(FirstUnder(js, p, 2).value, "depotDispose")
      && d.link == "/" + KeyString(Get(FirstUnder(js, p, 2).value, "depotDisposeId"))
      && d.firstService.None? && d.lastService.None?
  {
    var p := RowPath(GroupData(js), i, k, m, q);
    FoldOk(js);
    RowIsLookup(Fold(js), i, k, m, q);
    FoldShapeAt(js, p);
    FoldDepotAt(js, p);
    assert DepotAt(Fold(js), p).Some?;
  }

  /** A supplier row spans the distinct leaf paths below it and shows the name, link and licence of
      the first job filed below it. */
  lemma GroupDataSupplier(js: seq<Job>, i: int, k: int, m: int, q: int)
    requires IsRow(GroupData(js), i, k, m, q)
    ensures var s, p := GroupData(js)[i], RowPath(GroupData(js), i, k, m, q);
      && s.rowspan == |PathsUnder(js, p, 1)|
      && FirstUnder(js, p, 1).Some?
      && s.supplierName == Get(FirstUnder(js, p, 1).value, "supplierName")
      && s.link == "/" + KeyString(Get(FirstUnder(js, p, 1).value, "supplierId"))
      && s.licenseNumber == Get(FirstUnder(js, p, 1).value, "licenseNumber")
      && s.licenseExpiry == Get(FirstUnder(js, p, 1).value, "licenseExpiry")
      && s.firstService.None? && s.lastService.None?
  {
    var p := RowPath(GroupData(js), i, k, m, q);
    FoldOk(js);
    RowIsLookup(Fold(js), i, k, m, q);
    FoldShapeAt(js, p);
    FoldSupplierAt(js, p);
    assert SupplierAt(Fold(js), p).Some?;
  }

  /** The number of jobs listed below a row of the table. */
  function WasteRowJobs(w: WasteView): nat { SumSeq(Map(w.ewcCodes, LeafJobs)) }
  function DepotRowJobs(d: DepotView): nat { SumSeq(Map(d.wasteTypes, WasteRowJobs)) }
  function SupplierRowJobs(s: SupplierView): nat { SumSeq(Map(s.depots, DepotRowJobs)) }
  function TableJobs(rows: seq<SupplierView>): nat { SumSeq(Map(rows, SupplierRowJobs)) }

  /** Flattening neither drops nor repeats a job. */
  lemma FlattenKeepsJobs()
    ensures forall w :: WasteRowJobs(FlattenWaste(w)) == WasteJobs(w)
    ensures forall d :: DepotRowJobs(FlattenDepot(d)) == DepotJobs(d)
    ensures forall s :: SupplierRowJobs(FlattenSupplier(s)) == SupplierJobs(s)
  {
    forall w: WasteNode ensures WasteRowJobs(FlattenWaste(w)) == WasteJobs(w) {
      SumAfterMapValues(w.ewcCodes, Leaf, LeafJobs, LeafJobs);
    }
    forall d: DepotNode ensures DepotRowJobs(FlattenDepot(d)) == DepotJobs(d) {
      SumAfterMapValues(d.wasteTypes, FlattenWaste, WasteRowJobs, WasteJobs);
    }
    forall s: SupplierNode ensures SupplierRowJobs(FlattenSupplier(s)) == SupplierJobs(s) {
      SumAfterMapValues(s.depots, FlattenDepot, DepotRowJobs, DepotJobs);
    }
  }

  /** The table lists as many jobs as the input has. */
  lemma GroupDataKeepsEveryJob(js: seq<Job>)
    ensures TableJobs(GroupData(js)) == |js|
  {
    FlattenKeepsJobs();
    SumAfterMapValues(Fold(js), FlattenSupplier, SupplierRowJobs, SupplierJobs);
    FoldKeepsEveryJob(js);
  }

  /** Every path some job is on has a leaf row. */
  lemma GroupDataFindsEveryPath(js: seq<Job>, p: Path)
    requires p in PathsOf(js)
    ensures exists i, k, m, q :: IsRow(GroupData(js), i, k, m, q) && RowPath(GroupData(js), i, k, m, q) == p
  {
    var t := Fold(js);
    FoldLeafAt(js, p);
    assert LeafAt(t, p).Some?;
    FoldOk(js);
    LeafHasRow(t, p);
    assert GroupData(js) == Rows(t);
  }

  /** Two leaf rows with the same path are the same row. */
  lemma GroupDataRowsDistinct(js: seq<Job>, i: int, k: int, m: int, q: int, i': int, k': int, m': int, q': int)
    requires IsRow(GroupData(js), i, k, m, q) && IsRow(GroupData(js), i', k', m', q')
    requires RowPath(GroupData(js), i, k, m, q) == RowPath(GroupData(js), i', k', m', q')
    ensures i == i' && k == k' && m == m' && q == q'
  {
    FoldOk(js);
    RowsDistinct(Fold(js), i, k, m, q, i', k', m', q');
  }

  /** Every job is in the leaf row of its own path. */
  lemma EveryJobHasItsRow(js: seq<Job>, x: int)
    requires 0 <= x < |js|
    ensures exists i, k, m, q :: IsRow(GroupData(js), i, k, m, q) && RowPath(GroupData(js), i, k, m, q) == PathOf(js[x])
                                 && js[x] in GroupData(js)[i].depots[k].wasteTypes[m].ewcCodes[q].jobs
  {
    var rows, p := GroupData(js), PathOf(js[x]);
    PathsOfMembers(js, p);
    GroupDataFindsEveryPath(js, p);
    var i, k, m, q :| IsRow(rows, i, k, m, q) && RowPath(rows, i, k, m, q) == p;
    GroupDataLeaf(js, i, k, m, q);
    JobsAtCounts(js, p, js[x]);
    assert js[x] in rows[i].depots[k].wasteTypes[m].ewcCodes[q].jobs;
  }

  /** A leaf row holds only jobs of its own path; with `GroupDataRowsDistinct` and
      `EveryJobHasItsRow`, every job is in exactly one leaf row. */
  lemma RowHoldsOnlyItsPath(js: seq<Job>, i: int, k: int, m: int, q: int, j: Job)
    requires IsRow(GroupData(js), i, k, m, q)
    requires j in GroupData(js)[i].depots[k].wasteTypes[m].ewcCodes[q].jobs
    ensures RowPath(GroupData(js), i, k, m, q) == PathOf(j)
  {
    GroupDataLeaf(js, i, k, m, q);
  }

  /** In the table built from the jobs, row spans add up level by level. */
  lemma GroupDataSpansAddUp(js: seq<Job>, i: int, k: int)
    requires 0 <= i < |GroupData(js)| && 0 <= k < |GroupData(js)[i].depots|
    ensures GroupData(js)[i].rowspan == SumSeq(Map(GroupData(js)[i].depots, DepotRowSpan))
    ensures GroupData(js)[i].depots[k].rowspan == SumSeq(Map(GroupData(js)[i].depots[k].wasteTypes, WasteRowSpan))
  {
    FoldOk(js);
    RowSpansAddUp(Fold(js), i, k);
  }

  /** Appending a job that comes after every job of a sorted list keeps it sorted. */
  lemma AppendKeepsOrder(field: string, direction: string, s: seq<Job>, x: Job)
    requires Sorted(field, direction, s)
    requires forall i :: 0 <= i < |s| ==> Compare(field, direction, s[i], x) <= 0
    ensures Sorted(field, direction, s + [x])
  {
    var r := s + [x];
    forall i, j | 0 <= i < j < |r|
      ensures Compare(field, direction, r[i], r[j]) <= 0
    {
      if j == |s| {
        assert r[i] == s[i] && r[j] == x;
      } else {
        assert r[i] == s[i] && r[j] == s[j];
      }
    }
  }

  /** The jobs of one path, taken from a sorted list, are sorted. */
  lemma {:induction false} JobsAtKeepsOrder(field: string, direction: string, s: seq<Job>, p: Path)
    requires Sorted(field, direction, s)
    ensures Sorted(field, direction, JobsAt(s, p))
    decreases |s|
  {
    if |s| > 0 {
      var front, x := s[..|s| - 1], s[|s| - 1];
      assert Sorted(field, direction, front);
      JobsAtKeepsOrder(field, direction, front, p);
      var a := JobsAt(front, p);
      if PathOf(x) == p {
        forall i | 0 <= i < |a|
          ensures Compare(field, direction, a[i], x) <= 0
        {
          JobsAtCounts(front, p, a[i]);
          assert a[i] in multiset(a);
          var n :| 0 <= n < |front| && front[n] == a[i];
          assert s[n] == a[i];
        }
        AppendKeepsOrder(field, direction, a, x);
      }
    }
  }

  /** After `applySorting`, each leaf row lists its path's jobs in sorted order, and holds every
      copy of every input job on its path and no other job. */
  lemma ApplySortingLeaf(field: string, direction: string, jobs: seq<Job>, i: int, k: int, m: int, q: int)
    requires IsRow(ApplySorting(field, direction, jobs).1, i, k, m, q)
    ensures var rows := ApplySorting(field, direction, jobs).1;
      var l, p := rows[i].depots[k].wasteTypes[m].ewcCodes[q], RowPath(rows, i, k, m, q);
      && Sorted(field, direction, l.jobs)
      && forall x :: multiset(l.jobs)[x] == if PathOf(x) == p then multiset(jobs)[x] else 0
  {
    var sorted := Sort(field, direction, jobs);
    var p := RowPath(GroupData(sorted), i, k, m, q);
    GroupDataLeaf(sorted, i, k, m, q);
    SortIsOrdered(field, direction, jobs);
    JobsAtKeepsOrder(field, direction, sorted, p);
    forall x {
      JobsAtCounts(sorted, p, x);
    }
  }

  /** `applySorting` neither drops nor repeats a job. */
  lemma ApplySortingKeepsEveryJob(field: string, direction: string, jobs: seq<Job>)
    ensures TableJobs(ApplySorting(field, direction, jobs).1) == |jobs|
  {
    GroupDataKeepsEveryJob(Sort(field, direction, jobs));
  }

  /** The table has one supplier row per supplier named by the jobs, in the order the suppliers first
      appear in the input. */
  lemma GroupDataSupplierOrder(js: seq<Job>)
    ensures |GroupData(js)| == |SeenSuppliers(js)|
    ensures forall i :: 0 <= i < |GroupData(js)| ==> KeyString(GroupData(js)[i].supplierName) == SeenSuppliers(js)[i]
  {
    var t := Fold(js);
    FoldOk(js);
    FoldSupplierOrder(js);
    forall i | 0 <= i < |GroupData(js)|
      ensures KeyString(GroupData(js)[i].supplierName) == SeenSuppliers(js)[i]
    {
      SupplierRow(t, i, Path(t.keys[i], "", "", ""));
    }
  }
}
