/** The shape the fold keeps: every object lists each key once, every group is stored under the
    key it was created for, a leaf spans one row, a waste type spans as many rows as it has EWC
    codes, a depot or supplier spans the rows of its children together, and only leaves carry a
    date range. */
module TreeShape {
  import opened Jobs
  import opened Dicts
  import opened Hierarchy
  import opened StepEffects

  function LeafSpan(l: EwcGroup): nat { l.rowspan }
  function WasteSpan(w: WasteNode): nat { w.rowspan }
  function DepotSpan(d: DepotNode): nat { d.rowspan }
  function SupplierSpan(s: SupplierNode): nat { s.rowspan }

  /** The number of jobs filed below a group. */
  function LeafJobs(l: EwcGroup): nat { |l.jobs| }
  function WasteJobs(w: WasteNode): nat { Sum(w.ewcCodes, LeafJobs) }
  function DepotJobs(d: DepotNode): nat { Sum(d.wasteTypes, WasteJobs) }
  function SupplierJobs(s: SupplierNode): nat { Sum(s.depots, DepotJobs) }
  function TotalJobs(t: Tree): nat { Sum(t, SupplierJobs) }

  /** The shape of one group, apart from its children. */
  ghost predicate SupplierShape(key: string, s: SupplierNode) {
    && KeyString(s.supplierName) == key
    && s.firstService.None? && s.lastService.None?
    && s.depots.Valid()
    && s.rowspan == Sum(s.depots, DepotSpan)
  }

  ghost predicate DepotShape(key: string, d: DepotNode) {
    && KeyString(d.depotDispose) == key
    && d.firstService.None? && d.lastService.None?
    && d.wasteTypes.Valid()
    && d.rowspan == Sum(d.wasteTypes, WasteSpan)
  }

  ghost predicate WasteShape(key: string, w: WasteNode) {
    && KeyString(w.wasteType) == key
    && w.firstService.None? && w.lastService.None?
    && w.ewcCodes.Valid()
    && w.rowspan == |w.ewcCodes.keys|
  }

  ghost predicate LeafShape(key: string, l: EwcGroup) {
    KeyString(l.ewcCode) == key && l.rowspan == 1 && |l.jobs| > 0
  }

  /** Every group in the tree has its shape. */
  ghost predicate TreeOk(t: Tree) {
    && t.Valid()
    && (forall p :: SupplierAt(t, p).Some? ==> SupplierShape(p.supplier, SupplierAt(t, p).value))
    && (forall p :: DepotAt(t, p).Some? ==> DepotShape(p.depot, DepotAt(t, p).value))
    && (forall p :: WasteAt(t, p).Some? ==> WasteShape(p.waste, WasteAt(t, p).value))
    && (forall p :: LeafAt(t, p).Some? ==> LeafShape(p.ewc, LeafAt(t, p).value))
  }

  lemma FileInSupplierShape(s: SupplierNode, j: Job, bump: nat)
    requires SupplierShape(PathOf(j).supplier, s)
    ensures SupplierShape(PathOf(j).supplier, FileInSupplier(s, j, bump))
  {
    var k := PathOf(j).depot;
    SumAfterPut(s.depots, k, FileInDepot(s.depots.GetOr(k, NewDepot(j)), j, bump), DepotSpan);
  }

  lemma FileInDepotShape(d: DepotNode, j: Job, bump: nat)
    requires DepotShape(PathOf(j).depot, d)
    ensures DepotShape(PathOf(j).depot, FileInDepot(d, j, bump))
  {
    var k := PathOf(j).waste;
    SumAfterPut(d.wasteTypes, k, FileInWasteType(d.wasteTypes.GetOr(k, NewWasteType(j)), j, bump), WasteSpan);
  }

  /** A waste type keeps its shape when the job's leaf is bumped exactly when it is created. */
  lemma FileInWasteTypeShape(w: WasteNode, j: Job, bump: nat)
    requires WasteShape(PathOf(j).waste, w)
    requires bump == if PathOf(j).ewc in w.ewcCodes.entries then 0 else 1
    ensures WasteShape(PathOf(j).waste, FileInWasteType(w, j, bump))
  {
  }

  lemma FileInLeafShape(l: EwcGroup, j: Job, bump: nat)
    requires (bump == 0 && LeafShape(PathOf(j).ewc, l)) || (bump == 1 && l == NewEwc(j))
    ensures LeafShape(PathOf(j).ewc, FileInLeaf(l, j, bump))
  {
  }

  lemma StepKeepsSuppliers(t: Tree, j: Job)
    requires TreeOk(t)
    ensures forall p :: SupplierAt(Step(t, j), p).Some? ==> SupplierShape(p.supplier, SupplierAt(Step(t, j), p).value)
  {
    forall p | SupplierAt(Step(t, j), p).Some?
      ensures SupplierShape(p.supplier, SupplierAt(Step(t, j), p).value)
    {
      StepSupplierAt(t, j, p);
      if Agree(p, PathOf(j), 1) {
        FileInSupplierShape(SupplierAt(t, p).GetOr(NewSupplier(j)), j, Bump(t, j));
      }
    }
  }

  lemma StepKeepsDepots(t: Tree, j: Job)
    requires TreeOk(t)
    ensures forall p :: DepotAt(Step(t, j), p).Some? ==> DepotShape(p.depot, DepotAt(Step(t, j), p).value)
  {
    forall p | DepotAt(Step(t, j), p).Some?
      ensures DepotShape(p.depot, DepotAt(Step(t, j), p).value)
    {
      StepDepotAt(t, j, p);
      if Agree(p, PathOf(j), 2) {
        FileInDepotShape(DepotAt(t, p).GetOr(NewDepot(j)), j, Bump(t, j));
      }
    }
  }

  /** The job's leaf exists exactly when its waste type, or the one about to be created, holds it. */
  lemma LeafThroughWasteType(t: Tree, j: Job, p: Path)
    requires Agree(p, PathOf(j), 3)
    ensures LeafAt(t, PathOf(j)).Some? <==> PathOf(j).ewc in WasteAt(t, p).GetOr(NewWasteType(j)).ewcCodes.entries
  {
  }

  lemma StepKeepsValid(t: Tree, j: Job)
    requires t.Valid()
    ensures Step(t, j).Valid()
  {
    var p := PathOf(j);
    assert Step(t, j) == t.Put(p.supplier, FileInSupplier(t.GetOr(p.supplier, NewSupplier(j)), j, Bump(t, j)));
  }

  lemma StepKeepsWasteTypes(t: Tree, j: Job)
    requires TreeOk(t)
    ensures forall p :: WasteAt(Step(t, j), p).Some? ==> WasteShape(p.waste, WasteAt(Step(t, j), p).value)
  {
    forall p | WasteAt(Step(t, j), p).Some?
      ensures WasteShape(p.waste, WasteAt(Step(t, j), p).value)
    {
      StepWasteAt(t, j, p);
      if Agree(p, PathOf(j), 3) {
        LeafThroughWasteType(t, j, p);
        FileInWasteTypeShape(WasteAt(t, p).GetOr(NewWasteType(j)), j, Bump(t, j));
      }
    }
  }

  lemma StepKeepsLeaves(t: Tree, j: Job)
    requires TreeOk(t)
    ensures forall p :: LeafAt(Step(t, j), p).Some? ==> LeafShape(p.ewc, LeafAt(Step(t, j), p).value)
  {
    forall p | LeafAt(Step(t, j), p).Some?
      ensures LeafShape(p.ewc, LeafAt(Step(t, j), p).value)
    {
      StepLeafAt(t, j, p);
      if p == PathOf(j) {
        FileInLeafShape(LeafAt(t, p).GetOr(NewEwc(j)), j, Bump(t, j));
      }
    }
  }

  /** Filing one job adds one to the job count of every group on its path. */
  lemma FileInWasteTypeJobs(w: WasteNode, j: Job, bump: nat)
    requires w.ewcCodes.Valid()
    ensures WasteJobs(FileInWasteType(w, j, bump)) == WasteJobs(w) + 1
  {
    var k := PathOf(j).ewc;
    SumAfterPut(w.ewcCodes, k, FileInLeaf(w.ewcCodes.GetOr(k, NewEwc(j)), j, bump), LeafJobs);
  }

  lemma FileInDepotJobs(d: DepotNode, j: Job, bump: nat)
    requires d.wasteTypes.Valid()
    requires d.wasteTypes.GetOr(PathOf(j).waste, NewWasteType(j)).ewcCodes.Valid()
    ensures DepotJobs(FileInDepot(d, j, bump)) == DepotJobs(d) + 1
  {
    var k := PathOf(j).waste;
    var w := d.wasteTypes.GetOr(k, NewWasteType(j));
    FileInWasteTypeJobs(w, j, bump);
    SumAfterPut(d.wasteTypes, k, FileInWasteType(w, j, bump), WasteJobs);
  }

  lemma FileInSupplierJobs(s: SupplierNode, j: Job, bump: nat)
    requires s.depots.Valid()
    requires s.depots.GetOr(PathOf(j).depot, NewDepot(j)).wasteTypes.Valid()
    requires s.depots.GetOr(PathOf(j).depot, NewDepot(j)).wasteTypes.GetOr(PathOf(j).waste, NewWasteType(j)).ewcCodes.Valid()
    ensures SupplierJobs(FileInSupplier(s, j, bump)) == SupplierJobs(s) + 1
  {
    var k := PathOf(j).depot;
    var d := s.depots.GetOr(k, NewDepot(j));
    FileInDepotJobs(d, j, bump);
    SumAfterPut(s.depots, k, FileInDepot(d, j, bump), DepotJobs);
  }

  lemma StepAddsOneJob(t: Tree, j: Job)
    requires TreeOk(t)
    ensures TotalJobs(Step(t, j)) == TotalJobs(t) + 1
  {
    var p := PathOf(j);
    var s := t.GetOr(p.supplier, NewSupplier(j));
    assert SupplierAt(t, p).Some? ==> SupplierShape(p.supplier, SupplierAt(t, p).value);
    assert DepotAt(t, p).Some? ==> DepotShape(p.depot, DepotAt(t, p).value);
    assert WasteAt(t, p).Some? ==> WasteShape(p.waste, WasteAt(t, p).value);
    FileInSupplierJobs(s, j, Bump(t, j));
    SumAfterPut(t, p.supplier, FileInSupplier(s, j, Bump(t, j)), SupplierJobs);
  }

  lemma StepOk(t: Tree, j: Job)
    requires TreeOk(t)
    ensures TreeOk(Step(t, j))
  {
    StepKeepsValid(t, j);
    StepKeepsSuppliers(t, j);
    StepKeepsDepots(t, j);
    StepKeepsWasteTypes(t, j);
    StepKeepsLeaves(t, j);
  }

  /** The fold keeps the shape. */
  lemma {:induction false} FoldOk(js: seq<Job>)
    ensures TreeOk(Fold(js))
    decreases |js|
  {
    if |js| > 0 {
      FoldOk(js[..|js| - 1]);
      StepOk(Fold(js[..|js| - 1]), js[|js| - 1]);
    }
  }

  /** The tree holds as many jobs as the input has: none is dropped and none is filed twice. */
  lemma {:induction false} FoldKeepsEveryJob(js: seq<Job>)
    ensures TotalJobs(Fold(js)) == |js|
    decreases |js|
  {
    if |js| > 0 {
      FoldKeepsEveryJob(js[..|js| - 1]);
      FoldOk(js[..|js| - 1]);
      StepAddsOneJob(Fold(js[..|js| - 1]), js[|js| - 1]);
    }
  }

  /** The shape of the groups the fold leaves on one path. */
  lemma FoldShapeAt(js: seq<Job>, p: Path)
    ensures Fold(js).Valid()
    ensures SupplierAt(Fold(js), p).Some? ==> SupplierShape(p.supplier, SupplierAt(Fold(js), p).value)
    ensures DepotAt(Fold(js), p).Some? ==> DepotShape(p.depot, DepotAt(Fold(js), p).value)
    ensures WasteAt(Fold(js), p).Some? ==> WasteShape(p.waste, WasteAt(Fold(js), p).value)
    ensures LeafAt(Fold(js), p).Some? ==> LeafShape(p.ewc, LeafAt(Fold(js), p).value)
  {
    FoldOk(js);
  }
}
