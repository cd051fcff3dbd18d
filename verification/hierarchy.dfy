/** The grouping fold of `groupData`: one left-to-right pass over the sorted jobs that files each job
    under supplier, disposal depot, waste type and EWC code, counting leaf groups (`rowspan`) and
    tracking each leaf's delivery date range. */
module Hierarchy {
  import opened Jobs
  import opened Dicts

  /** A leaf group: the jobs of one EWC code under one waste type, depot and supplier. */
  datatype EwcGroup = EwcGroup(ewcCode: Field, jobs: seq<Job>, rowspan: nat,
                               firstService: Option<int>, lastService: Option<int>)

  /** The groups above the leaves. `C` is the container of the children: an object keyed by the
      child's key while the fold runs, an array once the tree is flattened. */
  datatype WasteTypeGroup<C> = WasteTypeGroup(wasteType: Field, ewcCodes: C, rowspan: nat,
                                              firstService: Option<int>, lastService: Option<int>)

  datatype DepotGroup<C> = DepotGroup(depotDispose: Field, link: string, wasteTypes: C, rowspan: nat,
                                      firstService: Option<int>, lastService: Option<int>)

  datatype SupplierGroup<C> = SupplierGroup(supplierName: Field, link: string, depots: C, rowspan: nat,
                                            firstService: Option<int>, lastService: Option<int>,
                                            licenseNumber: Field, licenseExpiry: Field)

  type WasteNode = WasteTypeGroup<Dict<EwcGroup>>
  type DepotNode = DepotGroup<Dict<WasteNode>>
  type SupplierNode = SupplierGroup<Dict<DepotNode>>

  /** The accumulator of the fold: suppliers keyed by supplier name. */
  type Tree = Dict<SupplierNode>

  function Min(a: int, b: int): int { if a <= b then a else b }
  function Max(a: int, b: int): int { if a <= b then b else a }

  /** The new `firstService` after a job with delivery date `d`: the earlier of the two dates, and
      unchanged when the job has no date. */
  function Earlier(first: Option<int>, d: Option<int>): (r: Option<int>)
    ensures d.None? ==> r == first
    ensures r.None? <==> first.None? && d.None?
    ensures r.Some? ==> r == first || r == d
    ensures r.Some? && first.Some? ==> r.value <= first.value
    ensures r.Some? && d.Some? ==> r.value <= d.value
  {
    match d
    case None => first
    case Some(t) => if first.Some? then Some(Min(first.value, t)) else Some(t)
  }

  /** The new `lastService` after a job with delivery date `d`: the later of the two dates. */
  function Later(last: Option<int>, d: Option<int>): (r: Option<int>)
    ensures d.None? ==> r == last
    ensures r.None? <==> last.None? && d.None?
    ensures r.Some? ==> r == last || r == d
    ensures r.Some? && last.Some? ==> last.value <= r.value
    ensures r.Some? && d.Some? ==> d.value <= r.value
  {
    match d
    case None => last
    case Some(t) => if last.Some? then Some(Max(last.value, t)) else Some(t)
  }

  /** The supplier group created for the first job of a supplier: links to the supplier and copies
      its licence fields. */
  function NewSupplier(j: Job): (s: SupplierNode) {
    SupplierGroup(Get(j, "supplierName"), "/" + KeyString(Get(j, "supplierId")), Empty(), 0, None, None,
                  Get(j, "licenseNumber"), Get(j, "licenseExpiry"))
  }

  function NewDepot(j: Job): (d: DepotNode) {
    DepotGroup(Get(j, "depotDispose"), "/" + KeyString(Get(j, "depotDisposeId")), Empty(), 0, None, None)
  }

  function NewWasteType(j: Job): (w: WasteNode) {
    WasteTypeGroup(Get(j, "wasteType"), Empty(), 0, None, None)
  }

  function NewEwc(j: Job): (l: EwcGroup) {
    EwcGroup(Get(j, "ewcCode"), [], 0, None, None)
  }

  /** Appends a job to a leaf and widens the leaf's date range to take in the job's delivery date;
      `bump` is 1 when the leaf was created for this job. */
  function FileInLeaf(leaf: EwcGroup, j: Job, bump: nat): (l: EwcGroup) {
    leaf.(jobs := leaf.jobs + [j],
          firstService := Earlier(leaf.firstService, j.deliveryDate),
          lastService := Later(leaf.lastService, j.deliveryDate),
          rowspan := leaf.rowspan + bump)
  }

  /** Files a job under the EWC code it names, creating that leaf when it is missing. */
  function FileInWasteType(waste: WasteNode, j: Job, bump: nat): (w: WasteNode) {
    var k := PathOf(j).ewc;
    var leaf := FileInLeaf(waste.ewcCodes.GetOr(k, NewEwc(j)), j, bump);
    waste.(ewcCodes := waste.ewcCodes.Put(k, leaf), rowspan := waste.rowspan + bump)
  }

  /** Files a job under the waste type it names, creating that group when it is missing. */
  function FileInDepot(depot: DepotNode, j: Job, bump: nat): (d: DepotNode) {
    var k := PathOf(j).waste;
    var waste := FileInWasteType(depot.wasteTypes.GetOr(k, NewWasteType(j)), j, bump);
    depot.(wasteTypes := depot.wasteTypes.Put(k, waste), rowspan := depot.rowspan + bump)
  }

  /** Files a job under the disposal depot it names, creating that group when it is missing. */
  function FileInSupplier(supplier: SupplierNode, j: Job, bump: nat): (s: SupplierNode) {
    var k := PathOf(j).depot;
    var depot := FileInDepot(supplier.depots.GetOr(k, NewDepot(j)), j, bump);
    supplier.(depots := supplier.depots.Put(k, depot), rowspan := supplier.rowspan + bump)
  }

  /** One step of the reduce: finds or creates the four groups on the job's path, appends the job
      to the leaf, widens the leaf's date range, and when the leaf is new bumps `rowspan` on the leaf
      and on all three groups above it. */
  function Step(acc: Tree, j: Job): (t: Tree) {
    var p := PathOf(j);
    acc.Put(p.supplier, FileInSupplier(acc.GetOr(p.supplier, NewSupplier(j)), j, Bump(acc, j)))
  }

  /** `newEwcCode`: 1 when the job's leaf does not exist yet, so that filing the job creates it. */
  function Bump(acc: Tree, j: Job): (b: nat) {
    if LeafAt(acc, PathOf(j)).None? then 1 else 0
  }

  /** `jobs.reduce(step, {})`. */
  function Fold(js: seq<Job>): (t: Tree)
    decreases |js|
  {
    if |js| == 0 then Empty() else Step(Fold(js[..|js| - 1]), js[|js| - 1])
  }

  /** The groups on a path, when the tree has them. */
  function SupplierAt(t: Tree, p: Path): Option<SupplierNode> {
    if p.supplier in t.entries then Some(t.entries[p.supplier]) else None
  }

  function DepotAt(t: Tree, p: Path): Option<DepotNode> {
    match SupplierAt(t, p)
    case None => None
    case Some(s) => if p.depot in s.depots.entries then Some(s.depots.entries[p.depot]) else None
  }

  function WasteAt(t: Tree, p: Path): Option<WasteNode> {
    match DepotAt(t, p)
    case None => None
    case Some(d) => if p.waste in d.wasteTypes.entries then Some(d.wasteTypes.entries[p.waste]) else None
  }

  function LeafAt(t: Tree, p: Path): Option<EwcGroup> {
    match WasteAt(t, p)
    case None => None
    case Some(w) => if p.ewc in w.ewcCodes.entries then Some(w.ewcCodes.entries[p.ewc]) else None
  }
}
