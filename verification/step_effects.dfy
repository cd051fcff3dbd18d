/** What one step of the fold does to the group on each path: the groups on the job's own path are
    found or created and the job is filed below them; every other group is left as it was. */
module StepEffects {
  import opened Jobs
  import opened Dicts
  import opened Hierarchy

  lemma StepSupplierAt(t: Tree, j: Job, p: Path)
    ensures Agree(p, PathOf(j), 1) ==>
      SupplierAt(Step(t, j), p) == Some(FileInSupplier(SupplierAt(t, p).GetOr(NewSupplier(j)), j, Bump(t, j)))
    ensures !Agree(p, PathOf(j), 1) ==> SupplierAt(Step(t, j), p) == SupplierAt(t, p)
  {
  }

  /** The depot a job is filed under, seen from its supplier. */
  lemma FileInSupplierDepots(s: SupplierNode, j: Job, bump: nat, p: Path)
    ensures p.depot == PathOf(j).depot ==>
      p.depot in FileInSupplier(s, j, bump).depots.entries &&
      FileInSupplier(s, j, bump).depots.entries[p.depot] == FileInDepot(s.depots.GetOr(p.depot, NewDepot(j)), j, bump)
    ensures p.depot != PathOf(j).depot ==>
      (p.depot in FileInSupplier(s, j, bump).depots.entries <==> p.depot in s.depots.entries) &&
      (p.depot in s.depots.entries ==> FileInSupplier(s, j, bump).depots.entries[p.depot] == s.depots.entries[p.depot])
  {
  }

  lemma FileInDepotWastes(d: DepotNode, j: Job, bump: nat, p: Path)
    ensures p.waste == PathOf(j).waste ==>
      p.waste in FileInDepot(d, j, bump).wasteTypes.entries &&
      FileInDepot(d, j, bump).wasteTypes.entries[p.waste] == FileInWasteType(d.wasteTypes.GetOr(p.waste, NewWasteType(j)), j, bump)
    ensures p.waste != PathOf(j).waste ==>
      (p.waste in FileInDepot(d, j, bump).wasteTypes.entries <==> p.waste in d.wasteTypes.entries) &&
      (p.waste in d.wasteTypes.entries ==> FileInDepot(d, j, bump).wasteTypes.entries[p.waste] == d.wasteTypes.entries[p.waste])
  {
  }

  lemma FileInWasteTypeLeaves(w: WasteNode, j: Job, bump: nat, p: Path)
    ensures p.ewc == PathOf(j).ewc ==>
      p.ewc in FileInWasteType(w, j, bump).ewcCodes.entries &&
      FileInWasteType(w, j, bump).ewcCodes.entries[p.ewc] == FileInLeaf(w.ewcCodes.GetOr(p.ewc, NewEwc(j)), j, bump)
    ensures p.ewc != PathOf(j).ewc ==>
      (p.ewc in FileInWasteType(w, j, bump).ewcCodes.entries <==> p.ewc in w.ewcCodes.entries) &&
      (p.ewc in w.ewcCodes.entries ==> FileInWasteType(w, j, bump).ewcCodes.entries[p.ewc] == w.ewcCodes.entries[p.ewc])
  {
  }

  lemma StepDepotAt(t: Tree, j: Job, p: Path)
    ensures Agree(p, PathOf(j), 2) ==>
      DepotAt(Step(t, j), p) == Some(FileInDepot(DepotAt(t, p).GetOr(NewDepot(j)), j, Bump(t, j)))
    ensures !Agree(p, PathOf(j), 2) ==> DepotAt(Step(t, j), p) == DepotAt(t, p)
  {
    StepSupplierAt(t, j, p);
    if Agree(p, PathOf(j), 1) {
      var s := SupplierAt(t, p).GetOr(NewSupplier(j));
      FileInSupplierDepots(s, j, Bump(t, j), p);
    }
  }

  lemma StepWasteAt(t: Tree, j: Job, p: Path)
    ensures Agree(p, PathOf(j), 3) ==>
      WasteAt(Step(t, j), p) == Some(FileInWasteType(WasteAt(t, p).GetOr(NewWasteType(j)), j, Bump(t, j)))
    ensures !Agree(p, PathOf(j), 3) ==> WasteAt(Step(t, j), p) == WasteAt(t, p)
  {
    StepDepotAt(t, j, p);
    if Agree(p, PathOf(j), 2) {
      var d := DepotAt(t, p).GetOr(NewDepot(j));
      FileInDepotWastes(d, j, Bump(t, j), p);
    }
  }

  lemma StepLeafAt(t: Tree, j: Job, p: Path)
    ensures p == PathOf(j) ==>
      LeafAt(Step(t, j), p) == Some(FileInLeaf(LeafAt(t, p).GetOr(NewEwc(j)), j, Bump(t, j)))
    ensures p != PathOf(j) ==> LeafAt(Step(t, j), p) == LeafAt(t, p)
  {
    StepWasteAt(t, j, p);
    if Agree(p, PathOf(j), 3) {
      var w := WasteAt(t, p).GetOr(NewWasteType(j));
      FileInWasteTypeLeaves(w, j, Bump(t, j), p);
    }
  }
}
