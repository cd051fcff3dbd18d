/** The groups above the leaves, stated against the input jobs: a group exists exactly when some job
    is filed below it, spans one row per distinct leaf path below it, and keeps the name, link and
    licence fields of the first job filed below it. */
module UpperGroups {
  import opened Jobs
  import opened Hierarchy
  import opened StepEffects
  import opened Grouping
  import opened TreeShape

  lemma {:induction false} FoldWasteAt(js: seq<Job>, p: Path)
    ensures WasteAt(Fold(js), p).Some? <==> PathsUnder(js, p, 3) != {}
    ensures WasteAt(Fold(js), p).Some? ==>
      var w := WasteAt(Fold(js), p).value;
      && w.rowspan == |PathsUnder(js, p, 3)|
      && w.wasteType == Get(FirstUnder(js, p, 3).value, "wasteType")
    decreases |js|
  {
    if |js| > 0 {
      var front, j := js[..|js| - 1], js[|js| - 1];
      FoldWasteAt(front, p);
      StepWasteAt(Fold(front), j, p);
      PathsUnderAppend(js, p, 3);
      BumpIsNewPath(front, j);
    }
  }

  lemma {:induction false} FoldDepotAt(js: seq<Job>, p: Path)
    ensures DepotAt(Fold(js), p).Some? <==> PathsUnder(js, p, 2) != {}
    ensures DepotAt(Fold(js), p).Some? ==>
      var d := DepotAt(Fold(js), p).value;
      var first := FirstUnder(js, p, 2).value;
      && d.rowspan == |PathsUnder(js, p, 2)|
      && d.depotDispose == Get(first, "depotDispose")
      && d.link == "/" + KeyString(Get(first, "depotDisposeId"))
    decreases |js|
  {
    if |js| > 0 {
      var front, j := js[..|js| - 1], js[|js| - 1];
      FoldDepotAt(front, p);
      StepDepotAt(Fold(front), j, p);
      PathsUnderAppend(js, p, 2);
      BumpIsNewPath(front, j);
    }
  }

  lemma {:induction false} FoldSupplierAt(js: seq<Job>, p: Path)
    ensures SupplierAt(Fold(js), p).Some? <==> PathsUnder(js, p, 1) != {}
    ensures SupplierAt(Fold(js), p).Some? ==>
      var s := SupplierAt(Fold(js), p).value;
      var first := FirstUnder(js, p, 1).value;
      && s.rowspan == |PathsUnder(js, p, 1)|
      && s.supplierName == Get(first, "supplierName")
      && s.link == "/" + KeyString(Get(first, "supplierId"))
      && s.licenseNumber == Get(first, "licenseNumber")
      && s.licenseExpiry == Get(first, "licenseExpiry")
    decreases |js|
  {
    if |js| > 0 {
      var front, j := js[..|js| - 1], js[|js| - 1];
      FoldSupplierAt(front, p);
      StepSupplierAt(Fold(front), j, p);
      PathsUnderAppend(js, p, 1);
      BumpIsNewPath(front, j);
    }
  }

  /** The suppliers of the jobs, each once, in the order they first appear. */
  function SeenSuppliers(js: seq<Job>): (r: seq<string>)
    ensures forall a, b :: 0 <= a < b < |r| ==> r[a] != r[b]
    decreases |js|
  {
    if |js| == 0 then []
    else
      var seen, k := SeenSuppliers(js[..|js| - 1]), PathOf(js[|js| - 1]).supplier;
      if k in seen then seen else seen + [k]
  }

  /** A supplier is listed exactly when some job names it. */
  lemma {:induction false} SeenSuppliersMembers(js: seq<Job>, k: string)
    ensures k in SeenSuppliers(js) <==> exists i :: 0 <= i < |js| && PathOf(js[i]).supplier == k
    decreases |js|
  {
    if |js| > 0 {
      var front := js[..|js| - 1];
      SeenSuppliersMembers(front, k);
      assert forall i :: 0 <= i < |front| ==> front[i] == js[i];
    }
  }

  /** A later job never moves a supplier already listed: the list for a prefix of the jobs is a
      prefix of the list for all of them. */
  lemma {:induction false} SeenSuppliersPrefix(js: seq<Job>, n: nat)
    requires n <= |js|
    ensures SeenSuppliers(js[..n]) <= SeenSuppliers(js)
    decreases |js|
  {
    if n < |js| {
      var front := js[..|js| - 1];
      assert js[..n] == front[..n];
      SeenSuppliersPrefix(front, n);
    } else {
      assert js[..n] == js;
    }
  }

  /** The fold keys its suppliers in the order they first appear in the input. */
  lemma {:induction false} FoldSupplierOrder(js: seq<Job>)
    ensures Fold(js).keys == SeenSuppliers(js)
    decreases |js|
  {
    if |js| > 0 {
      var front, j := js[..|js| - 1], js[|js| - 1];
      FoldSupplierOrder(front);
      FoldOk(front);
      assert PathOf(j).supplier in Fold(front).entries <==> PathOf(j).supplier in SeenSuppliers(front);
    }
  }
}
