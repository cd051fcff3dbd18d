/** The rendered table: the grouped objects turned into nested arrays (`Object.values` at every level,
    in key order), and `applySorting`, which sorts a copy of the jobs and groups the sorted copy. */
module Table {
  import opened Jobs
  import opened Dicts
  import opened Hierarchy
  import opened TreeShape
  import opened Grouping
  import opened UpperGroups
  import opened Sorting

  /** The groups once their children are arrays. */
  type WasteView = WasteTypeGroup<seq<EwcGroup>>
  type DepotView = DepotGroup<seq<WasteView>>
  type SupplierView = SupplierGroup<seq<DepotView>>

  /** Leaves are listed as they are. */
  function Leaf(l: EwcGroup): (r: EwcGroup) { l }

  /** `wasteTypeData.ewcCodes = Object.values(wasteTypeData.ewcCodes)`. */
  function FlattenWaste(w: WasteNode): (r: WasteView) {
    WasteTypeGroup(w.wasteType, MapValues(w.ewcCodes, Leaf), w.rowspan, w.firstService, w.lastService)
  }

  /** `depotData.wasteTypes = Object.values(depotData.wasteTypes).map(...)`. */
  function FlattenDepot(d: DepotNode): (r: DepotView) {
    DepotGroup(d.depotDispose, d.link, MapValues(d.wasteTypes, FlattenWaste), d.rowspan, d.firstService, d.lastService)
  }

  /** `supplierData.depots = Object.values(supplierData.depots).map(...)`. */
  function FlattenSupplier(s: SupplierNode): (r: SupplierView) {
    SupplierGroup(s.supplierName, s.link, MapValues(s.depots, FlattenDepot), s.rowspan, s.firstService, s.lastService,
                  s.licenseNumber, s.licenseExpiry)
  }

  /** `tableData`: the suppliers of a grouped tree, flattened, in key order. */
  function Rows(t: Tree): (rows: seq<SupplierView>) {
    MapValues(t, FlattenSupplier)
  }

  /** `groupData`: folds the jobs into groups and lists the groups as `tableData`. */
  function GroupData(js: seq<Job>): (rows: seq<SupplierView>)
    ensures |js| == 0 ==> rows == []
  {
    Rows(Fold(js))
  }

  /** `applySorting`: the jobs sorted on a copy, and the table grouped from the sorted copy. */
  function ApplySorting(field: string, direction: string, jobs: seq<Job>): (r: (seq<Job>, seq<SupplierView>))
    ensures |r.0| == |jobs| && multiset(r.0) == multiset(jobs)
    ensures |jobs| == 0 ==> r.1 == []
  {
    var sorted := Sort(field, direction, jobs);
    SortIsPermutation(field, direction, jobs);
    (sorted, GroupData(sorted))
  }

  /** Supplier `i`, depot `k`, waste type `m`, EWC code `q` name a leaf row of the table. */
  predicate IsRow(rows: seq<SupplierView>, i: int, k: int, m: int, q: int) {
    && 0 <= i < |rows|
    && 0 <= k < |rows[i].depots|
    && 0 <= m < |rows[i].depots[k].wasteTypes|
    && 0 <= q < |rows[i].depots[k].wasteTypes[m].ewcCodes|
  }

  /** The path of a leaf row, read off the names the row shows. */
  function RowPath(rows: seq<SupplierView>, i: int, k: int, m: int, q: int): Path
    requires IsRow(rows, i, k, m, q)
  {
    var s := rows[i];
    var d := s.depots[k];
    var w := d.wasteTypes[m];
    Path(KeyString(s.supplierName), KeyString(d.depotDispose), KeyString(w.wasteType), KeyString(w.ewcCodes[q].ewcCode))
  }

  /** The `i`th supplier row is the flattened supplier stored under the `i`th key, and shows that
      key; the lower levels below are alike. */
  lemma SupplierRow(t: Tree, i: int, p: Path)
    requires TreeOk(t) && 0 <= i < |t.keys|
    ensures
      && t.Valid()
      && t.keys[i] in t.entries
      && Rows(t)[i] == FlattenSupplier(t.entries[t.keys[i]])
      && KeyString(t.entries[t.keys[i]].supplierName) == t.keys[i]
      && (p.supplier == t.keys[i] ==> SupplierAt(t, p) == Some(t.entries[t.keys[i]]))
  {
    assert SupplierAt(t, p.(supplier := t.keys[i])).Some?;
  }

  lemma DepotRow(t: Tree, p: Path, k: int)
    requires TreeOk(t) && SupplierAt(t, p).Some?
    requires 0 <= k < |SupplierAt(t, p).value.depots.keys|
    ensures var s := SupplierAt(t, p).value; var key := s.depots.keys[k];
      && s.depots.Valid()
      && MapValues(s.depots, FlattenDepot)[k] == FlattenDepot(s.depots.entries[key])
      && KeyString(s.depots.entries[key].depotDispose) == key
      && (p.depot == key ==> DepotAt(t, p) == Some(s.depots.entries[key]))
  {
    var s := SupplierAt(t, p).value;
    assert DepotAt(t, p.(depot := s.depots.keys[k])).Some?;
  }

  lemma WasteRow(t: Tree, p: Path, m: int)
    requires TreeOk(t) && DepotAt(t, p).Some?
    requires 0 <= m < |DepotAt(t, p).value.wasteTypes.keys|
    ensures var d := DepotAt(t, p).value; var key := d.wasteTypes.keys[m];
      && d.wasteTypes.Valid()
      && MapValues(d.wasteTypes, FlattenWaste)[m] == FlattenWaste(d.wasteTypes.entries[key])
      && KeyString(d.wasteTypes.entries[key].wasteType) == key
      && (p.waste == key ==> WasteAt(t, p) == Some(d.wasteTypes.entries[key]))
  {
    var d := DepotAt(t, p).value;
    assert WasteAt(t, p.(waste := d.wasteTypes.keys[m])).Some?;
  }

  lemma LeafRow(t: Tree, p: Path, q: int)
    requires TreeOk(t) && WasteAt(t, p).Some?
    requires 0 <= q < |WasteAt(t, p).value.ewcCodes.keys|
    ensures var w := WasteAt(t, p).value; var key := w.ewcCodes.keys[q];
      && w.ewcCodes.Valid()
      && MapValues(w.ewcCodes, Leaf)[q] == w.ewcCodes.entries[key]
      && KeyString(w.ewcCodes.entries[key].ewcCode) == key
      && (p.ewc == key ==> LeafAt(t, p) == Some(w.ewcCodes.entries[key]))
  {
    var w := WasteAt(t, p).value;
    assert LeafAt(t, p.(ewc := w.ewcCodes.keys[q])).Some?;
  }

  /** A leaf row of the table shows the groups the tree holds on the row's path. */
  lemma RowIsLookup(t: Tree, i: int, k: int, m: int, q: int)
    requires TreeOk(t) && IsRow(Rows(t), i, k, m, q)
    ensures var rows, p := Rows(t), RowPath(Rows(t), i, k, m, q);
      && SupplierAt(t, p).Some? && FlattenSupplier(SupplierAt(t, p).value) == rows[i]
      && DepotAt(t, p).Some? && FlattenDepot(DepotAt(t, p).value) == rows[i].depots[k]
      && WasteAt(t, p).Some? && FlattenWaste(WasteAt(t, p).value) == rows[i].depots[k].wasteTypes[m]
      && LeafAt(t, p) == Some(rows[i].depots[k].wasteTypes[m].ewcCodes[q])
  {
    var p := RowPath(Rows(t), i, k, m, q);
    SupplierRow(t, i, p);
    DepotRow(t, p, k);
    WasteRow(t, p, m);
    LeafRow(t, p, q);
  }

  /** Every leaf of the tree has a row of the table. */
  lemma LeafHasRow(t: Tree, p: Path)
    requires TreeOk(t) && LeafAt(t, p).Some?
    ensures exists i, k, m, q :: IsRow(Rows(t), i, k, m, q) && RowPath(Rows(t), i, k, m, q) == p
  {
    var i :| 0 <= i < |t.keys| && t.keys[i] == p.supplier;
    SupplierRow(t, i, p);
    var s := SupplierAt(t, p).value;
    var k :| 0 <= k < |s.depots.keys| && s.depots.keys[k] == p.depot;
    DepotRow(t, p, k);
    var d := DepotAt(t, p).value;
    var m :| 0 <= m < |d.wasteTypes.keys| && d.wasteTypes.keys[m] == p.waste;
    WasteRow(t, p, m);
    var w := WasteAt(t, p).value;
    var q :| 0 <= q < |w.ewcCodes.keys| && w.ewcCodes.keys[q] == p.ewc;
    LeafRow(t, p, q);
    assert IsRow(Rows(t), i, k, m, q) && RowPath(Rows(t), i, k, m, q) == p;
  }

  /** Two leaf rows with the same path are the same row. */
  lemma RowsDistinct(t: Tree, i: int, k: int, m: int, q: int, i': int, k': int, m': int, q': int)
    requires TreeOk(t) && IsRow(Rows(t), i, k, m, q) && IsRow(Rows(t), i', k', m', q')
    requires RowPath(Rows(t), i, k, m, q) == RowPath(Rows(t), i', k', m', q')
    ensures i == i' && k == k' && m == m' && q == q'
  {
    var p := RowPath(Rows(t), i, k, m, q);
    SupplierRow(t, i, p);
    SupplierRow(t, i', p);
    DepotRow(t, p, k);
    DepotRow(t, p, k');
    WasteRow(t, p, m);
    WasteRow(t, p, m');
    LeafRow(t, p, q);
    LeafRow(t, p, q');
  }

  function WasteRowSpan(w: WasteView): nat { w.rowspan }
  function DepotRowSpan(d: DepotView): nat { d.rowspan }

  /** In the table, a supplier row spans the rows of its depots together and a depot row the rows
      of its waste types together, so the cells of one leaf row line up. */
  lemma RowSpansAddUp(t: Tree, i: int, k: int)
    requires TreeOk(t) && 0 <= i < |Rows(t)| && 0 <= k < |Rows(t)[i].depots|
    ensures Rows(t)[i].rowspan == SumSeq(Map(Rows(t)[i].depots, DepotRowSpan))
    ensures Rows(t)[i].depots[k].rowspan == SumSeq(Map(Rows(t)[i].depots[k].wasteTypes, WasteRowSpan))
  {
    var p := Path(t.keys[i], "", "", "");
    SupplierRow(t, i, p);
    var s := SupplierAt(t, p).value;
    SumAfterMapValues(s.depots, FlattenDepot, DepotRowSpan, DepotSpan);
    DepotRow(t, p, k);
    var p' := p.(depot := s.depots.keys[k]);
    var d := DepotAt(t, p').value;
    assert DepotShape(p'.depot, d);
    SumAfterMapValues(d.wasteTypes, FlattenWaste, WasteRowSpan, WasteSpan);
  }
}
