# Depot view job aggregation, in Dafny

This project models the pure core of the `depotViewCommunity` Lightning web component. The component
shows a customer's waste-collection jobs as a nested table. The core has three parts:

- `applySorting` sorts a copy of the job list by one property and direction. Falsy values sort as `''`.
- `groupData` folds the sorted jobs into four levels of groups: supplier, disposal depot, waste type
  and EWC code. The jobs sit in the EWC-code leaves. Every group counts the leaves below it in
  `rowspan`, and every leaf keeps the earliest and latest delivery date of its jobs.
- The grouped objects are then flattened into nested arrays (`tableData`), which the template renders.

Modules:

- `Jobs` (jobs.dfy): job records, `undefined`/`null`/string property values, JavaScript truthiness,
  and the string a value becomes when it is used as an object key.
- `Comparator` (comparator.dfy): string `<`, the `(a > b) - (a < b)` sign, and the comparator.
- `Sorting` (sorting.dfy): the sort, as an insertion sort on sequences.
- `Dicts` (dicts.dfy): a JavaScript object used as a dictionary. It keeps its keys in first-added
  order, and `Object.values` lists values in that order.
- `Hierarchy` (hierarchy.dfy): the group records, the reduce step and the fold.
- `StepEffects` (step_effects.dfy): what one step does to the group on every path.
- `TreeShape` (tree_shape.dfy): the shape the fold keeps. It covers row counts, the job total and
  null dates above the leaves.
- `Grouping` and `UpperGroups` (grouping.dfy, upper_groups.dfy): the fold's result stated against
  the input jobs alone.
- `Table` and `TableFacts` (table.dfy, table_facts.dfy): the flattened table, `groupData`,
  `applySorting`, and what a rendered row shows.

Interpretation choices:

- A property missing from a job is `undefined`. Used as a key it becomes `"undefined"`, and `null`
  becomes `"null"`. So jobs with no supplier are grouped under the supplier key `"undefined"`.
- A job carries the timestamp its delivery date parses to, or `None` when it has none, as a field
  of its own next to the raw properties. The model does not tie that field to the raw
  `deliveryDate` property.
- `Earlier`/`Later` take the place of `new Date(Math.min(...))`/`new Date(Math.max(...))`.
- The array sort is modelled as a stable insertion sort. ECMAScript 2019 and later require
  `Array.prototype.sort` to be stable, and this comparator is a consistent order on strings, so
  the engine must return the one ordered permutation that keeps tied jobs in input order.
  `Sorting.SortIsTheStableOrder` proves that this list is exactly `Sort`'s, whatever algorithm
  the engine uses.

## Model

| member | source | states |
|---|---|---|
| Comparator.Sign | bam-construct-portal-license/code/depotViewCommunity/depotViewCommunity.js:87-89 | the sign expression is -1, 0 or 1; negative exactly when the first string is less, positive exactly when it is greater, zero exactly when the strings are equal |
| Comparator.SortValue | bam-construct-portal-license/code/depotViewCommunity/depotViewCommunity.js:83-84 | the value sorted by is `''` exactly when the property is falsy (missing, `null` or `''`), and otherwise is the property's string |
| Comparator.Compare | bam-construct-portal-license/code/depotViewCommunity/depotViewCommunity.js:82-90 | the comparator returns only -1, 0 or 1; 0 exactly when the sort values are equal; for `'asc'` negative exactly when a's value is less; for any other direction negative exactly when b's value is less |
| Comparator.CompareAntisymmetric | bam-construct-portal-license/code/depotViewCommunity/depotViewCommunity.js:82-90 | swapping the two jobs negates the comparator's result |
| Comparator.CompareOtherDirectionReverses | bam-construct-portal-license/code/depotViewCommunity/depotViewCommunity.js:87-89 | every direction other than `'asc'` gives the ascending result with the operands swapped, i.e. negated |
| Comparator.CompareFalsyAsEmpty | bam-construct-portal-license/code/depotViewCommunity/depotViewCommunity.js:83-84 | two jobs whose property is falsy compare equal in either direction |
| Comparator.CompareTotal | bam-construct-portal-license/code/depotViewCommunity/depotViewCommunity.js:82-90 | of any two jobs, one does not come after the other |
| Comparator.CompareTransitive | bam-construct-portal-license/code/depotViewCommunity/depotViewCommunity.js:82-90 | "does not come after" is transitive, so the comparator is a consistent order for the sort |
| Sorting.Sort | bam-construct-portal-license/code/depotViewCommunity/depotViewCommunity.js:79-82 | sorting the copy keeps every job as many times as it occurs in the input |
| Sorting.SortIsOrdered | bam-construct-portal-license/code/depotViewCommunity/depotViewCommunity.js:82-90 | no job of the sorted list comes after a later job under the comparator |
| Sorting.SortIsPermutation | bam-construct-portal-license/code/depotViewCommunity/depotViewCommunity.js:79-93 | the sorted list has the input's length and the same count of every job: no job is added or dropped |
| Sorting.SortKeepsSorted | bam-construct-portal-license/code/depotViewCommunity/depotViewCommunity.js:82-90 | a list already in order comes back unchanged |
| Sorting.SortIdempotent | bam-construct-portal-license/code/depotViewCommunity/depotViewCommunity.js:75-93 | sorting again by the same property and direction changes nothing |
| Sorting.SortIsStable | bam-construct-portal-license/code/depotViewCommunity/depotViewCommunity.js:82-90 | jobs with the same sort value, which the comparator ranks 0, come out in their input order, as a stable `Array.prototype.sort` must leave them |
| Sorting.InsertKeepsTies | bam-construct-portal-license/code/depotViewCommunity/depotViewCommunity.js:82-90 | inserting a job puts it after every job already listed that ties with it, and moves no tied job |
| Sorting.SortedTiesUnique | bam-construct-portal-license/code/depotViewCommunity/depotViewCommunity.js:82-90 | two lists in order under the comparator that list the jobs of every sort value in the same order are equal |
| Sorting.SortIsTheStableOrder | bam-construct-portal-license/code/depotViewCommunity/depotViewCommunity.js:79-90 | any list in order under the comparator that keeps tied jobs in input order is `Sort`'s result, so a stable engine sort returns exactly `Sort`'s list |
| Dicts.MapValues | bam-construct-portal-license/code/depotViewCommunity/depotViewCommunity.js:155-158 | `Object.values(obj).map(g)` has one entry per key, the image of that key's value, in key order |
| Dicts.SumAfterMapValues | bam-construct-portal-license/code/depotViewCommunity/depotViewCommunity.js:155-164 | mapping an object's values to arrays keeps any per-value total that the mapping preserves |
| Hierarchy.Earlier | bam-construct-portal-license/code/depotViewCommunity/depotViewCommunity.js:131-134 | the new `firstService` is the smaller of the old one and the job's date; a job with no date changes nothing; it is null only when both are |
| Hierarchy.Later | bam-construct-portal-license/code/depotViewCommunity/depotViewCommunity.js:131-137 | the new `lastService` is the larger of the old one and the job's date; a job with no date changes nothing; it is null only when both are |
| StepEffects.StepSupplierAt | bam-construct-portal-license/code/depotViewCommunity/depotViewCommunity.js:104-107 | one step finds or creates the job's supplier group and files the job under it; every other supplier is untouched |
| StepEffects.StepDepotAt | bam-construct-portal-license/code/depotViewCommunity/depotViewCommunity.js:109-112 | one step finds or creates the job's depot group and files the job under it; every other depot is untouched |
| StepEffects.StepWasteAt | bam-construct-portal-license/code/depotViewCommunity/depotViewCommunity.js:114-117 | one step finds or creates the job's waste-type group and files the job under it; every other waste type is untouched |
| StepEffects.StepLeafAt | bam-construct-portal-license/code/depotViewCommunity/depotViewCommunity.js:118-138 | one step finds or creates the job's EWC leaf, appends the job and widens the date range; every other leaf is untouched |
| TreeShape.FileInWasteTypeShape | bam-construct-portal-license/code/depotViewCommunity/depotViewCommunity.js:140-149 | bumping a waste type exactly when a new EWC child is created keeps its rowspan equal to its number of EWC children |
| TreeShape.StepOk | bam-construct-portal-license/code/depotViewCommunity/depotViewCommunity.js:98-150 | one reduce step keeps every group under its own key, the leaves at rowspan 1, every upper rowspan the sum of its children's, and the upper date ranges null |
| TreeShape.FoldOk | bam-construct-portal-license/code/depotViewCommunity/depotViewCommunity.js:98-152 | the whole reduce keeps that shape, starting from `{}` |
| TreeShape.StepAddsOneJob | bam-construct-portal-license/code/depotViewCommunity/depotViewCommunity.js:127 | one step adds exactly one job to the tree |
| TreeShape.FoldKeepsEveryJob | bam-construct-portal-license/code/depotViewCommunity/depotViewCommunity.js:98-152 | the leaves together hold as many jobs as the input has |
| TreeShape.FoldShapeAt | bam-construct-portal-license/code/depotViewCommunity/depotViewCommunity.js:98-152 | the shape at any one path of the folded tree, with the top object's keys listed once |
| Grouping.PathsOfMembers | bam-construct-portal-license/code/depotViewCommunity/depotViewCommunity.js:99 | a path is among the paths of the jobs exactly when some job has it |
| Grouping.JobsAtNonEmpty | bam-construct-portal-license/code/depotViewCommunity/depotViewCommunity.js:127 | a path has jobs exactly when some job is on it |
| Grouping.JobsAtAppend | bam-construct-portal-license/code/depotViewCommunity/depotViewCommunity.js:127 | selecting a path's jobs distributes over concatenation, so the selection keeps input order |
| Grouping.JobsAtSingle | bam-construct-portal-license/code/depotViewCommunity/depotViewCommunity.js:127 | a single job is selected exactly when it is on the path |
| Grouping.JobsAtCounts | bam-construct-portal-license/code/depotViewCommunity/depotViewCommunity.js:127 | a path's jobs are every copy of every input job on the path, and nothing else |
| Grouping.EarlierExtends | bam-construct-portal-license/code/depotViewCommunity/depotViewCommunity.js:130-135 | a running `firstService` stays the earliest date among the jobs seen: null exactly when none has a date, otherwise a date some job has and no dated job precedes |
| Grouping.LaterExtends | bam-construct-portal-license/code/depotViewCommunity/depotViewCommunity.js:130-138 | a running `lastService` stays the latest date among the jobs seen, in the same sense |
| Grouping.EarliestNotAfterLatest | bam-construct-portal-license/code/depotViewCommunity/depotViewCommunity.js:130-138 | a date range is either null at both ends or has `firstService <= lastService` |
| Grouping.FileInLeafDates | bam-construct-portal-license/code/depotViewCommunity/depotViewCommunity.js:127-138 | appending a job to a leaf keeps the leaf's range the earliest and latest date of its jobs |
| Grouping.FoldLeafAt | bam-construct-portal-license/code/depotViewCommunity/depotViewCommunity.js:118-138 | the leaf of a path exists exactly when some job is on the path; it holds exactly that path's jobs in input order, with their earliest and latest date |
| Grouping.BumpIsNewPath | bam-construct-portal-license/code/depotViewCommunity/depotViewCommunity.js:118-125 | `newEwcCode` is set exactly when no earlier job had the same path |
| Grouping.PathsUnderAppend | bam-construct-portal-license/code/depotViewCommunity/depotViewCommunity.js:140-149 | a job adds one distinct path below each group on its path when its path is new, and nothing elsewhere |
| Grouping.FirstUnderIsFirst | bam-construct-portal-license/code/depotViewCommunity/depotViewCommunity.js:104-112 | the job a group is created from is the first in the input whose path falls under it |
| UpperGroups.FoldWasteAt | bam-construct-portal-license/code/depotViewCommunity/depotViewCommunity.js:114-149 | a waste-type group exists exactly when some job falls under it; its rowspan is the number of distinct leaf paths below it; it keeps the first such job's waste type |
| UpperGroups.FoldDepotAt | bam-construct-portal-license/code/depotViewCommunity/depotViewCommunity.js:109-149 | a depot group exists exactly when some job falls under it; its rowspan is the number of distinct leaf paths below it; its name and `link` come from the first such job and are never overwritten |
| UpperGroups.FoldSupplierAt | bam-construct-portal-license/code/depotViewCommunity/depotViewCommunity.js:104-149 | a supplier group exists exactly when some job falls under it; its rowspan is the number of distinct leaf paths below it; its name, `link`, `licenseNumber` and `licenseExpiry` come from the first such job and are never overwritten |
| UpperGroups.SeenSuppliersMembers | bam-construct-portal-license/code/depotViewCommunity/depotViewCommunity.js:104-107 | the suppliers listed are exactly those some job names |
| UpperGroups.SeenSuppliersPrefix | bam-construct-portal-license/code/depotViewCommunity/depotViewCommunity.js:104-107 | a later job never reorders the suppliers already listed |
| UpperGroups.FoldSupplierOrder | bam-construct-portal-license/code/depotViewCommunity/depotViewCommunity.js:104-107 | the result object's supplier keys are the jobs' suppliers in order of first appearance |
| Table.GroupData | bam-construct-portal-license/code/depotViewCommunity/depotViewCommunity.js:97-164 | an empty job list gives an empty table |
| Table.ApplySorting | bam-construct-portal-license/code/depotViewCommunity/depotViewCommunity.js:75-95 | the stored job list is a permutation of the input with its length, and an empty list gives an empty table |
| Table.RowIsLookup | bam-construct-portal-license/code/depotViewCommunity/depotViewCommunity.js:155-164 | each leaf row of the flattened table shows the groups the result object holds on the row's path |
| Table.LeafHasRow | bam-construct-portal-license/code/depotViewCommunity/depotViewCommunity.js:155-164 | every leaf of the result object appears as a row of the table |
| Table.RowsDistinct | bam-construct-portal-license/code/depotViewCommunity/depotViewCommunity.js:155-164 | two leaf rows showing the same path are the same row |
| Table.RowSpansAddUp | bam-construct-portal-license/code/depotViewCommunity/depotViewCommunity.js:140-164 | a supplier row spans its depot rows together, and a depot row its waste-type rows together |
| TableFacts.GroupDataLeaf | bam-construct-portal-license/code/depotViewCommunity/depotViewCommunity.js:118-138 | a leaf row holds exactly the jobs on its path, in input order, spans one row, and shows their earliest and latest delivery date |
| TableFacts.GroupDataWasteType | bam-construct-portal-license/code/depotViewCommunity/depotViewCommunity.js:114-149 | a waste-type row spans as many rows as it has EWC codes, which is the number of distinct leaf paths below it; it has no date range |
| TableFacts.GroupDataDepot | bam-construct-portal-license/code/depotViewCommunity/depotViewCommunity.js:109-149 | a depot row spans the distinct leaf paths below it, shows the first such job's depot and link, and has no date range |
| TableFacts.GroupDataSupplier | bam-construct-portal-license/code/depotViewCommunity/depotViewCommunity.js:104-149 | a supplier row spans the distinct leaf paths below it, shows the first such job's name, link and licence, and has no date range |
| TableFacts.FlattenKeepsJobs | bam-construct-portal-license/code/depotViewCommunity/depotViewCommunity.js:155-164 | flattening a group neither drops nor repeats a job |
| TableFacts.GroupDataKeepsEveryJob | bam-construct-portal-license/code/depotViewCommunity/depotViewCommunity.js:98-164 | the table lists exactly as many jobs as the input has |
| TableFacts.GroupDataFindsEveryPath | bam-construct-portal-license/code/depotViewCommunity/depotViewCommunity.js:98-164 | every path some job is on has a leaf row |
| TableFacts.GroupDataRowsDistinct | bam-construct-portal-license/code/depotViewCommunity/depotViewCommunity.js:98-164 | no two leaf rows show the same path |
| TableFacts.EveryJobHasItsRow | bam-construct-portal-license/code/depotViewCommunity/depotViewCommunity.js:127 | every input job is in the leaf row of its own path |
| TableFacts.RowHoldsOnlyItsPath | bam-construct-portal-license/code/depotViewCommunity/depotViewCommunity.js:127 | a leaf row holds only jobs of its own path, so with the two lemmas above every job is in exactly one leaf row |
| TableFacts.GroupDataSpansAddUp | bam-construct-portal-license/code/depotViewCommunity/depotViewCommunity.js:140-164 | in the table built from the jobs, supplier and depot rowspans are the sums of their children's |
| TableFacts.GroupDataSupplierOrder | bam-construct-portal-license/code/depotViewCommunity/depotViewCommunity.js:104-158 | the table has one supplier row per supplier, in the order the suppliers first appear in the input |
| TableFacts.JobsAtKeepsOrder | bam-construct-portal-license/code/depotViewCommunity/depotViewCommunity.js:127 | the jobs of one path, taken from a sorted list, are still sorted |
| TableFacts.ApplySortingLeaf | bam-construct-portal-license/code/depotViewCommunity/depotViewCommunity.js:75-152 | after sorting, each leaf row lists its path's jobs in sorted order, with every copy of every input job on that path and no other job |
| TableFacts.ApplySortingKeepsEveryJob | bam-construct-portal-license/code/depotViewCommunity/depotViewCommunity.js:75-164 | sorting and grouping together neither drop nor repeat a job |

## Left out

- Remote data: fetching sites and jobs from Apex, wired properties and the promise chain (lines 19-66). These are I/O; the model starts from the job list.
- UI plumbing: component state, the sort-event handler, the site handlers, `showToast` and `console.log` (lines 1-17, 34-47, 68-73, 166, 170-177).
- Date parsing: `new Date(deliveryDate)` is not modelled. A job carries the integer timestamp its delivery date parses to, or `None` when it has no delivery date, separately from its raw properties; nothing ties the two. An unparseable date gives `NaN` in JavaScript, and that case is not modelled.
- Object key order: JavaScript enumerates integer-like keys (such as numeric EWC codes) first, in ascending numeric order, before other keys. `Dicts` keeps pure first-added order, so for such keys the model's row order can differ from the component's.
- Inherited property names: a key such as `"constructor"` or `"toString"` finds a property inherited from `Object.prototype`, so `!acc[key]` is false, no group is created, and the next line throws. The model treats every key as absent until it is added.
- Mixed-type sorting: the comparator is modelled on string values only. Numbers, booleans and objects, and their coercions under `<` and `>`, are not modelled.
- String order: `StrLess` compares Dafny characters (Unicode scalar values). JavaScript compares UTF-16 code units, so the two orders differ only for characters outside the Basic Multilingual Plane.
- Sort algorithm: the engine's algorithm is not modelled. The order it must produce is: ECMAScript 2019 and later require a stable sort, and `Sorting.SortIsTheStableOrder` shows that the only ordered, stable result is `Sort`'s. Engines from before that requirement could place tied jobs differently; `Sorting.SortKeepsSorted` and `Sorting.SortIdempotent` hold for the program only under a stable sort.
- Row order below suppliers: the first-seen order of keys is proved for the supplier level only (`UpperGroups.FoldSupplierOrder`). Depots, waste types and EWC codes use the same `Dicts.Dict.Put`, but their order is not stated.
