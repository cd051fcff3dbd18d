/** Job records as the depot view receives them, and the grouping keys read from them. */
module Jobs {

  /** `None` stands for JavaScript's `undefined` or `null` where the source only cares about absence. */
  datatype Option<+T> = None | Some(value: T) {

    /** The carried value, or `default` when there is none. */
    function GetOr(default: T): T {
      match this
      case Some(v) => v
      case None => default
    }
  }

  /** A property value stored on a job record: `null` or a string. */
  datatype Value = Null | Str(s: string)

  /** A property as read from a record: `None` when the record has no such property (`undefined`). */
  type Field = Option<Value>

  /** A job record: its properties by name, and, carried separately from them, the timestamp its
      delivery date parses to (`None` for a job that has no delivery date and so adds no date to
      its leaf). The model does not tie this timestamp to the raw `deliveryDate` property. */
  datatype Job = Job(props: map<string, Value>, deliveryDate: Option<int>)

  /** `item[name]`. */
  function Get(j: Job, name: string): Field {
    if name in j.props then Some(j.props[name]) else None
  }

  /** JavaScript truthiness of a property value: only a non-empty string is truthy. */
  predicate Truthy(f: Field) {
    f.Some? && f.value.Str? && f.value.s != ""
  }

  /** The string a property value becomes when it is used as an object key or appended to a string. */
  function KeyString(f: Field): string {
    match f
    case None => "undefined"
    case Some(Null) => "null"
    case Some(Str(s)) => s
  }

  /** The four grouping keys of a job, outermost first. */
  datatype Path = Path(supplier: string, depot: string, waste: string, ewc: string)

  /** The path a job is filed under: its supplier, disposal depot, waste type and EWC code, each
      coerced to an object key. */
  function PathOf(j: Job): Path {
    Path(KeyString(Get(j, "supplierName")), KeyString(Get(j, "depotDispose")),
         KeyString(Get(j, "wasteType")), KeyString(Get(j, "ewcCode")))
  }

  /** Two paths share their first `depth` keys (depth 1: the supplier, ..., depth 4: the whole path). */
  predicate Agree(p: Path, q: Path, depth: nat) {
    && (depth >= 1 ==> p.supplier == q.supplier)
    && (depth >= 2 ==> p.depot == q.depot)
    && (depth >= 3 ==> p.waste == q.waste)
    && (depth >= 4 ==> p.ewc == q.ewc)
  }
}
