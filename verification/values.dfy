/** Values that the settings store and the remote services exchange.

    A settings record is a JavaScript object whose properties were
    persisted as JSON; a reply body is a parsed JSON object. Both are
    modelled as finite maps from property names to JSON-like values.
    A property holding `undefined` is not stored, so it is simply absent. */
module Values {

  datatype Option<+T> = None | Some(value: T)

  /** How a promise of the source ends: it resolves with a value, it
      rejects (a JSON parse failure or a thrown error), or its callback
      never fires so that it never settles. */
  datatype Outcome<+T> = Resolved(value: T) | Rejected | Pending

  /** JSON-like value. Numbers are integers in this model. */
  datatype Value =
    | Null
    | Bool(b: bool)
    | Num(n: int)
    | Str(s: string)
    | List(items: seq<Value>)
    | Obj(fields: map<string, Value>)

  type Record = map<string, Value>

  /** JavaScript truthiness: false, 0, "" and null are falsy; arrays and
      objects, even empty ones, are truthy. */
  predicate Truthy(v: Value) {
    match v
    case Null => false
    case Bool(b) => b
    case Num(n) => n != 0
    case Str(s) => s != ""
    case List(_) => true
    case Obj(_) => true
  }

  /** `rec.k`: the stored value, or None for `undefined`. */
  function Lookup(rec: Record, k: string): (r: Option<Value>)
    ensures r.Some? <==> k in rec
    ensures r.Some? ==> r.value == rec[k]
  {
    if k in rec then Some(rec[k]) else None
  }

  /** Truthiness of an optional value; `undefined` is falsy. */
  predicate Present(v: Option<Value>) {
    v.Some? && Truthy(v.value)
  }

  /** `!!rec.k` */
  predicate TruthyAt(rec: Record, k: string) {
    Present(Lookup(rec, k))
  }

  /** `rec.k = v`, where assigning `undefined` removes the property. */
  function Assign(rec: Record, k: string, v: Option<Value>): (r: Record)
    ensures Lookup(r, k) == v
    ensures forall j :: j != k ==> Lookup(r, j) == Lookup(rec, j)
  {
    match v
    case Some(x) => rec[k := x]
    case None => rec - {k}
  }

  /** `Number(v)`, with NaN as None: `undefined` and objects are NaN, null
      and false are 0, true is 1, "" and [] are 0. Numeric text is not
      converted: every non-empty string and non-empty array reads as NaN. */
  function NumberOf(v: Option<Value>): (r: Option<int>)
    ensures v == None ==> r == None
    ensures v.Some? && v.value.Num? ==> r == Some(v.value.n)
    ensures r.Some? && r.value != 0 ==> Present(v)
  {
    match v
    case None => None
    case Some(Null) => Some(0)
    case Some(Bool(b)) => Some(if b then 1 else 0)
    case Some(Num(n)) => Some(n)
    case Some(Str(s)) => if s == "" then Some(0) else None
    case Some(List(items)) => if items == [] then Some(0) else None
    case Some(Obj(_)) => None
  }
}
