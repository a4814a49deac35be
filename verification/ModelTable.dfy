// The generated models: the field types _ModelBuilder emits, the table of
// model classes, and when a table accepts a JSON value. Acceptance is
// structural: Pydantic's coercions are not part of this model.
module ModelTable {
  import opened Wrappers
  import opened JsonValues
  import SchemaMeaning

  datatype PyType =
    | AnyType
    | Primitive(token: string)
    | ListOf(element: PyType)
    | UnionOf(options: seq<PyType>)
    | Literal(values: seq<Json>)
    | ModelType(name: string)       // a model class
    | ForwardRef(name: string)      // a class still being built, by name

  datatype Field = Field(name: string, typ: PyType, required: bool)

  type Table = map<string, seq<Field>>

  // The names of the models a type mentions.
  function Mentions(t: PyType): set<string> {
    match t
    case ListOf(e) => Mentions(e)
    case UnionOf(ts) => set i, n | 0 <= i < |ts| && n in Mentions(ts[i]) :: n
    case ModelType(n) => {n}
    case ForwardRef(n) => {n}
    case _ => {}
  }

  // Every class or forward reference in the table names a model of the table.
  ghost predicate Closed(table: Table) {
    forall m, i :: m in table && 0 <= i < |table[m]| ==> Mentions(table[m][i].typ) <= table.Keys
  }

  predicate TypeAccepts(table: Table, t: PyType, v: Json)
    decreases v, 1, t
  {
    match t
    case AnyType => true
    case Primitive(token) => SchemaMeaning.HasType(token, v)
    case ListOf(e) => v.Arr? && forall i :: 0 <= i < |v.items| ==> TypeAccepts(table, e, v.items[i])
    case UnionOf(ts) => exists i :: 0 <= i < |ts| && TypeAccepts(table, ts[i], v)
    case Literal(values) => v in values
    case ModelType(n) => n in table && ModelAccepts(table, table[n], v)
    case ForwardRef(n) => n in table && ModelAccepts(table, table[n], v)
  }

  // Unknown members are ignored; a missing one is fine unless required.
  predicate ModelAccepts(table: Table, fields: seq<Field>, v: Json)
    decreases v, 0
  {
    && v.Obj?
    && forall i :: 0 <= i < |fields| ==>
         if Has(v.members, fields[i].name)
         then TypeAccepts(table, fields[i].typ, Lookup(v.members, fields[i].name).value)
         else !fields[i].required
  }
}
