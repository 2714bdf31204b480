/** The two database entities and the loosely typed field values the front-end passes around. */
module Records {
  import opened Wrappers

  /** A field value as the front-end holds it. `Number` is an integer read from a decimal literal;
      `NonInteger` stands for any other number the browser hands over (a fraction, an exponent form),
      whose value the model does not compute. */
  datatype Value = Text(text: string) | Number(number: int) | NonInteger(literal: string) | Null

  /** JavaScript truthiness: the empty string, zero and null are falsy. */
  predicate Truthy(v: Value) {
    match v
    case Text(s) => s != ""
    case Number(n) => n != 0
    case NonInteger(_) => true
    case Null => false
  }

  /** A `Partial<Vehicle>`: the columns that are present, by name. */
  type Row = map<string, Value>

  /** `row[key]`, reading a missing key as null (every use here treats `undefined` like `null`). */
  function Field(row: Row, key: string): Value {
    if key in row then row[key] else Null
  }

  /** A row of the `branches` table. */
  datatype Branch = Branch(id: string, name: string, createdAt: string)

  /** A row of the `vehicles` table: its identifier and its other columns. */
  datatype Vehicle = Vehicle(id: string, columns: Row)

  /** The branch a vehicle belongs to (`vehicle.branch_id`). */
  function BranchIdOf(v: Vehicle): Value {
    Field(v.columns, "branch_id")
  }

  /** `branches.findIndex(b => b.id === id)` searching from `from`. */
  function FindBranchFrom(branches: seq<Branch>, id: string, from: nat): (r: int)
    decreases |branches| - from
    ensures r == -1 || (from <= r < |branches| && branches[r].id == id)
    ensures r == -1 ==> forall k :: from <= k < |branches| ==> branches[k].id != id
    ensures r != -1 ==> forall k :: from <= k < r ==> branches[k].id != id
  {
    if from >= |branches| then -1
    else if branches[from].id == id then from
    else FindBranchFrom(branches, id, from + 1)
  }

  /** `branches.find(b => b.id === id)`: the first branch with that identifier, if any. */
  function FindBranch(branches: seq<Branch>, id: string): (r: Option<Branch>)
    ensures r.None? <==> forall k :: 0 <= k < |branches| ==> branches[k].id != id
    ensures r.Some? ==> exists k :: 0 <= k < |branches| && branches[k] == r.value
                                    && r.value.id == id && forall m :: 0 <= m < k ==> branches[m].id != id
  {
    var k := FindBranchFrom(branches, id, 0);
    if k == -1 then None else Some(branches[k])
  }

  /** The name of the first branch with that identifier, or `fallback` when there is none. */
  function BranchNameOr(branches: seq<Branch>, id: string, fallback: string): (r: string)
    ensures (forall k :: 0 <= k < |branches| ==> branches[k].id != id) ==> r == fallback
    ensures (exists k :: 0 <= k < |branches| && branches[k].id == id) ==>
              exists k :: 0 <= k < |branches| && branches[k].id == id && branches[k].name == r
                          && forall m :: 0 <= m < k ==> branches[m].id != id
  {
    match FindBranch(branches, id)
    case Some(b) => b.name
    case None => fallback
  }
}
