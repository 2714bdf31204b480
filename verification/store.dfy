/** The hosted database as the application reaches it through its client: two tables held in memory,
    and, for every call, a fault chosen by the caller that stands for whatever the remote side decides
    (a constraint violation, a permission refusal, a lost connection). The database itself enforces
    no constraint in this model; the only refusal it makes on its own is that of `.single()`. */
module Store {
  import opened Wrappers
  import opened Records
  import opened Lists

  /** An error the database reports: a PostgreSQL SQLSTATE (or client) code and a message. */
  datatype PgError = PgError(code: string, message: string)

  /** The `{ data, error }` pair that every database call resolves to. */
  datatype Response<T> = Response(data: Option<T>, error: Option<PgError>)

  /** How the database answers a read: with the rows, with a null `data` and no error, or with an error. */
  datatype ReadFault = Served | ServedNull | ReadFails(error: PgError)

  /** The answer to a read whose rows are `rows`. */
  function Read<T>(rows: T, fault: ReadFault): Response<T> {
    match fault
    case Served => Response(Some(rows), None)
    case ServedNull => Response(None, None)
    case ReadFails(e) => Response(None, Some(e))
  }

  /** What `.single()` reports when the statement did not return exactly one row; the statement
      then takes no effect. */
  const NotSingleRow := PgError("PGRST116", "JSON object requested, multiple (or no) rows returned")

  /** `.eq("branch_id", branchId)` on vehicles. */
  function OfBranch(vehicles: seq<Vehicle>, branchId: string): seq<Vehicle> {
    Filter(vehicles, (v: Vehicle) => BranchIdOf(v) == Text(branchId))
  }

  lemma OfBranchMembers(vehicles: seq<Vehicle>, branchId: string, v: Vehicle)
    ensures v in OfBranch(vehicles, branchId) <==> v in vehicles && BranchIdOf(v) == Text(branchId)
  {
    FilterMembers(vehicles, (v: Vehicle) => BranchIdOf(v) == Text(branchId), v);
  }

  function VehicleIds(vehicles: seq<Vehicle>): seq<string> {
    Map(vehicles, (v: Vehicle) => v.id)
  }

  /** `.eq("id", id)` on branches. */
  function BranchesWithId(branches: seq<Branch>, id: string): seq<Branch> {
    Filter(branches, (b: Branch) => b.id == id)
  }

  /** `.eq("id", id)` on vehicles. */
  function VehiclesWithId(vehicles: seq<Vehicle>, id: string): seq<Vehicle> {
    Filter(vehicles, (v: Vehicle) => v.id == id)
  }

  lemma VehiclesWithIdMembers(vehicles: seq<Vehicle>, id: string, v: Vehicle)
    ensures v in VehiclesWithId(vehicles, id) <==> v in vehicles && v.id == id
  {
    FilterMembers(vehicles, (v: Vehicle) => v.id == id, v);
  }

  /** `from("branches").delete().eq("id", id)` on the table's rows. */
  function RemoveBranch(branches: seq<Branch>, id: string): seq<Branch> {
    Filter(branches, (b: Branch) => b.id != id)
  }

  lemma RemoveBranchMembers(branches: seq<Branch>, id: string, b: Branch)
    ensures b in RemoveBranch(branches, id) <==> b in branches && b.id != id
  {
    FilterMembers(branches, (b: Branch) => b.id != id, b);
  }

  /** `from("vehicles").delete().eq("id", id)` on the table's rows. */
  function RemoveVehicle(vehicles: seq<Vehicle>, id: string): seq<Vehicle> {
    Filter(vehicles, (v: Vehicle) => v.id != id)
  }

  /** `from("branches").update({ name }).eq("id", id)` on the table's rows. */
  function RenameBranch(branches: seq<Branch>, id: string, name: string): seq<Branch> {
    Map(branches, (b: Branch) => if b.id == id then b.(name := name) else b)
  }

  /** The columns of a vehicle after an update with `patch`; an identifier in the patch is not applied. */
  function Patched(v: Vehicle, patch: Row): Vehicle {
    Vehicle(v.id, v.columns + (patch - {"id"}))
  }

  /** `from("vehicles").update(patch).eq("id", id)` on the table's rows. */
  function PatchVehicle(vehicles: seq<Vehicle>, id: string, patch: Row): seq<Vehicle> {
    Map(vehicles, (v: Vehicle) => if v.id == id then Patched(v, patch) else v)
  }

  /** The row an insert creates: the supplied columns over the database's defaults for
      `created_at` and `updated_at`, under the identifier the database generated. */
  function NewVehicle(columns: Row, newId: string, now: string): Vehicle {
    Vehicle(newId, map["created_at" := Text(now), "updated_at" := Text(now)] + columns)
  }

  /** Every vehicle refers to a branch that exists (the `vehicles.branch_id` foreign key). */
  ghost predicate Integrity(branches: seq<Branch>, vehicles: seq<Vehicle>) {
    forall v :: v in vehicles ==> exists b :: b in branches && BranchIdOf(v) == Text(b.id)
  }

  class Database {
    var branches: seq<Branch>
    var vehicles: seq<Vehicle>

    constructor (branches: seq<Branch>, vehicles: seq<Vehicle>)
      ensures this.branches == branches && this.vehicles == vehicles
    {
      this.branches := branches;
      this.vehicles := vehicles;
    }

    /** `from("branches").select("*")`. */
    method SelectBranches(fault: ReadFault) returns (r: Response<seq<Branch>>)
      ensures r == Read(branches, fault)
    {
      r := Read(branches, fault);
    }

    /** `from("vehicles").select(...)`, narrowed by `.eq("branch_id", ...)` when a branch is given. */
    method SelectVehicles(branchId: Option<string>, fault: ReadFault) returns (r: Response<seq<Vehicle>>)
      ensures r == Read(if branchId.Some? then OfBranch(vehicles, branchId.value) else vehicles, fault)
    {
      var rows := vehicles;
      if branchId.Some? {
        rows := OfBranch(rows, branchId.value);
      }
      r := Read(rows, fault);
    }

    /** `from("vehicles").select("id").eq("branch_id", branchId)`. */
    method SelectVehicleIdsOfBranch(branchId: string, fault: ReadFault) returns (r: Response<seq<string>>)
      ensures r == Read(VehicleIds(OfBranch(vehicles, branchId)), fault)
    {
      r := Read(VehicleIds(OfBranch(vehicles, branchId)), fault);
    }

    /** `from("branches").insert({ name }).select().single()`; the database generates `newId` and `now`. */
    method InsertBranch(name: string, fault: Option<PgError>, newId: string, now: string)
      returns (r: Response<Branch>)
      modifies this
      ensures vehicles == old(vehicles)
      ensures fault.Some? ==> r == Response(None, fault) && branches == old(branches)
      ensures fault.None? ==> r == Response(Some(Branch(newId, name, now)), None)
                              && branches == old(branches) + [Branch(newId, name, now)]
    {
      if fault.Some? {
        r := Response(None, fault);
      } else {
        var b := Branch(newId, name, now);
        branches := branches + [b];
        r := Response(Some(b), None);
      }
    }

    /** `from("branches").update({ name }).eq("id", id).select().single()`. */
    method UpdateBranchName(id: string, name: string, fault: Option<PgError>) returns (r: Response<Branch>)
      modifies this
      ensures vehicles == old(vehicles)
      ensures fault.Some? ==> r == Response(None, fault) && branches == old(branches)
      ensures fault.None? && |BranchesWithId(old(branches), id)| != 1 ==>
                r == Response(None, Some(NotSingleRow)) && branches == old(branches)
      ensures fault.None? && |BranchesWithId(old(branches), id)| == 1 ==>
                r == Response(Some(BranchesWithId(old(branches), id)[0].(name := name)), None)
                && branches == RenameBranch(old(branches), id, name)
    {
      var matching := BranchesWithId(branches, id);
      if fault.Some? {
        r := Response(None, fault);
      } else if |matching| != 1 {
        r := Response(None, Some(NotSingleRow));
      } else {
        branches := RenameBranch(branches, id, name);
        r := Response(Some(matching[0].(name := name)), None);
      }
    }

    /** `from("branches").delete().eq("id", id)`. */
    method DeleteBranchRows(id: string, fault: Option<PgError>) returns (error: Option<PgError>)
      modifies this
      ensures vehicles == old(vehicles)
      ensures error == fault
      ensures branches == if fault.Some? then old(branches) else RemoveBranch(old(branches), id)
    {
      error := fault;
      if fault.None? {
        branches := RemoveBranch(branches, id);
      }
    }

    /** `from("vehicles").insert(columns).select().single()`. */
    method InsertVehicle(columns: Row, fault: Option<PgError>, newId: string, now: string)
      returns (r: Response<Vehicle>)
      modifies this
      ensures branches == old(branches)
      ensures fault.Some? ==> r == Response(None, fault) && vehicles == old(vehicles)
      ensures fault.None? ==> r == Response(Some(NewVehicle(columns, newId, now)), None)
                              && vehicles == old(vehicles) + [NewVehicle(columns, newId, now)]
    {
      if fault.Some? {
        r := Response(None, fault);
      } else {
        var v := NewVehicle(columns, newId, now);
        vehicles := vehicles + [v];
        r := Response(Some(v), None);
      }
    }

    /** `from("vehicles").update(patch).eq("id", id).select().single()`. */
    method UpdateVehicleRow(id: string, patch: Row, fault: Option<PgError>) returns (r: Response<Vehicle>)
      modifies this
      ensures branches == old(branches)
      ensures fault.Some? ==> r == Response(None, fault) && vehicles == old(vehicles)
      ensures fault.None? && |VehiclesWithId(old(vehicles), id)| != 1 ==>
                r == Response(None, Some(NotSingleRow)) && vehicles == old(vehicles)
      ensures fault.None? && |VehiclesWithId(old(vehicles), id)| == 1 ==>
                r == Response(Some(Patched(VehiclesWithId(old(vehicles), id)[0], patch)), None)
                && vehicles == PatchVehicle(old(vehicles), id, patch)
    {
      var matching := VehiclesWithId(vehicles, id);
      if fault.Some? {
        r := Response(None, fault);
      } else if |matching| != 1 {
        r := Response(None, Some(NotSingleRow));
      } else {
        vehicles := PatchVehicle(vehicles, id, patch);
        r := Response(Some(Patched(matching[0], patch)), None);
      }
    }

    /** `from("vehicles").delete().eq("id", id)`. */
    method DeleteVehicleRows(id: string, fault: Option<PgError>) returns (error: Option<PgError>)
      modifies this
      ensures branches == old(branches)
      ensures error == fault
      ensures vehicles == if fault.Some? then old(vehicles) else RemoveVehicle(old(vehicles), id)
    {
      error := fault;
      if fault.None? {
        vehicles := RemoveVehicle(vehicles, id);
      }
    }
  }
}
