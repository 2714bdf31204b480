/** The data-access layer (`lib/api.ts`): every function reads or writes the database once or twice
    and turns its answer into a value or a thrown error. The pure functions below are the decision
    rules; the methods apply them to a `Store.Database`. */
module Api {
  import opened Wrappers
  import opened Records
  import opened Lists
  import opened JsStrings
  import opened JsNumbers
  import opened Store

  /** What an API function throws: an `Error` with its own message, or the database's error object. */
  datatype Exception = AppError(message: string) | DbError(error: PgError)

  /** `err instanceof Error ? err.message : fallback`. The database client's error is a plain
      object, not an `Error`, so only messages the application wrote itself are shown. */
  function MessageOr(x: Exception, fallback: string): (m: string)
    ensures x.AppError? ==> m == x.message
    ensures x.DbError? ==> m == fallback
  {
    match x
    case AppError(message) => message
    case DbError(_) => fallback
  }

  /** The calls the components make into this layer, in the order they make them. */
  datatype Call =
    | FetchBranchesCall
    | FetchVehiclesCall(branchId: Option<string>)
    | AddBranchCall(name: string)
    | UpdateBranchCall(id: string, name: string)
    | DeleteBranchCall(id: string)
    | AddVehicleCall(vehicle: Row)
    | DeleteVehicleCall(id: string)

  /** PostgreSQL's `unique_violation`. */
  const UniqueViolation := "23505"
  /** The two codes the application reads as a refusal of permission. */
  const PermissionCodes := {"42501", "42503"}

  const NameRequired := "Branch name is required"
  const DuplicateBranchName := "A branch with this name already exists."
  const DuplicateRegistration := "A vehicle with this registration number already exists."
  const DuplicateVin := "A vehicle with this VIN already exists."
  const VehicleConflict := "This vehicle conflicts with an existing record."
  const CheckFailedPrefix := "Failed to check vehicles: "

  /** The three writes to the branches table. */
  datatype BranchWrite = AddWrite | UpdateWrite | DeleteWrite

  function Verb(op: BranchWrite): string {
    match op
    case AddWrite => "add"
    case UpdateWrite => "update"
    case DeleteWrite => "delete"
  }

  function PermissionMessage(op: BranchWrite): string {
    "You don't have permission to " + Verb(op) + " branches. Please check your database permissions."
  }

  function FailurePrefix(op: BranchWrite): string {
    "Failed to " + Verb(op) + " branch: "
  }

  /** How a failed branch write is classified; deletion does not look for duplicates. */
  datatype Kind = Duplicate | Permission | Other

  function KindOf(op: BranchWrite, e: PgError): Kind {
    if op != DeleteWrite && e.code == UniqueViolation then Duplicate
    else if e.code in PermissionCodes then Permission
    else Other
  }

  /** The check and trimming that `addBranch` and `updateBranch` apply to the name. */
  function ValidateBranchName(name: string): (r: Result<string, Exception>)
    ensures r.Err? <==> IsBlank(name)
    ensures r.Err? ==> r.error == AppError(NameRequired)
    ensures r.Ok? ==> r.value != [] && IsTrimOf(name, r.value)
  {
    var trimmed := Trim(name);
    if name == "" || trimmed == "" then Err(AppError(NameRequired)) else Ok(trimmed)
  }

  /** A name that passed the check passes it again unchanged. */
  lemma ValidateBranchNameIdempotent(name: string)
    requires ValidateBranchName(name).Ok?
    ensures ValidateBranchName(ValidateBranchName(name).value) == ValidateBranchName(name)
  {
    TrimIdempotent(name);
  }

  /** The error a failed branch write throws. */
  function BranchWriteError(op: BranchWrite, e: PgError): (x: Exception)
    ensures x.AppError?
    ensures KindOf(op, e) == Duplicate ==> x.message == DuplicateBranchName
    ensures KindOf(op, e) == Permission ==> x.message == PermissionMessage(op)
    ensures KindOf(op, e) == Other ==> x.message == FailurePrefix(op) + e.message
  {
    if op != DeleteWrite && e.code == UniqueViolation then AppError(DuplicateBranchName)
    else if e.code in PermissionCodes then AppError(PermissionMessage(op))
    else AppError("Failed to " + Verb(op) + " branch: " + e.message)
  }

  /** The user can tell the kinds of failure apart from the message alone, and a failure of
      no particular kind passes the database's own message on intact. */
  lemma BranchWriteErrorDistinguishes(op: BranchWrite, e1: PgError, e2: PgError)
    requires BranchWriteError(op, e1) == BranchWriteError(op, e2)
    ensures KindOf(op, e1) == KindOf(op, e2)
    ensures KindOf(op, e1) == Other ==> e1.message == e2.message
  {
    var m1, m2 := BranchWriteError(op, e1).message, BranchWriteError(op, e2).message;
    assert m1[0] == match KindOf(op, e1) case Duplicate => 'A' case Permission => 'Y' case Other => 'F';
    assert m2[0] == match KindOf(op, e2) case Duplicate => 'A' case Permission => 'Y' case Other => 'F';
    if KindOf(op, e1) == Other {
      var p := FailurePrefix(op);
      assert e1.message == m1[|p|..];
      assert e2.message == m2[|p|..];
    }
  }

  /** The error `addVehicle` throws: a unique violation is named by the column its message
      mentions, `registration_number` taking precedence over `vin`; any other error is rethrown. */
  function AddVehicleError(e: PgError): (x: Exception)
    ensures e.code != UniqueViolation <==> x == DbError(e)
    ensures e.code == UniqueViolation ==>
              x == AppError(if Includes(e.message, "registration_number") then DuplicateRegistration
                            else if Includes(e.message, "vin") then DuplicateVin
                            else VehicleConflict)
  {
    if e.code == UniqueViolation then
      if Includes(e.message, "registration_number") then AppError(DuplicateRegistration)
      else if Includes(e.message, "vin") then AppError(DuplicateVin)
      else AppError(VehicleConflict)
    else DbError(e)
  }

  /** A constraint name that mentions both columns is reported as a registration clash. */
  lemma RegistrationTakesPrecedence(before: string, between: string, after: string)
    ensures AddVehicleError(PgError(UniqueViolation, before + "registration_number" + between + "vin" + after))
            == AppError(DuplicateRegistration)
  {
    var m := before + "registration_number" + between + "vin" + after;
    assert m == before + "registration_number" + (between + "vin" + after);
    IncludesMiddle(before, "registration_number", between + "vin" + after);
  }

  const DependencyPrefix := "Cannot delete branch because it has "
  const DependencySuffix := " vehicle(s) associated with it. Please reassign or delete these vehicles first."

  /** The message that refuses to delete a branch that `n` vehicles still refer to. */
  function DependencyMessage(n: nat): string {
    DependencyPrefix + NatToString(n) + DependencySuffix
  }

  /** The refusal names the number of dependent vehicles ... */
  lemma DependencyMessageNamesCount(n: nat)
    ensures Includes(DependencyMessage(n), NatToString(n))
  {
    IncludesMiddle(DependencyPrefix, NatToString(n), DependencySuffix);
  }

  /** ... and different numbers give different messages. */
  lemma DependencyMessageInjective(n: nat, m: nat)
    requires DependencyMessage(n) == DependencyMessage(m)
    ensures n == m
  {
    var sn, sm := NatToString(n), NatToString(m);
    assert |sn| == |sm| by {
      assert |DependencyMessage(n)| == |DependencyPrefix| + |sn| + |DependencySuffix|;
      assert |DependencyMessage(m)| == |DependencyPrefix| + |sm| + |DependencySuffix|;
    }
    SliceOfMiddle(DependencyPrefix, sn, DependencySuffix);
    SliceOfMiddle(DependencyPrefix, sm, DependencySuffix);
    NatToStringInjective(n, m);
  }

  /** What `deleteBranch` decides from the answer to its query for dependent vehicles: `Some`
      error to abort with, or `None` to go on and delete. A null answer without an error counts
      as no dependents. */
  function DeleteGuard(check: Response<seq<string>>): (r: Option<Exception>)
    ensures r.None? <==> check.error.None? && (check.data.None? || check.data.value == [])
    ensures check.error.Some? ==> r == Some(AppError(CheckFailedPrefix + check.error.value.message))
    ensures check.error.None? && check.data.Some? && check.data.value != [] ==>
              r == Some(AppError(DependencyMessage(|check.data.value|)))
  {
    if check.error.Some? then Some(AppError("Failed to check vehicles: " + check.error.value.message))
    else if check.data.Some? && |check.data.value| > 0 then Some(AppError(DependencyMessage(|check.data.value|)))
    else None
  }

  /** A branch that some vehicle still refers to is never deleted when the check is answered. */
  lemma GuardRefusesReferencedBranch(vehicles: seq<Vehicle>, id: string, v: Vehicle)
    requires v in vehicles && BranchIdOf(v) == Text(id)
    ensures DeleteGuard(Read(VehicleIds(OfBranch(vehicles, id)), Served))
            == Some(AppError(DependencyMessage(|OfBranch(vehicles, id)|)))
  {
    OfBranchMembers(vehicles, id, v);
  }

  /** Deleting a branch no vehicle refers to keeps every vehicle's branch in existence. */
  lemma {:induction false} DeleteUnreferencedKeepsIntegrity(branches: seq<Branch>, vehicles: seq<Vehicle>, id: string)
    requires OfBranch(vehicles, id) == []
    requires Integrity(branches, vehicles)
    ensures Integrity(RemoveBranch(branches, id), vehicles)
  {
    forall v | v in vehicles
      ensures exists b :: b in RemoveBranch(branches, id) && BranchIdOf(v) == Text(b.id)
    {
      var b :| b in branches && BranchIdOf(v) == Text(b.id);
      if b.id == id {
        OfBranchMembers(vehicles, id, v);
      }
      RemoveBranchMembers(branches, id, b);
    }
  }

  /** The branch filter of `fetchVehiclesByBranch`: applied only when an identifier is given and non-empty. */
  predicate Given(branchId: Option<string>) {
    branchId.Some? && branchId.value != ""
  }

  /** The vehicles `fetchVehiclesByBranch` returns, in table order. */
  function VehiclesFor(vehicles: seq<Vehicle>, branchId: Option<string>): (r: seq<Vehicle>)
    ensures !Given(branchId) ==> r == vehicles
    ensures Given(branchId) ==> forall v :: v in r <==> v in vehicles && BranchIdOf(v) == Text(branchId.value)
  {
    if Given(branchId) then
      var r := OfBranch(vehicles, branchId.value);
      assert forall v :: v in r <==> v in vehicles && BranchIdOf(v) == Text(branchId.value) by {
        forall v {
          OfBranchMembers(vehicles, branchId.value, v);
        }
      }
      r
    else vehicles
  }

  /** `fetchBranches`. */
  method FetchBranches(db: Database, fault: ReadFault) returns (r: Result<seq<Branch>, Exception>)
    ensures fault.Served? ==> r == Ok(db.branches)
    ensures fault.ServedNull? ==> r == Ok([])
    ensures fault.ReadFails? ==> r == Err(DbError(fault.error))
  {
    var answer := db.SelectBranches(fault);
    if answer.error.Some? {
      r := Err(DbError(answer.error.value));
    } else {
      r := Ok(if answer.data.Some? then answer.data.value else []);
    }
  }

  /** `fetchVehiclesByBranch`. */
  method FetchVehiclesByBranch(db: Database, branchId: Option<string>, fault: ReadFault)
    returns (r: Result<seq<Vehicle>, Exception>)
    ensures fault.Served? ==> r == Ok(VehiclesFor(db.vehicles, branchId))
    ensures fault.ServedNull? ==> r == Ok([])
    ensures fault.ReadFails? ==> r == Err(DbError(fault.error))
  {
    var filter := if Given(branchId) then branchId else None;
    var answer := db.SelectVehicles(filter, fault);
    if answer.error.Some? {
      r := Err(DbError(answer.error.value));
    } else {
      r := Ok(if answer.data.Some? then answer.data.value else []);
    }
  }

  /** `getVehicleById`: exactly one vehicle with that identifier, or the error `.single()` reports;
      a null answer without an error is returned as null. */
  method GetVehicleById(db: Database, id: string, fault: ReadFault) returns (r: Result<Option<Vehicle>, Exception>)
    ensures fault.ReadFails? ==> r == Err(DbError(fault.error))
    ensures fault.ServedNull? ==> r == Ok(None)
    ensures fault.Served? && |VehiclesWithId(db.vehicles, id)| != 1 ==> r == Err(DbError(NotSingleRow))
    ensures fault.Served? && |VehiclesWithId(db.vehicles, id)| == 1 ==>
              r.Ok? && r.value.Some? && r.value.value in db.vehicles && r.value.value.id == id
  {
    var answer := db.SelectVehicles(None, fault);
    if answer.error.Some? {
      r := Err(DbError(answer.error.value));
    } else if answer.data.None? {
      r := Ok(None);
    } else {
      var matching := VehiclesWithId(answer.data.value, id);
      if |matching| != 1 {
        r := Err(DbError(NotSingleRow));
      } else {
        VehiclesWithIdMembers(db.vehicles, id, matching[0]);
        r := Ok(Some(matching[0]));
      }
    }
  }

  /** `addVehicle`. */
  method AddVehicle(db: Database, vehicle: Row, fault: Option<PgError>, newId: string, now: string)
    returns (r: Result<Vehicle, Exception>)
    modifies db
    ensures db.branches == old(db.branches)
    ensures fault.Some? ==> r == Err(AddVehicleError(fault.value)) && db.vehicles == old(db.vehicles)
    ensures fault.None? ==> r == Ok(NewVehicle(vehicle, newId, now)) && db.vehicles == old(db.vehicles) + [r.value]
  {
    var answer := db.InsertVehicle(vehicle, fault, newId, now);
    if answer.error.Some? {
      r := Err(AddVehicleError(answer.error.value));
    } else {
      r := Ok(answer.data.value);
    }
  }

  /** `updateVehicle`: errors, the one of `.single()` included, are rethrown as they come. */
  method UpdateVehicle(db: Database, id: string, patch: Row, fault: Option<PgError>)
    returns (r: Result<Vehicle, Exception>)
    modifies db
    ensures db.branches == old(db.branches)
    ensures fault.Some? ==> r == Err(DbError(fault.value)) && db.vehicles == old(db.vehicles)
    ensures fault.None? && |VehiclesWithId(old(db.vehicles), id)| != 1 ==>
              r == Err(DbError(NotSingleRow)) && db.vehicles == old(db.vehicles)
    ensures fault.None? && |VehiclesWithId(old(db.vehicles), id)| == 1 ==>
              r == Ok(Patched(VehiclesWithId(old(db.vehicles), id)[0], patch))
              && db.vehicles == PatchVehicle(old(db.vehicles), id, patch)
  {
    var answer := db.UpdateVehicleRow(id, patch, fault);
    if answer.error.Some? {
      r := Err(DbError(answer.error.value));
    } else {
      r := Ok(answer.data.value);
    }
  }

  /** `deleteVehicle`. */
  method DeleteVehicle(db: Database, id: string, fault: Option<PgError>) returns (r: Option<Exception>)
    modifies db
    ensures db.branches == old(db.branches)
    ensures fault.Some? ==> r == Some(DbError(fault.value)) && db.vehicles == old(db.vehicles)
    ensures fault.None? ==> r == None && db.vehicles == RemoveVehicle(old(db.vehicles), id)
  {
    var error := db.DeleteVehicleRows(id, fault);
    r := if error.Some? then Some(DbError(error.value)) else None;
  }

  /** `addBranch`: the trimmed name is inserted; a blank name never reaches the database. */
  method AddBranch(db: Database, name: string, fault: Option<PgError>, newId: string, now: string)
    returns (r: Result<Branch, Exception>)
    modifies db
    ensures db.vehicles == old(db.vehicles)
    ensures IsBlank(name) ==> r == Err(AppError(NameRequired)) && db.branches == old(db.branches)
    ensures !IsBlank(name) && fault.Some? ==>
              r == Err(BranchWriteError(AddWrite, fault.value)) && db.branches == old(db.branches)
    ensures !IsBlank(name) && fault.None? ==>
              r == Ok(Branch(newId, Trim(name), now)) && db.branches == old(db.branches) + [r.value]
  {
    var valid := ValidateBranchName(name);
    if valid.Err? {
      return Err(valid.error);
    }
    var answer := db.InsertBranch(valid.value, fault, newId, now);
    if answer.error.Some? {
      r := Err(BranchWriteError(AddWrite, answer.error.value));
    } else {
      r := Ok(answer.data.value);
    }
  }

  /** `updateBranch`: renames the one branch with that identifier to the trimmed name. */
  method UpdateBranch(db: Database, id: string, name: string, fault: Option<PgError>)
    returns (r: Result<Branch, Exception>)
    modifies db
    ensures db.vehicles == old(db.vehicles)
    ensures IsBlank(name) ==> r == Err(AppError(NameRequired)) && db.branches == old(db.branches)
    ensures !IsBlank(name) && fault.Some? ==>
              r == Err(BranchWriteError(UpdateWrite, fault.value)) && db.branches == old(db.branches)
    ensures !IsBlank(name) && fault.None? && |BranchesWithId(old(db.branches), id)| != 1 ==>
              r == Err(BranchWriteError(UpdateWrite, NotSingleRow)) && db.branches == old(db.branches)
    ensures !IsBlank(name) && fault.None? && |BranchesWithId(old(db.branches), id)| == 1 ==>
              r == Ok(BranchesWithId(old(db.branches), id)[0].(name := Trim(name)))
              && db.branches == RenameBranch(old(db.branches), id, Trim(name))
  {
    var valid := ValidateBranchName(name);
    if valid.Err? {
      return Err(valid.error);
    }
    var answer := db.UpdateBranchName(id, valid.value, fault);
    if answer.error.Some? {
      r := Err(BranchWriteError(UpdateWrite, answer.error.value));
    } else {
      r := Ok(answer.data.value);
    }
  }

  /** `deleteBranch`: first the query for dependent vehicles, then, if it allows, the deletion. */
  method DeleteBranch(db: Database, id: string, checkFault: ReadFault, deleteFault: Option<PgError>)
    returns (r: Option<Exception>)
    modifies db
    ensures db.vehicles == old(db.vehicles)
    ensures var guard := DeleteGuard(Read(VehicleIds(OfBranch(old(db.vehicles), id)), checkFault));
            (guard.Some? ==> r == guard && db.branches == old(db.branches))
            && (guard.None? && deleteFault.Some? ==>
                  r == Some(BranchWriteError(DeleteWrite, deleteFault.value)) && db.branches == old(db.branches))
            && (guard.None? && deleteFault.None? ==> r == None && db.branches == RemoveBranch(old(db.branches), id))
    ensures checkFault.Served? && Integrity(old(db.branches), old(db.vehicles)) ==> Integrity(db.branches, db.vehicles)
  {
    var check := db.SelectVehicleIdsOfBranch(id, checkFault);
    var guard := DeleteGuard(check);
    if guard.Some? {
      return guard;
    }
    if checkFault.Served? && Integrity(db.branches, db.vehicles) {
      assert |OfBranch(db.vehicles, id)| == |VehicleIds(OfBranch(db.vehicles, id))| == 0;
      DeleteUnreferencedKeepsIntegrity(db.branches, db.vehicles, id);
    }
    var error := db.DeleteBranchRows(id, deleteFault);
    r := if error.Some? then Some(BranchWriteError(DeleteWrite, error.value)) else None;
  }
}
