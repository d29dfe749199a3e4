/** Machine control: reading a machine, changing its status with an audit
    row, and restarting it behind a permission check. The `machines`,
    `machine_permissions` and `machine_logs` tables are fields of the
    controller; the write errors the database may report are inputs. */
module MachineControl {
  import opened Common

  /** A row of `machine_permissions`. */
  datatype PermissionRow = PermissionRow(machineId: string, userId: string, accessLevel: string)

  /** A row written to `machine_logs`; `details` holds the string-valued
      details (`{status}` for a status change, `{}` by default). */
  datatype LogRow = LogRow(machineId: string, userId: Option<string>, action: string, details: map<string, string>)

  /** The access levels that may restart a machine. */
  predicate MayRestart(level: string)
  {
    level == "operate" || level == "admin"
  }

  function PermissionRowsOf(rows: seq<PermissionRow>, machineId: string, userFilter: string): (r: seq<PermissionRow>)
    ensures forall i :: 0 <= i < |r| ==> r[i] in rows && r[i].machineId == machineId && r[i].userId == userFilter
    ensures forall i :: 0 <= i < |rows| && rows[i].machineId == machineId && rows[i].userId == userFilter ==> rows[i] in r
  {
    if rows == [] then []
    else if rows[0].machineId == machineId && rows[0].userId == userFilter
    then [rows[0]] + PermissionRowsOf(rows[1..], machineId, userFilter)
    else PermissionRowsOf(rows[1..], machineId, userFilter)
  }

  /** `select('access_level') … .single()`: the access level when exactly one
      row matches, and no data otherwise. */
  function PermissionLookup(rows: seq<PermissionRow>, machineId: string, userFilter: string): (level: Option<string>)
    ensures level.Some? ==> exists i :: 0 <= i < |rows| && rows[i] == PermissionRow(machineId, userFilter, level.value)
    ensures level.None? ==> |PermissionRowsOf(rows, machineId, userFilter)| != 1
  {
    var matching := PermissionRowsOf(rows, machineId, userFilter);
    if |matching| == 1 then Some(matching[0].accessLevel) else None
  }

  /** The text a filter receives when it is given a pending promise. */
  const PromiseText: string := "[object Promise]"

  /** The permission gate as written: the user filter is given the promise
      returned by `supabase.auth.getUser()` rather than the user's id, so it
      compares `user_id` with the text `[object Promise]`. */
  predicate RestartPermittedAsWritten(rows: seq<PermissionRow>, machineId: string)
  {
    var level := PermissionLookup(rows, machineId, PromiseText);
    level.Some? && MayRestart(level.value)
  }

  /** When user ids are UUIDs, no permission row can match the gate as
      written, so every restart is refused with `Insufficient permissions`,
      whatever the caller's access level. */
  lemma AsWrittenRefusesEveryone(rows: seq<PermissionRow>, machineId: string)
    requires forall i :: 0 <= i < |rows| ==> IsCanonicalUuid(rows[i].userId)
    ensures !RestartPermittedAsWritten(rows, machineId)
  {
    assert |PromiseText| == 16;
  }

  /** A concrete case: an admin row for the signed-in user, and the restart
      is still refused as written. */
  lemma AsWrittenRefusesAdmin()
    ensures var u := "123e4567-e89b-12d3-a456-426614174000";
      !RestartPermittedAsWritten([PermissionRow("m1", u, "admin")], "m1")
  {
    var u := "123e4567-e89b-12d3-a456-426614174000";
    assert u != PromiseText;
    assert PermissionRowsOf([PermissionRow("m1", u, "admin")], "m1", PromiseText) == [];
  }

  /** The gate as intended: the signed-in user's own permission row for the
      machine, if there is exactly one, must grant `operate` or `admin`. */
  predicate RestartPermitted(rows: seq<PermissionRow>, machineId: string, userId: Option<string>)
  {
    userId.Some? &&
    var level := PermissionLookup(rows, machineId, userId.value);
    level.Some? && MayRestart(level.value)
  }

  /** With a single permission row for the user and machine, the corrected
      gate lets the restart through exactly for `operate` and `admin`. */
  lemma {:induction false} RestartPermittedIff(rows: seq<PermissionRow>, machineId: string, userId: string, level: string)
    requires PermissionRowsOf(rows, machineId, userId) == [PermissionRow(machineId, userId, level)]
    ensures RestartPermitted(rows, machineId, Some(userId)) <==> level == "operate" || level == "admin"
  {
  }

  /** An admin row for the signed-in user admits the restart under the
      corrected gate. */
  lemma CorrectedAdmitsAdmin()
    ensures var u := "123e4567-e89b-12d3-a456-426614174000";
      RestartPermitted([PermissionRow("m1", u, "admin")], "m1", Some(u))
  {
    var u := "123e4567-e89b-12d3-a456-426614174000";
    assert PermissionRowsOf([PermissionRow("m1", u, "admin")], "m1", u) == [PermissionRow("m1", u, "admin")];
  }

  /** The write errors of one call, in the order the writes happen. */
  datatype Faults = Faults(statusUpdate: Option<string>, statusLog: Option<string>, restartLog: Option<string>)

  class Controller {
    /** `machines`: id to status. */
    var statuses: map<string, string>
    var logs: seq<LogRow>

    constructor (statuses: map<string, string>)
      ensures this.statuses == statuses && logs == []
    {
      this.statuses := statuses;
      logs := [];
    }

    /** `getMachineStatus`: the machine's status, or null when the query
        fails or no such machine exists; never throws. */
    method GetMachineStatus(machineId: string, queryFails: bool) returns (status: Option<string>)
      ensures queryFails || machineId !in statuses ==> status == None
      ensures !queryFails && machineId in statuses ==> status == Some(statuses[machineId])
    {
      if queryFails || machineId !in statuses {
        return None;
      }
      return Some(statuses[machineId]);
    }

    /** `logMachineAction`: appends one audit row unless the insert fails. */
    method LogMachineAction(machineId: string, userId: Option<string>, action: string,
                            details: map<string, string>, insertError: Option<string>)
      returns (outcome: Outcome)
      modifies this
      ensures insertError.Some? ==> outcome == Failed(insertError.value) && logs == old(logs)
      ensures insertError.None? ==> outcome == Done && logs == old(logs) + [LogRow(machineId, userId, action, details)]
      ensures statuses == old(statuses)
    {
      if insertError.Some? {
        return Failed(insertError.value);
      }
      logs := logs + [LogRow(machineId, userId, action, details)];
      outcome := Done;
    }

    /** `updateMachineStatus`: the status is written first, and only after
        that succeeded is the `status_update` row logged. An update error
        writes nothing and is rethrown. */
    method UpdateMachineStatus(machineId: string, status: string, userId: Option<string>,
                               updateError: Option<string>, logError: Option<string>)
      returns (outcome: Outcome)
      modifies this
      ensures updateError.Some? ==> outcome == Failed(updateError.value) && statuses == old(statuses) && logs == old(logs)
      ensures updateError.None? ==>
        statuses == (if machineId in old(statuses) then old(statuses)[machineId := status] else old(statuses))
      ensures updateError.None? && logError.None? ==>
        outcome == Done && logs == old(logs) + [LogRow(machineId, userId, "status_update", map["status" := status])]
      ensures updateError.None? && logError.Some? ==> outcome == Failed(logError.value) && logs == old(logs)
    {
      if updateError.Some? {
        return Failed(updateError.value);
      }
      if machineId in statuses {
        statuses := statuses[machineId := status];
      }
      outcome := LogMachineAction(machineId, userId, "status_update", map["status" := status], logError);
    }

    /** `restartMachine`, with the corrected permission gate: refused with
        `Insufficient permissions` before any write; otherwise the status
        becomes `maintenance` and only then the `restart` row is logged. A
        failing write is rethrown and the writes before it stay. The
        delayed return to `active` is not modelled. */
    method RestartMachine(machineId: string, userId: Option<string>, permissions: seq<PermissionRow>, faults: Faults)
      returns (outcome: Outcome)
      modifies this
      ensures !RestartPermitted(permissions, machineId, userId) ==>
        outcome == Failed("Insufficient permissions") && statuses == old(statuses) && logs == old(logs)
      ensures RestartPermitted(permissions, machineId, userId) && faults.statusUpdate.Some? ==>
        outcome == Failed(faults.statusUpdate.value) && statuses == old(statuses) && logs == old(logs)
      ensures RestartPermitted(permissions, machineId, userId) && faults.statusUpdate.None? ==>
        statuses == (if machineId in old(statuses) then old(statuses)[machineId := "maintenance"] else old(statuses))
      ensures RestartPermitted(permissions, machineId, userId) && faults.statusUpdate.None? && faults.statusLog.Some? ==>
        outcome == Failed(faults.statusLog.value) && logs == old(logs)
      ensures RestartPermitted(permissions, machineId, userId) && faults.statusUpdate.None? && faults.statusLog.None?
              && faults.restartLog.Some? ==>
        outcome == Failed(faults.restartLog.value) &&
        logs == old(logs) + [LogRow(machineId, userId, "status_update", map["status" := "maintenance"])]
      ensures RestartPermitted(permissions, machineId, userId) && faults == Faults(None, None, None) ==>
        outcome == Done &&
        logs == old(logs) + [LogRow(machineId, userId, "status_update", map["status" := "maintenance"]),
                             LogRow(machineId, userId, "restart", map[])]
    {
      if !RestartPermitted(permissions, machineId, userId) {
        return Failed("Insufficient permissions");
      }
      outcome := UpdateMachineStatus(machineId, "maintenance", userId, faults.statusUpdate, faults.statusLog);
      if outcome.Failed? {
        return;
      }
      outcome := LogMachineAction(machineId, userId, "restart", map[], faults.restartLog);
    }
  }
}
