/** Remote and local support sessions of a machine: a session row created
    as pending, a connection token issued for it, and the session switched
    to active, each step only after the one before succeeded. The database
    writes that took effect are recorded in order; the error each call
    reports, the fresh UUID and the clock are inputs. */
module SessionManagement {
  import opened Common
  import opened Toasts

  const Started: string := "Session started successfully"
  const StartFailed: string := "Failed to start session"
  const Ended: string := "Session ended successfully"
  const EndFailed: string := "Failed to end session"

  /** A token stays valid for 30 minutes, in milliseconds. */
  const TokenLifetime: int := 30 * 60000

  /** The PostgREST code for "no row" that the active-session query treats
      as no session. */
  const NoRowCode: string := "PGRST116"

  datatype ConnectionType = Remote | Local

  /** The writes of `useSessionManagement`, to `sessions` and
      `connection_tokens`. */
  datatype Write =
    | InsertSession(machineId: string, status: string, connectionType: ConnectionType)
    | InsertToken(sessionId: string, token: string, status: string, expiresAt: int)
    | SetSessionStatus(sessionId: string, status: string)
    | EndSessionRow(sessionId: string, endedAt: int)

  /** An error the database reports: a code (possibly none) and a message. */
  datatype QueryError = QueryError(code: Option<string>, message: string)

  /** The active-session query: a "no row" error is no session, any other
      error is raised, and otherwise the row (or none) is the answer. */
  function ActiveSessionQuery<T>(data: Option<T>, error: Option<QueryError>): (r: Result<Option<T>>)
    ensures r.Err? <==> error.Some? && error.value.code != Some(NoRowCode)
    ensures r.Err? ==> r.error == error.value.message
    ensures r.Ok? ==> r.value == data
  {
    if error.Some? && error.value.code != Some(NoRowCode) then Err(error.value.message) else Ok(data)
  }

  /** The three writes of a successful start, in order. */
  function StartWrites(machineId: string, connectionType: ConnectionType, sessionId: string, token: string,
                       now: int): (w: seq<Write>)
    ensures |w| == 3
  {
    [InsertSession(machineId, "pending", connectionType),
     InsertToken(sessionId, token, "pending", now + TokenLifetime),
     SetSessionStatus(sessionId, "active")]
  }

  /** How many of the three steps took effect: a step runs only when every
      earlier step succeeded. */
  function StepsApplied(sessionError: Option<string>, tokenError: Option<string>, updateError: Option<string>)
    : (k: nat)
    ensures k <= 3
    ensures k == 3 <==> sessionError.None? && tokenError.None? && updateError.None?
    ensures k == 0 <==> sessionError.Some?
  {
    if sessionError.Some? then 0 else if tokenError.Some? then 1 else if updateError.Some? then 2 else 3
  }

  /** The session becomes active only after its row and its token were
      written, and a token is only ever written for an inserted session:
      every prefix of the writes that contains a later step contains the
      earlier ones. */
  lemma StartOrder(machineId: string, connectionType: ConnectionType, sessionId: string, token: string, now: int,
                   k: nat)
    requires k <= 3
    ensures var w := StartWrites(machineId, connectionType, sessionId, token, now)[..k];
      && (SetSessionStatus(sessionId, "active") in w <==> k == 3)
      && (InsertToken(sessionId, token, "pending", now + TokenLifetime) in w <==> k >= 2)
      && (k >= 1 ==> w[0] == InsertSession(machineId, "pending", connectionType))
  {
    var w := StartWrites(machineId, connectionType, sessionId, token, now);
    assert w[..3] == w;
    if k < 3 {
      assert w[..k] == if k == 0 then [] else if k == 1 then [w[0]] else [w[0], w[1]];
    }
  }

  class SessionHook {
    const machineId: string
    var loading: bool
    var writes: seq<Write>
    var toasts: seq<Toast>

    constructor (machineId: string)
      ensures this.machineId == machineId && !loading && writes == [] && toasts == []
    {
      this.machineId := machineId;
      loading := false;
      writes := [];
      toasts := [];
    }

    /** `startSession(type)`: `sessionId` is the id of the inserted row,
        `uuid` the fresh UUID and `now` the clock in milliseconds. The token
        is the UUID without dashes, upper-cased, and expires 30 minutes
        later. The first failing step stops the sequence, is toasted and
        raised; loading ends either way. */
    method StartSession(connectionType: ConnectionType, sessionId: string, uuid: string, now: int,
                        sessionError: Option<string>, tokenError: Option<string>, updateError: Option<string>)
      returns (r: Result<string>)
      modifies this
      ensures var k := StepsApplied(sessionError, tokenError, updateError);
        writes == old(writes) + StartWrites(machineId, connectionType, sessionId, ConnectionToken(uuid), now)[..k]
      ensures r.Ok? <==> sessionError.None? && tokenError.None? && updateError.None?
      ensures r.Ok? ==> r.value == ConnectionToken(uuid) && toasts == old(toasts) + [Toast(Success, Started)]
      ensures r.Err? ==> toasts == old(toasts) + [Toast(ToastKind.Error, StartFailed)]
      ensures !loading
    {
      loading := true;
      var steps := StartWrites(machineId, connectionType, sessionId, ConnectionToken(uuid), now);
      var err: Option<string> := None;
      if sessionError.Some? {
        err := sessionError;
      } else {
        writes := writes + [steps[0]];
        if tokenError.Some? {
          err := tokenError;
        } else {
          writes := writes + [steps[1]];
          if updateError.Some? {
            err := updateError;
          } else {
            writes := writes + [steps[2]];
          }
        }
      }
      assert steps[..3] == steps;
      assert steps[..2] == [steps[0], steps[1]] && steps[..1] == [steps[0]];
      if err.Some? {
        toasts := toasts + [Toast(ToastKind.Error, StartFailed)];
        r := Err(err.value);
      } else {
        toasts := toasts + [Toast(Success, Started)];
        r := Ok(ConnectionToken(uuid));
      }
      loading := false;
    }

    /** `endSession`: nothing without an active session; otherwise the
        session is marked ended at `now`, and an error is only toasted. */
    method EndSession(activeSession: Option<string>, now: int, updateError: Option<string>)
      modifies this
      ensures activeSession.None? ==> writes == old(writes) && toasts == old(toasts)
      ensures activeSession.Some? && updateError.Some? ==>
        writes == old(writes) && toasts == old(toasts) + [Toast(ToastKind.Error, EndFailed)]
      ensures activeSession.Some? && updateError.None? ==>
        writes == old(writes) + [EndSessionRow(activeSession.value, now)] && toasts == old(toasts) + [Toast(Success, Ended)]
      ensures loading == old(loading)
    {
      if activeSession.None? {
        return;
      }
      if updateError.Some? {
        toasts := toasts + [Toast(ToastKind.Error, EndFailed)];
        return;
      }
      writes := writes + [EndSessionRow(activeSession.value, now)];
      toasts := toasts + [Toast(Success, Ended)];
    }
  }
}
