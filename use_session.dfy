/** The machine-session hook: a connection token issued for the machine
    first, then a session inserted directly as active that carries the
    token in its metadata. The writes that took effect are recorded in
    order; errors, the fresh UUID and the clock are inputs. */
module UseSession {
  import opened Common
  import opened Toasts
  import SessionManagement

  /** The writes of `useSession`, to `connection_tokens` and
      `machine_sessions`. */
  datatype Write =
    | InsertToken(machineId: string, token: string, status: string, expiresAt: int)
    | InsertSession(machineId: string, status: string, connectionType: SessionManagement.ConnectionType,
                    connectionToken: string)
    | EndSessionRow(sessionId: string, endedAt: int)

  /** The two writes of a successful start, in order. */
  function StartWrites(machineId: string, connectionType: SessionManagement.ConnectionType, token: string, now: int)
    : (w: seq<Write>)
    ensures |w| == 2
  {
    [InsertToken(machineId, token, "pending", now + SessionManagement.TokenLifetime),
     InsertSession(machineId, "active", connectionType, token)]
  }

  /** The steps that took effect: the session only after the token. */
  function StepsApplied(tokenError: Option<string>, sessionError: Option<string>): (k: nat)
    ensures k <= 2
    ensures k == 2 <==> tokenError.None? && sessionError.None?
    ensures k == 0 <==> tokenError.Some?
  {
    if tokenError.Some? then 0 else if sessionError.Some? then 1 else 2
  }

  /** A session is inserted only when a token was, and it is inserted
      active and carrying the same token the start returns. */
  lemma SessionCarriesToken(machineId: string, connectionType: SessionManagement.ConnectionType, uuid: string, now: int,
                            k: nat)
    requires k <= 2
    ensures var w := StartWrites(machineId, connectionType, ConnectionToken(uuid), now)[..k];
      && (k == 2 ==> w[1].InsertSession? && w[1].status == "active" && w[1].connectionToken == ConnectionToken(uuid))
      && (forall i :: 0 <= i < |w| && w[i].InsertSession? ==> i == 1 && w[0].InsertToken? &&
                                                               w[0].token == w[i].connectionToken)
      && (k >= 1 ==> w[0].InsertToken? && w[0].expiresAt == now + 1800000)
  {
  }

  class SessionHook {
    const machineId: string
    var loading: bool
    var writes: seq<Write>
    var toasts: seq<Toast>

    constructor (machineId: string)
      ensures this.machineId == machineId && !loading && writes == [] && toasts == []
    {
      this.machineId := machineId;
      loading := false;
      writes := [];
      toasts := [];
    }

    /** `startSession(type)`: token first, then the session; a failing
        step stops the sequence, is toasted and raised, and loading ends
        either way. */
    method StartSession(connectionType: SessionManagement.ConnectionType, uuid: string, now: int,
                        tokenError: Option<string>, sessionError: Option<string>)
      returns (r: Result<string>)
      modifies this
      ensures writes == old(writes) +
        StartWrites(machineId, connectionType, ConnectionToken(uuid), now)[..StepsApplied(tokenError, sessionError)]
      ensures r.Ok? <==> tokenError.None? && sessionError.None?
      ensures r.Ok? ==> r.value == ConnectionToken(uuid) && toasts == old(toasts) + [Toast(Success, SessionManagement.Started)]
      ensures r.Err? ==> toasts == old(toasts) + [Toast(ToastKind.Error, SessionManagement.StartFailed)]
      ensures !loading
    {
      loading := true;
      var token := ConnectionToken(uuid);
      var steps := StartWrites(machineId, connectionType, token, now);
      assert steps[..2] == steps && steps[..1] == [steps[0]];
      if tokenError.Some? {
        r := Err(tokenError.value);
      } else {
        writes := writes + [steps[0]];
        if sessionError.Some? {
          r := Err(sessionError.value);
        } else {
          writes := writes + [steps[1]];
          r := Ok(token);
        }
      }
      if r.Err? {
        toasts := toasts + [Toast(ToastKind.Error, SessionManagement.StartFailed)];
      } else {
        toasts := toasts + [Toast(Success, SessionManagement.Started)];
      }
      loading := false;
    }

    /** `endSession`: nothing without an active session; otherwise the
        session is marked ended, and an error is only toasted. */
    method EndSession(activeSession: Option<string>, now: int, updateError: Option<string>)
      modifies this
      ensures activeSession.None? ==> writes == old(writes) && toasts == old(toasts)
      ensures activeSession.Some? && updateError.Some? ==>
        writes == old(writes) && toasts == old(toasts) + [Toast(ToastKind.Error, SessionManagement.EndFailed)]
      ensures activeSession.Some? && updateError.None? ==>
        writes == old(writes) + [EndSessionRow(activeSession.value, now)] &&
        toasts == old(toasts) + [Toast(Success, SessionManagement.Ended)]
      ensures loading == old(loading)
    {
      if activeSession.None? {
        return;
      }
      if updateError.Some? {
        toasts := toasts + [Toast(ToastKind.Error, SessionManagement.EndFailed)];
        return;
      }
      writes := writes + [EndSessionRow(activeSession.value, now)];
      toasts := toasts + [Toast(Success, SessionManagement.Ended)];
    }
  }
}
