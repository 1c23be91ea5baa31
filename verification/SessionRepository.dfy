/** The upload session repository: each method is one guarded update of the session table. */
module SessionRepository {
  import opened Tables
  import opened UploadSessions
  import Rows = UploadSessions

  class Repository {
    var sessions: map<Uuid, Session>

    ghost predicate Valid()
      reads this
    {
      forall id | id in sessions :: Tokened(sessions[id])
    }

    constructor ()
      ensures Valid() && sessions == map[]
    {
      sessions := map[];
    }

    method BeginComplete(id: Uuid, owner: Uuid, now: Time, staleBefore: Time, token: Uuid)
      returns (error: Option<SessionError>)
      requires Valid() && token != NIL
      modifies this
      ensures Valid()
      ensures id !in old(sessions) ==> sessions == old(sessions) && error == Some(SessionNotFound)
      ensures id in old(sessions) ==>
        var v := Rows.BeginComplete(old(sessions)[id], owner, now, staleBefore, token);
        sessions == old(sessions)[id := v.session] && error == v.error
      ensures error.None? ==>
        && sessions[id].state == SessionCompleting && sessions[id].token == Some(token)
        && !(old(sessions)[id].state == SessionCompleting && IsBusy(old(sessions)[id], staleBefore))
      ensures error.None? <==>
        && id in old(sessions) && old(sessions)[id].owner == owner
        && match old(sessions)[id].state
           case SessionInitiated => now < old(sessions)[id].expiresAt
           case SessionCompleting => old(sessions)[id].completionStartedAt.value <= staleBefore
           case _ => false
      ensures error.None? ==>
        sessions == old(sessions)[id := old(sessions)[id].(state := SessionCompleting, updatedAt := now, token := Some(token),
                                                           completionStartedAt := Some(now))]
      ensures error == Some(HasExpired) <==>
        && id in old(sessions) && old(sessions)[id].owner == owner
        && old(sessions)[id].state == SessionInitiated && now >= old(sessions)[id].expiresAt
      ensures error == Some(HasExpired) ==> sessions == old(sessions)[id := old(sessions)[id].(state := SessionAborting, updatedAt := now)]
      ensures error.Some? && error != Some(HasExpired) ==> sessions == old(sessions)
      ensures error == Some(InProgress) ==> old(sessions)[id].state == SessionCompleting && sessions == old(sessions)
    {
      if id !in sessions || sessions[id].owner != owner { return Some(SessionNotFound); }
      var session := sessions[id];
      match session.state {
        case SessionCompleted => return Some(AlreadyCompleted);
        case SessionAborted => return Some(WrongState);
        case SessionExpired => return Some(WrongState);
        case SessionFailed => return Some(WrongState);
        case SessionAborting => return Some(WrongState);
        case SessionCompleting =>
          if session.token.Some? && session.completionStartedAt.Some? && session.completionStartedAt.value > staleBefore {
            return Some(InProgress);
          }
        case SessionInitiated =>
          if !(now < session.expiresAt) {
            session := session.(state := SessionAborting, updatedAt := now, token := None, completionStartedAt := None);
            sessions := sessions[id := session];
            return Some(HasExpired);
          }
      }
      session := session.(state := SessionCompleting, updatedAt := now, token := Some(token), completionStartedAt := Some(now));
      sessions := sessions[id := session];
      return None;
    }

    method BeginAbort(id: Uuid, owner: Uuid, now: Time) returns (error: Option<SessionError>)
      requires Valid()
      modifies this
      ensures Valid()
      ensures id !in old(sessions) ==> sessions == old(sessions) && error == Some(SessionNotFound)
      ensures id in old(sessions) ==>
        var v := Rows.BeginAbort(old(sessions)[id], owner, now);
        sessions == old(sessions)[id := v.session] && error == v.error
      ensures error.None? <==>
        && id in old(sessions) && old(sessions)[id].owner == owner
        && old(sessions)[id].state != SessionCompleted && old(sessions)[id].state != SessionCompleting
      ensures sessions ==
        if error.None? && (old(sessions)[id].state == SessionInitiated || old(sessions)[id].state == SessionFailed)
        then old(sessions)[id := old(sessions)[id].(state := SessionAborting, updatedAt := now)] else old(sessions)
    {
      if id !in sessions || sessions[id].owner != owner { return Some(SessionNotFound); }
      var session := sessions[id];
      match session.state {
        case SessionCompleted => return Some(AlreadyCompleted);
        case SessionCompleting => return Some(WrongState);
        case SessionAborted => return None;
        case SessionExpired => return None;
        case SessionAborting => return None;
        case SessionInitiated => session := session.(state := SessionAborting, updatedAt := now);
        case SessionFailed => session := session.(state := SessionAborting, updatedAt := now);
      }
      sessions := sessions[id := session];
      return None;
    }

    method BeginReconciliation(id: Uuid, now: Time, token: Uuid) returns (error: Option<SessionError>)
      requires Valid() && token != NIL
      modifies this
      ensures Valid()
      ensures id !in old(sessions) ==> sessions == old(sessions) && error == Some(SessionNotFound)
      ensures id in old(sessions) ==>
        var v := Rows.BeginReconciliation(old(sessions)[id], now, token);
        sessions == old(sessions)[id := v.session] && error == v.error
      ensures error.None? <==> id in old(sessions) && old(sessions)[id].state == SessionAborting
      ensures error.None? ==>
        sessions == old(sessions)[id := old(sessions)[id].(state := SessionCompleting, updatedAt := now, token := Some(token),
                                                           completionStartedAt := Some(now))]
      ensures error.Some? ==> sessions == old(sessions)
    {
      if id !in sessions { return Some(SessionNotFound); }
      var session := sessions[id];
      if session.state != SessionAborting { return Some(WrongState); }
      session := session.(state := SessionCompleting, updatedAt := now, token := Some(token), completionStartedAt := Some(now));
      sessions := sessions[id := session];
      return None;
    }

    /** The updates whose only effect is on a row that its guard matches; no row affected is an error. */
    method ResetCompletion(id: Uuid, token: Uuid) returns (error: Option<SessionError>)
      requires Valid()
      modifies this
      ensures Valid()
      ensures id !in old(sessions) ==> sessions == old(sessions) && error == Some(WrongState)
      ensures id in old(sessions) ==>
        var v := Rows.ResetCompletion(old(sessions)[id], token);
        sessions == old(sessions)[id := v.session] && error == v.error
      ensures error.None? <==> id in old(sessions) && old(sessions)[id].state == SessionCompleting && old(sessions)[id].token == Some(token)
      ensures error.None? ==> sessions[id].state == SessionInitiated && sessions[id].token.None?
      ensures error.Some? ==> sessions == old(sessions)
    {
      var rowsAffected := 0;
      if id in sessions && sessions[id].state == SessionCompleting && sessions[id].token == Some(token) {
        sessions := sessions[id := sessions[id].(state := SessionInitiated, token := None, completionStartedAt := None)];
        rowsAffected := 1;
      }
      return if rowsAffected == 0 then Some(WrongState) else None;
    }

    method MarkCompleted(id: Uuid, token: Uuid) returns (error: Option<SessionError>)
      requires Valid()
      modifies this
      ensures Valid()
      ensures id !in old(sessions) ==> sessions == old(sessions) && error == Some(WrongState)
      ensures id in old(sessions) ==>
        var v := Rows.MarkCompleted(old(sessions)[id], token);
        sessions == old(sessions)[id := v.session] && error == v.error
      ensures error.None? <==> id in old(sessions) && old(sessions)[id].state == SessionCompleting && old(sessions)[id].token == Some(token)
      ensures error.None? ==> sessions[id].state == SessionCompleted && sessions[id].token.None?
      ensures error.Some? ==> sessions == old(sessions)
    {
      var rowsAffected := 0;
      if id in sessions && sessions[id].state == SessionCompleting && sessions[id].token == Some(token) {
        sessions := sessions[id := sessions[id].(state := SessionCompleted, token := None, completionStartedAt := None)];
        rowsAffected := 1;
      }
      return if rowsAffected == 0 then Some(WrongState) else None;
    }

    method MarkFailed(id: Uuid, token: Uuid) returns (error: Option<SessionError>)
      requires Valid()
      modifies this
      ensures Valid()
      ensures id !in old(sessions) ==> sessions == old(sessions) && error == Some(WrongState)
      ensures id in old(sessions) ==>
        var v := Rows.MarkFailed(old(sessions)[id], token);
        sessions == old(sessions)[id := v.session] && error == v.error
      ensures error.None? <==>
        && id in old(sessions)
        && (|| (old(sessions)[id].state == SessionCompleting && old(sessions)[id].token == Some(token))
            || (old(sessions)[id].state == SessionAborting && token == NIL))
      ensures error.None? ==> sessions[id].state == SessionFailed && sessions[id].token.None?
      ensures error.Some? ==> sessions == old(sessions)
    {
      var rowsAffected := 0;
      if id in sessions && sessions[id].state != SessionCompleted
         && ((sessions[id].state == SessionCompleting && sessions[id].token == Some(token))
             || (sessions[id].state == SessionAborting && token == NIL)) {
        sessions := sessions[id := sessions[id].(state := SessionFailed, token := None, completionStartedAt := None)];
        rowsAffected := 1;
      }
      return if rowsAffected == 0 then Some(WrongState) else None;
    }

    method MarkAborted(id: Uuid) returns (error: Option<SessionError>)
      requires Valid()
      modifies this
      ensures Valid()
      ensures id !in old(sessions) ==> sessions == old(sessions) && error == Some(WrongState)
      ensures id in old(sessions) ==>
        var v := Rows.MarkAborted(old(sessions)[id]);
        sessions == old(sessions)[id := v.session] && error == v.error
      ensures error.None? <==> id in old(sessions) && old(sessions)[id].state in {SessionAborting, SessionFailed}
      ensures error.None? ==> sessions[id].state == SessionAborted
      ensures error.Some? ==> sessions == old(sessions)
    {
      var rowsAffected := 0;
      if id in sessions && sessions[id].state in {SessionAborting, SessionFailed} {
        sessions := sessions[id := sessions[id].(state := SessionAborted)];
        rowsAffected := 1;
      }
      return if rowsAffected == 0 then Some(WrongState) else None;
    }

    method MarkExpired(id: Uuid) returns (error: Option<SessionError>)
      requires Valid()
      modifies this
      ensures Valid()
      ensures id !in old(sessions) ==> sessions == old(sessions) && error == Some(WrongState)
      ensures id in old(sessions) ==>
        var v := Rows.MarkExpired(old(sessions)[id]);
        sessions == old(sessions)[id := v.session] && error == v.error
      ensures error.None? <==> id in old(sessions) && old(sessions)[id].state == SessionAborting
      ensures error.None? ==> sessions[id].state == SessionExpired
      ensures error.Some? ==> sessions == old(sessions)
    {
      var rowsAffected := 0;
      if id in sessions && sessions[id].state == SessionAborting {
        sessions := sessions[id := sessions[id].(state := SessionExpired)];
        rowsAffected := 1;
      }
      return if rowsAffected == 0 then Some(WrongState) else None;
    }

    /** Claims a batch in one statement; `batch` is what the locking query returned. */
    method ClaimExpired(batch: seq<Uuid>, now: Time, staleBefore: Time, limit: int) returns (claimed: seq<Session>)
      requires Valid() && |batch| <= limit
      requires forall i | 0 <= i < |batch| ::
        && batch[i] in sessions && sessions[batch[i]].expiresAt <= now
        && (sessions[batch[i]].state == SessionInitiated || sessions[batch[i]].state == SessionAborting
            || (sessions[batch[i]].state == SessionCompleting && sessions[batch[i]].updatedAt <= staleBefore))
      modifies this
      ensures Valid() && sessions.Keys == old(sessions).Keys
      ensures forall id | id in sessions ::
        sessions[id] == if id in batch then Rows.ClaimExpired(old(sessions)[id], now) else old(sessions)[id]
      ensures forall id | id in batch ::
        && id in sessions
        && sessions[id] == old(sessions)[id].(state := SessionAborting, updatedAt := now, token := None, completionStartedAt := None)
      ensures |claimed| == |batch|
      ensures forall i | 0 <= i < |batch| :: claimed[i] == Rows.ClaimExpired(old(sessions)[batch[i]], now)
    {
      sessions := map id | id in sessions ::
        if id in batch
        then sessions[id].(state := SessionAborting, updatedAt := now, token := None, completionStartedAt := None)
        else sessions[id];
      claimed := [];
      for i := 0 to |batch|
        invariant |claimed| == i
        invariant forall k | 0 <= k < i :: claimed[k] == sessions[batch[k]]
      {
        claimed := claimed + [sessions[batch[i]]];
      }
    }
  }
}
