/** Multipart upload sessions: the guarded updates of one session row, and the repository that makes them. */
module UploadSessions {
  import opened Tables

  datatype SessionState =
    | SessionInitiated
    | SessionCompleting
    | SessionAborting
    | SessionCompleted
    | SessionAborted
    | SessionExpired
    | SessionFailed

  datatype Session = Session(
    owner: Uuid, dataset: Uuid, version: Uuid, state: SessionState,
    expectedSize: int, expectedChecksum: Option<string>,
    expiresAt: Time, updatedAt: Time,
    token: Option<Uuid>, completionStartedAt: Option<Time>)

  datatype SessionError = SessionNotFound | AlreadyCompleted | WrongState | InProgress | HasExpired

  /** The row after the update, and the error returned beside it. */
  datatype Verdict = Verdict(session: Session, error: Option<SessionError>)

  function Ok(s: Session): Verdict {
    Verdict(s, None)
  }

  function Refuse(s: Session, e: SessionError): Verdict {
    Verdict(s, Some(e))
  }

  function Claimed(s: Session, now: Time, token: Uuid): Session {
    s.(state := SessionCompleting, updatedAt := now, token := Some(token), completionStartedAt := Some(now))
  }

  function Released(s: Session, state: SessionState): Session {
    s.(state := state, token := None, completionStartedAt := None)
  }

  /** Another completer works on the session, and its grace period is not over. */
  predicate IsBusy(s: Session, staleBefore: Time) {
    s.token.Some? && s.completionStartedAt.Some? && s.completionStartedAt.value > staleBefore
  }

  /** Claims the session for a completer, taking over one whose grace period is over. */
  function BeginComplete(s: Session, owner: Uuid, now: Time, staleBefore: Time, token: Uuid): Verdict {
    if s.owner != owner then Refuse(s, SessionNotFound)
    else
      match s.state
      case SessionCompleted => Refuse(s, AlreadyCompleted)
      case SessionCompleting => if IsBusy(s, staleBefore) then Refuse(s, InProgress) else Ok(Claimed(s, now, token))
      case SessionInitiated =>
        if now >= s.expiresAt then Refuse(Released(s, SessionAborting).(updatedAt := now), HasExpired)
        else Ok(Claimed(s, now, token))
      case _ => Refuse(s, WrongState)
  }

  function BeginAbort(s: Session, owner: Uuid, now: Time): Verdict {
    if s.owner != owner then Refuse(s, SessionNotFound)
    else
      match s.state
      case SessionCompleted => Refuse(s, AlreadyCompleted)
      case SessionCompleting => Refuse(s, WrongState)
      case SessionInitiated => Ok(s.(state := SessionAborting, updatedAt := now))
      case SessionFailed => Ok(s.(state := SessionAborting, updatedAt := now))
      case _ => Ok(s)
  }

  function BeginReconciliation(s: Session, now: Time, token: Uuid): Verdict {
    if s.state != SessionAborting then Refuse(s, WrongState) else Ok(Claimed(s, now, token))
  }

  /** The session is being completed by the holder of this token. */
  predicate IsHeldWith(s: Session, token: Uuid) {
    s.state == SessionCompleting && s.token == Some(token)
  }

  function ResetCompletion(s: Session, token: Uuid): Verdict {
    if IsHeldWith(s, token) then Ok(Released(s, SessionInitiated)) else Refuse(s, WrongState)
  }

  function MarkCompleted(s: Session, token: Uuid): Verdict {
    if IsHeldWith(s, token) then Ok(Released(s, SessionCompleted)) else Refuse(s, WrongState)
  }

  function MarkFailed(s: Session, token: Uuid): Verdict {
    if IsHeldWith(s, token) || (s.state == SessionAborting && token == NIL) then Ok(Released(s, SessionFailed))
    else Refuse(s, WrongState)
  }

  function MarkAborted(s: Session): Verdict {
    if s.state == SessionAborting || s.state == SessionFailed then Ok(s.(state := SessionAborted)) else Refuse(s, WrongState)
  }

  function MarkExpired(s: Session): Verdict {
    if s.state == SessionAborting then Ok(s.(state := SessionExpired)) else Refuse(s, WrongState)
  }

  /** The row filter of the cleanup's claim. */
  predicate IsClaimable(s: Session, now: Time, staleBefore: Time) {
    && s.expiresAt <= now
    && (s.state == SessionInitiated || s.state == SessionAborting
        || (s.state == SessionCompleting && s.updatedAt <= staleBefore))
  }

  function ClaimExpired(s: Session, now: Time): Session {
    Released(s, SessionAborting).(updatedAt := now)
  }

  /** A dataset's deletion cancels whatever was still going on. */
  function Cancelled(s: Session, dataset: Uuid, now: Time): Session {
    if s.dataset == dataset && (s.state == SessionInitiated || s.state == SessionCompleting || s.state == SessionAborting)
    then Released(s, SessionAborting).(expiresAt := if s.expiresAt < now then s.expiresAt else now, updatedAt := now)
    else s
  }

  /** Exactly a session under completion carries a token. */
  predicate Tokened(s: Session) {
    && (s.state == SessionCompleting <==> s.token.Some?)
    && (s.state == SessionCompleting <==> s.completionStartedAt.Some?)
    && s.token != Some(NIL)
  }

  /** What a session row keeps over time: its identity and expectations, and two final states. */
  predicate SessionLater(s: Session, t: Session) {
    && t.owner == s.owner && t.dataset == s.dataset && t.version == s.version
    && t.expectedSize == s.expectedSize && t.expectedChecksum == s.expectedChecksum
    && (s.state == SessionCompleted || s.state == SessionExpired || s.state == SessionAborted ==> t.state == s.state)
  }
}
