/** Operation tokens: who may settle a session, and for how long. */
module MultipartFencing {
  import opened Tables
  import opened Datasets
  import opened UploadSessions
  import opened Multipart

  /** Every token in use was drawn once, by one task. */
  ghost predicate Drawn(m: Sys) {
    && (forall s | s in m.sessions && m.sessions[s].token.Some? :: m.sessions[s].token.value in m.issued)
    && (forall k | k in m.tasks && m.tasks[k].token != NIL :: m.tasks[k].token in m.issued)
    && (forall k, l | k in m.tasks && l in m.tasks && m.tasks[k].token != NIL && m.tasks[k].token == m.tasks[l].token :: k == l)
    && NIL !in m.issued
  }

  /** A row is rewritten and its token is dropped, kept, or replaced by one that was never drawn before. */
  predicate TokenMoves(before: Option<Uuid>, after: Option<Uuid>, issued: set<Uuid>, grown: set<Uuid>) {
    && issued <= grown
    && (after.None? || after == before || (after.value !in issued && after.value in grown))
    && (NIL !in issued ==> NIL !in grown)
  }

  lemma ActMovesTokens(e: Effect, x: Choice)
    ensures
      var after := Act(e, x);
      && TokenMoves(e.session.token, after.session.token, e.issued, after.issued)
      && after.task.session == e.task.session
      && (after.task.token == e.task.token || (after.task.token !in e.issued && after.task.token in after.issued))
  {
    hide FinalizeVersion, FailVersion;
  }

  /** What a step does to the tokens of the sessions and tasks there were. */
  ghost predicate TokensLater(m: Sys, n: Sys) {
    && m.issued <= n.issued
    && (forall s | s in m.sessions :: s in n.sessions && TokenMoves(m.sessions[s].token, n.sessions[s].token, m.issued, n.issued))
  }

  lemma StepMovesTokens(m: Sys, a: Action)
    requires Drawn(m)
    ensures TokensLater(m, Step(m, a)) && Drawn(Step(m, a))
  {
    hide Drawn, TokensLater;
    TokensRefl(m);
    match a
    case CreateDataset(_, _) => SameTokens(m, Step(m, a));
    case Reserve(_, _, _, _) => SameTokens(m, Step(m, a));
    case Unreserve(_, _) => hide HasSession, AbortVersion; SameTokens(m, Step(m, a));
    case Initiate(_, _) => InitiateMovesTokens(m, a);
    case Delete(_, _) => DeleteMovesTokens(m, a);
    case StartComplete(_, _, _, _, _, _) => StartMovesTokens(m, a);
    case StartAbort(_, _, _, _) => StartMovesTokens(m, a);
    case StartSweep(_, _, _, _) => StartMovesTokens(m, a);
    case Advance(k, x) =>
      if k in m.tasks && m.tasks[k].session in m.sessions && m.tasks[k].session in m.remotes {
        hide Act;
        ActMovesTokens(Load(m, k), x);
        AdvanceMovesTokens(m, Step(m, a), k);
      }
  }

  lemma SameTokens(m: Sys, n: Sys)
    requires Drawn(m) && n.sessions == m.sessions && n.tasks == m.tasks && n.issued == m.issued
    ensures TokensLater(m, n) && Drawn(n)
  {
  }

  lemma InitiateMovesTokens(m: Sys, a: Action)
    requires Drawn(m) && a.Initiate?
    ensures TokensLater(m, Step(m, a)) && Drawn(Step(m, a))
  {
    hide HasSession;
  }

  lemma DeleteMovesTokens(m: Sys, a: Action)
    requires Drawn(m) && a.Delete?
    ensures TokensLater(m, Step(m, a)) && Drawn(Step(m, a))
  {
    hide DeleteDataset;
  }

  lemma StartMovesTokens(m: Sys, a: Action)
    requires Drawn(m) && (a.StartComplete? || a.StartAbort? || a.StartSweep?)
    ensures TokensLater(m, Step(m, a)) && Drawn(Step(m, a))
  {
    if a.StartComplete? {
      StartCompleteMovesTokens(m, a);
    }
  }

  lemma StartCompleteMovesTokens(m: Sys, a: Action)
    requires Drawn(m) && a.StartComplete?
    ensures TokensLater(m, Step(m, a)) && Drawn(Step(m, a))
  {
    if !(a.task in m.tasks || a.session !in m.sessions || a.token == NIL || a.token in m.issued) {
      var v := BeginComplete(m.sessions[a.session], a.owner, a.now, a.staleBefore, a.token);
      assert TokenMoves(m.sessions[a.session].token, v.session.token, m.issued, m.issued + {a.token});
      hide BeginComplete;
      var n := Step(m, a);
      assert forall k | k in m.tasks && m.tasks[k].token != NIL :: m.tasks[k].token != a.token;
    }
  }

  lemma AdvanceMovesTokens(m: Sys, n: Sys, k: Uuid)
    requires k in m.tasks && m.tasks[k].session in m.sessions && k in n.tasks && m.tasks[k].session in n.sessions
    requires n.sessions == m.sessions[m.tasks[k].session := n.sessions[m.tasks[k].session]]
    requires n.tasks == m.tasks[k := n.tasks[k]]
    requires TokenMoves(m.sessions[m.tasks[k].session].token, n.sessions[m.tasks[k].session].token, m.issued, n.issued)
    requires n.tasks[k].token == m.tasks[k].token || (n.tasks[k].token !in m.issued && n.tasks[k].token in n.issued)
    requires Drawn(m)
    ensures TokensLater(m, n) && Drawn(n)
  {
  }

  lemma {:induction false} RunMovesTokens(m: Sys, actions: seq<Action>)
    requires Drawn(m)
    ensures TokensLater(m, Run(m, actions)) && Drawn(Run(m, actions))
    decreases |actions|
  {
    hide Step, Drawn;
    if actions == [] {
      hide Drawn;
      TokensRefl(m);
    } else {
      StepMovesTokens(m, actions[0]);
      RunMovesTokens(Step(m, actions[0]), actions[1..]);
      TokensTrans(m, Step(m, actions[0]), Run(m, actions));
    }
  }

  lemma TokensRefl(m: Sys)
    ensures TokensLater(m, m)
  {
  }

  lemma TokensTrans(a: Sys, b: Sys, c: Sys)
    requires TokensLater(a, b) && TokensLater(b, c)
    ensures TokensLater(a, c)
  {
  }

  /** In every reachable state at most one task holds a session's token. */
  lemma OneHolder(actions: seq<Action>, s: Uuid, k: Uuid, l: Uuid)
    requires
      var m := Run(START, actions);
      && s in m.sessions && k in m.tasks && l in m.tasks
      && m.tasks[k].token != NIL && m.tasks[l].token != NIL
      && IsHeldWith(m.sessions[s], m.tasks[k].token) && IsHeldWith(m.sessions[s], m.tasks[l].token)
    ensures k == l
  {
    RunMovesTokens(START, actions);
  }

  /**
   * A token that a session no longer carries never comes back: from then on its holder can neither
   * change the session nor make the version available, however the run continues.
   */
  lemma StaleTokenIsFenced(before: seq<Action>, later: seq<Action>, s: Uuid, token: Uuid)
    requires
      var m := Run(START, before);
      s in m.sessions && token in m.issued && m.sessions[s].token != Some(token)
    ensures
      var n := Run(Run(START, before), later);
      && s in n.sessions && n.sessions[s].token != Some(token) && token != NIL
      && ResetCompletion(n.sessions[s], token).session == n.sessions[s]
      && MarkCompleted(n.sessions[s], token).session == n.sessions[s]
      && MarkFailed(n.sessions[s], token).session == n.sessions[s]
      && (forall size, checksum ::
            FinalizeVersion(n.catalog, n.sessions[s].dataset, n.sessions[s].version, size, checksum,
                            IsHeldWith(n.sessions[s], token)).Refused?)
  {
    hide Run;
    RunMovesTokens(START, before);
    RunMovesTokens(Run(START, before), later);
  }

  /** Taking over a stale completion, the cleanup's claim and a deletion each cut the old holder off. */
  lemma TakeoverCutsOff(m: Sys, a: Action, s: Uuid, token: Uuid)
    requires s in m.sessions && m.sessions[s].token == Some(token) && token in m.issued
    requires
      || (a.StartComplete? && a.session == s && Step(m, a).sessions[s] != m.sessions[s])
      || (a.StartSweep? && a.session == s && Step(m, a).sessions[s] != m.sessions[s])
      || (a.Delete? && m.sessions[s].dataset == a.dataset && m.sessions[s].state == SessionCompleting
          && a.dataset in m.catalog.datasets && m.catalog.datasets[a.dataset].state != DatasetDeleted)
    ensures s in Step(m, a).sessions && Step(m, a).sessions[s].token != Some(token)
  {
    hide DeleteDataset;
  }

  /** The task holds the session's token and is about to complete, reopen or fail the session with it. */
  predicate IsSettling(m: Sys, k: Uuid, s: Uuid) {
    && k in m.tasks && s in m.sessions && m.tasks[k].session == s && IsHeldWith(m.sessions[s], m.tasks[k].token)
    && (m.tasks[k].pc == Marking || m.tasks[k].pc == Resetting || m.tasks[k].pc == MarkingFailed)
  }

  /**
   * A session under completion is changed by nobody but the holder of its token, a takeover after the
   * grace period, the cleanup's claim of an expired and stale session, or the deletion of its dataset; in
   * particular the unfenced marks of aborters and sweepers pass it by.
   */
  lemma OnlyTheHolderSettles(m: Sys, a: Action, s: Uuid)
    requires s in m.sessions && m.sessions[s].state == SessionCompleting
    requires s in Step(m, a).sessions && Step(m, a).sessions[s] != m.sessions[s]
    ensures
      || (a.Advance? && IsSettling(m, a.task, s))
      || (a.StartComplete? && a.session == s && !IsBusy(m.sessions[s], a.staleBefore))
      || (a.StartSweep? && a.session == s && IsClaimable(m.sessions[s], a.now, a.staleBefore))
      || (a.Delete? && a.dataset == m.sessions[s].dataset)
  {
    hide FinalizeVersion, FailVersion, ReserveVersion, AbortVersion, DeleteDataset, Datasets.CreateDataset, HasSession;
  }
}
