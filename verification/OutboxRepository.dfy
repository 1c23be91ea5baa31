/** The outbox repository and its dispatcher, as they update the message table. */
module OutboxRepository {
  import opened Tables
  import opened Outbox

  /** A claimed message as the dispatcher holds it. */
  datatype Claimed = Claimed(id: Uuid, token: Uuid, attempts: nat)

  datatype DispatchReport = DispatchReport(claimed: nat, published: nat, retried: nat, poisoned: nat, failed: nat)

  ghost function Count(outcomes: seq<bool>, value: bool): nat {
    if outcomes == [] then 0
    else Count(outcomes[..|outcomes| - 1], value) + (if outcomes[|outcomes| - 1] == value then 1 else 0)
  }

  /** What a dispatcher makes of a message it claimed, when nobody else interferes. */
  function Dispatched(m: Message, token: Uuid, now: Time, lease: Time, confirmed: bool, base: Time, maxAttempts: int): Message {
    var leased := Leased(m, token, now + lease);
    if confirmed then MarkedPublished(leased, token)
    else MarkedRetry(leased, token, now + Backoff(base, leased.attempts), maxAttempts)
  }

  /** The message after a publish of a claimed copy; a copy whose lease was lost changes nothing. */
  function AfterPublish(m: Message, item: Claimed, confirmed: bool, now: Time, base: Time, maxAttempts: int): Message {
    if confirmed then MarkedPublished(m, item.token)
    else MarkedRetry(m, item.token, now + Backoff(base, item.attempts), maxAttempts)
  }

  /** The report after it; `held` is whether the message still carried the copy's token. */
  function Reported(r: DispatchReport, item: Claimed, confirmed: bool, held: bool, maxAttempts: int): DispatchReport {
    if confirmed && held then r.(published := r.published + 1)
    else if !held then r.(failed := r.failed + 1)
    else if item.attempts >= maxAttempts then r.(failed := r.failed + 1, poisoned := r.poisoned + 1)
    else r.(failed := r.failed + 1, retried := r.retried + 1)
  }

  lemma PublishIsDispatch(m: Message, token: Uuid, now: Time, lease: Time, id: Uuid, confirmed: bool, base: Time, maxAttempts: int)
    ensures
      var leased := Leased(m, token, now + lease);
      && IsLeasedWith(leased, token)
      && AfterPublish(leased, Claimed(id, token, leased.attempts), confirmed, now, base, maxAttempts)
           == Dispatched(m, token, now, lease, confirmed, base, maxAttempts)
  {
  }

  lemma NoneYet(outcomes: seq<bool>)
    ensures Count(outcomes[..0], true) == 0 && Count(outcomes[..0], false) == 0
  {
  }

  lemma CountNext(outcomes: seq<bool>, i: nat, value: bool)
    requires i < |outcomes|
    ensures Count(outcomes[..i + 1], value) == Count(outcomes[..i], value) + (if outcomes[i] == value then 1 else 0)
  {
    assert outcomes[..i + 1][..i] == outcomes[..i];
  }

  class Store {
    var messages: map<Uuid, Message>

    constructor ()
      ensures messages == map[]
    {
      messages := map[];
    }

    /** Leases a batch; `batch` is what the locking query returned and `tokens` are freshly drawn. */
    method Claim(now: Time, lease: Time, limit: int, batch: seq<Uuid>, tokens: seq<Uuid>) returns (claimed: Option<seq<Claimed>>)
      requires |tokens| == |batch| && |batch| <= Max(limit, 0)
      requires forall i | 0 <= i < |batch| :: batch[i] in messages && IsClaimable(messages[batch[i]], now)
      requires forall i, k | 0 <= i < k < |batch| :: batch[i] != batch[k]
      modifies this
      ensures messages.Keys == old(messages).Keys
      ensures lease <= 0 || limit < 1 || limit > 1000 ==> claimed.None? && messages == old(messages)
      ensures !(lease <= 0 || limit < 1 || limit > 1000) ==>
        && claimed.Some? && |claimed.value| == |batch|
        && (forall i | 0 <= i < |batch| ::
              && messages[batch[i]] == Leased(old(messages)[batch[i]], tokens[i], now + lease)
              && claimed.value[i] == Claimed(batch[i], tokens[i], messages[batch[i]].attempts))
        && (forall id | id in messages && id !in batch :: messages[id] == old(messages)[id])
    {
      if lease <= 0 || limit < 1 || limit > 1000 { return None; }
      var items: seq<Claimed> := [];
      for i := 0 to |batch|
        invariant messages == old(messages)
        invariant |items| == i
        invariant forall k | 0 <= k < i :: items[k] == Claimed(batch[k], NIL, messages[batch[k]].attempts)
      {
        items := items + [Claimed(batch[i], NIL, messages[batch[i]].attempts)];
      }
      for i := 0 to |items|
        invariant |items| == |batch| && messages.Keys == old(messages).Keys
        invariant forall k | 0 <= k < i ::
                    && messages[batch[k]] == Leased(old(messages)[batch[k]], tokens[k], now + lease)
                    && items[k] == Claimed(batch[k], tokens[k], messages[batch[k]].attempts)
        invariant forall k | i <= k < |batch| :: items[k] == Claimed(batch[k], NIL, old(messages)[batch[k]].attempts)
        invariant forall id | id in messages && id !in batch[..i] :: messages[id] == old(messages)[id]
      {
        var id := items[i].id;
        var row := messages[id];
        messages := messages[id := row.(state := InFlight, attempts := row.attempts + 1, token := Some(tokens[i]),
                                        leaseUntil := Some(now + lease))];
        items := items[i := Claimed(id, tokens[i], items[i].attempts + 1)];
      }
      return Some(items);
    }

    method MarkPublished(id: Uuid, token: Uuid) returns (leaseLost: bool)
      modifies this
      ensures messages.Keys == old(messages).Keys
      ensures id in messages ==> messages == old(messages)[id := MarkedPublished(old(messages)[id], token)]
      ensures id !in messages ==> messages == old(messages)
      ensures leaseLost <==> !(id in old(messages) && IsLeasedWith(old(messages)[id], token))
    {
      var rowsAffected := 0;
      if id in messages && messages[id].state == InFlight && messages[id].token == Some(token) {
        messages := messages[id := messages[id].(state := Published, token := None, leaseUntil := None)];
        rowsAffected := 1;
      }
      return rowsAffected != 1;
    }

    method MarkRetry(id: Uuid, token: Uuid, nextAttempt: Time, maxAttempts: int) returns (ok: bool)
      modifies this
      ensures messages.Keys == old(messages).Keys
      ensures maxAttempts >= 1 && id in messages ==>
        messages == old(messages)[id := MarkedRetry(old(messages)[id], token, nextAttempt, maxAttempts)]
      ensures maxAttempts < 1 || id !in messages ==> messages == old(messages)
      ensures ok <==> maxAttempts >= 1 && id in old(messages) && IsLeasedWith(old(messages)[id], token)
    {
      if maxAttempts < 1 { return false; }
      var rowsAffected := 0;
      if id in messages && messages[id].state == InFlight && messages[id].token == Some(token) {
        var row := messages[id];
        messages := messages[id := row.(state := if row.attempts >= maxAttempts then Poisoned else Pending,
                                        availableAt := nextAttempt, token := None, leaseUntil := None)];
        rowsAffected := 1;
      }
      return rowsAffected == 1;
    }

    /** Publishes one claimed message, settles it and updates the report. */
    method Deliver(item: Claimed, confirmed: bool, now: Time, base: Time, maxAttempts: int, report: DispatchReport)
      returns (r: DispatchReport)
      requires base > 0 && maxAttempts >= 1 && item.id in messages
      modifies this
      ensures messages == old(messages)[item.id := AfterPublish(old(messages)[item.id], item, confirmed, now, base, maxAttempts)]
      ensures r == Reported(report, item, confirmed, IsLeasedWith(old(messages)[item.id], item.token), maxAttempts)
    {
      r := report;
      if !confirmed {
        r := r.(failed := r.failed + 1);
        var delay, _ := RetryDelay(base, item.attempts);
        var ok := MarkRetry(item.id, item.token, now + delay, maxAttempts);
        if !ok { return; }
        if item.attempts >= maxAttempts {
          r := r.(poisoned := r.poisoned + 1);
        } else {
          r := r.(retried := r.retried + 1);
        }
        return;
      }
      var leaseLost := MarkPublished(item.id, item.token);
      if leaseLost {
        r := r.(failed := r.failed + 1);
        return;
      }
      r := r.(published := r.published + 1);
    }

    /** Claims a batch and publishes it; `confirmed` says which publishes the broker confirmed. */
    method Dispatch(now: Time, lease: Time, base: Time, maxAttempts: int, limit: int, batch: seq<Uuid>, tokens: seq<Uuid>,
                    confirmed: seq<bool>)
      returns (report: Option<DispatchReport>)
      requires lease > 0 && base > 0 && maxAttempts >= 1 && |confirmed| == |batch|
      requires |tokens| == |batch| && |batch| <= Max(limit, 0)
      requires forall i | 0 <= i < |batch| :: batch[i] in messages && IsClaimable(messages[batch[i]], now)
      requires forall i, k | 0 <= i < k < |batch| :: batch[i] != batch[k]
      modifies this
      ensures messages.Keys == old(messages).Keys
      ensures limit < 1 || limit > 1000 ==> report.None? && messages == old(messages)
      ensures 1 <= limit <= 1000 ==>
        && report.Some? && report.value.claimed == |batch|
        && report.value.published == Count(confirmed, true) && report.value.failed == Count(confirmed, false)
        && report.value.retried + report.value.poisoned == report.value.failed
        && (forall i | 0 <= i < |batch| ::
              messages[batch[i]] == Dispatched(old(messages)[batch[i]], tokens[i], now, lease, confirmed[i], base, maxAttempts))
        && (forall id | id in messages && id !in batch :: messages[id] == old(messages)[id])
    {
      hide Leased, AfterPublish, Dispatched, IsLeasedWith, Count;
      if limit < 1 || limit > 1000 { return None; }
      var claim := Claim(now, lease, limit, batch, tokens);
      var items := claim.value;
      var r := DispatchReport(|items|, 0, 0, 0, 0);
      assert Count(confirmed[..0], true) == Count(confirmed[..0], false) == 0 by { NoneYet(confirmed); }
      for i := 0 to |items|
        invariant messages.Keys == old(messages).Keys
        invariant r.claimed == |batch| && r.published == Count(confirmed[..i], true) && r.failed == Count(confirmed[..i], false)
        invariant r.retried + r.poisoned == r.failed
        invariant forall k | 0 <= k < i ::
                    messages[batch[k]] == Dispatched(old(messages)[batch[k]], tokens[k], now, lease, confirmed[k], base, maxAttempts)
        invariant forall k | i <= k < |batch| :: messages[batch[k]] == Leased(old(messages)[batch[k]], tokens[k], now + lease)
        invariant forall id | id in messages && id !in batch :: messages[id] == old(messages)[id]
      {
        CountNext(confirmed, i, true);
        CountNext(confirmed, i, false);
        PublishIsDispatch(old(messages)[batch[i]], tokens[i], now, lease, batch[i], confirmed[i], base, maxAttempts);
        r := Deliver(items[i], confirmed[i], now, base, maxAttempts, r);
      }
      assert confirmed[..|batch|] == confirmed;
      return Some(r);
    }
  }

  /** A dispatched message is consistent: published if confirmed, poisoned exactly once its attempts are used up. */
  lemma DispatchedIsOk(m: Message, token: Uuid, now: Time, lease: Time, confirmed: bool, base: Time, maxAttempts: int)
    requires MessageOk(m, maxAttempts) && maxAttempts >= 1
    ensures
      var d := Dispatched(m, token, now, lease, confirmed, base, maxAttempts);
      && MessageOk(d, maxAttempts) && d.attempts == m.attempts + 1
      && (d.state == Published <==> confirmed)
      && (d.state == Poisoned <==> !confirmed && m.attempts + 1 >= maxAttempts)
      && d.state != InFlight
  {
  }

  /** A leased message is not claimed again before its lease is over, nor one to be retried before its delay is. */
  lemma ClaimedAgainExactly(m: Message, token: Uuid, now: Time, lease: Time, base: Time, maxAttempts: int, t: Time)
    ensures IsClaimable(Leased(m, token, now + lease), t) <==> t >= now + lease
    ensures
      var delay := if m.attempts == 0 then base else Min(base * Pow2(m.attempts), 3_600_000_000_000);
      IsClaimable(Dispatched(m, token, now, lease, false, base, maxAttempts), t) <==> m.attempts + 1 < maxAttempts && t >= now + delay
    ensures !IsClaimable(Dispatched(m, token, now, lease, true, base, maxAttempts), t)
  {
  }
}
