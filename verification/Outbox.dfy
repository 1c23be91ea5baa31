/** The transactional outbox: leases with tokens, publication, retry with backoff. */
module Outbox {
  import opened Tables

  datatype MessageState = Pending | InFlight | Published | Poisoned

  datatype Message = Message(
    state: MessageState, attempts: nat, availableAt: Time, token: Option<Uuid>, leaseUntil: Option<Time>)

  const MAX_RETRY_DELAY: Time := 3_600_000_000_000

  function NewMessage(availableAt: Time): Message {
    Message(Pending, 0, availableAt, None, None)
  }

  /** The row filter of a claim: due, or abandoned by the dispatcher that leased it. */
  predicate IsClaimable(m: Message, now: Time) {
    || (m.state == Pending && m.availableAt <= now)
    || (m.state == InFlight && m.leaseUntil.Some? && m.leaseUntil.value <= now)
  }

  function Leased(m: Message, token: Uuid, until: Time): Message {
    m.(state := InFlight, attempts := m.attempts + 1, token := Some(token), leaseUntil := Some(until))
  }

  predicate IsLeasedWith(m: Message, token: Uuid) {
    m.state == InFlight && m.token == Some(token)
  }

  function MarkedPublished(m: Message, token: Uuid): Message {
    if IsLeasedWith(m, token) then m.(state := Published, token := None, leaseUntil := None) else m
  }

  function MarkedRetry(m: Message, token: Uuid, nextAttempt: Time, maxAttempts: int): Message {
    if IsLeasedWith(m, token)
    then m.(state := if m.attempts >= maxAttempts then Poisoned else Pending, availableAt := nextAttempt,
            token := None, leaseUntil := None)
    else m
  }

  // ---------------------------------------------------------------- backoff

  function Pow2(n: nat): nat {
    if n == 0 then 1 else 2 * Pow2(n - 1)
  }

  function Min(x: int, y: int): int {
    if x < y then x else y
  }

  lemma {:induction false} Pow2Grows(i: nat, n: nat)
    requires i <= n
    ensures 1 <= Pow2(i) <= Pow2(n)
    decreases n
  {
    if i < n {
      Pow2Grows(i, n - 1);
    } else if i > 0 {
      Pow2Grows(i - 1, i - 1);
    }
  }

  /** The base doubled `n` times. */
  function Doubled(base: Time, n: nat): Time {
    base * Pow2(n)
  }

  lemma DoubledNext(base: Time, n: nat)
    ensures Doubled(base, 0) == base && Doubled(base, n + 1) == 2 * Doubled(base, n)
  {
  }

  /** The delay before a message is tried again: doubled for every attempt made, up to one hour. */
  function Backoff(base: Time, attempts: int): Time {
    if attempts <= 1 then base else Min(Doubled(base, attempts - 1), MAX_RETRY_DELAY)
  }

  /**
   * Doubles in a loop. `steps` are the values the variable takes on the way, none of which exceeds the
   * larger of the base and one hour.
   */
  method RetryDelay(base: Time, attempts: int) returns (delay: Time, ghost steps: seq<Time>)
    requires base > 0
    ensures delay == Backoff(base, attempts)
    ensures delay <= MAX_RETRY_DELAY <==> attempts > 1 || base <= MAX_RETRY_DELAY
    ensures forall i | 0 <= i < |steps| :: steps[i] == Doubled(base, i) && steps[i] <= Max(base, MAX_RETRY_DELAY)
    ensures steps != [] && (delay in steps || delay == MAX_RETRY_DELAY)
  {
    hide Doubled;
    steps := [base];
    DoubledNext(base, 0);
    if attempts <= 1 {
      return base, steps;
    }
    delay := base;
    var index := 1;
    while index < attempts && delay < MAX_RETRY_DELAY
      invariant 1 <= index <= attempts && |steps| == index && steps[index - 1] == delay
      invariant forall i | 0 <= i < |steps| :: steps[i] == Doubled(base, i) && steps[i] <= Max(base, MAX_RETRY_DELAY)
      decreases attempts - index
    {
      DoubledNext(base, index - 1);
      if delay > MAX_RETRY_DELAY / 2 {
        ReachesLimit(base, index, attempts - 1);
        return MAX_RETRY_DELAY, steps;
      }
      delay := delay * 2;
      index := index + 1;
      steps := steps + [delay];
    }
    if delay >= MAX_RETRY_DELAY {
      ReachesLimit(base, index - 1, attempts - 1);
    }
    if delay > MAX_RETRY_DELAY {
      return MAX_RETRY_DELAY, steps;
    }
  }

  lemma ReachesLimit(base: Time, i: nat, n: nat)
    requires base > 0 && i <= n && Doubled(base, i) >= MAX_RETRY_DELAY
    ensures Doubled(base, n) >= MAX_RETRY_DELAY
  {
    Pow2Grows(i, n);
    assert base * Pow2(i) <= base * Pow2(n);
  }

  // ---------------------------------------------------------------- many dispatchers

  /** A claimed copy of a message in a dispatcher's hands. */
  datatype Stage = Publishing | Acknowledging | Rescheduling | Settled
  datatype Delivery = Delivery(message: Uuid, token: Uuid, attempts: nat, stage: Stage)

  /** `confirmed` are the messages some publish of which the broker confirmed; `issued` the tokens drawn. */
  datatype Sys = Sys(messages: map<Uuid, Message>, deliveries: map<Uuid, Delivery>, confirmed: set<Uuid>, issued: set<Uuid>)

  datatype Action =
    | Enqueue(id: Uuid, availableAt: Time)
    | Claim(delivery: Uuid, id: Uuid, now: Time, lease: Time, token: Uuid)
    | Publish(delivery: Uuid, confirmed: bool)
    | Acknowledge(delivery: Uuid)
    | Reschedule(delivery: Uuid, nextAttempt: Time)

  function Step(s: Sys, maxAttempts: int, a: Action): Sys {
    match a
    case Enqueue(id, availableAt) =>
      if id in s.messages then s else s.(messages := s.messages[id := NewMessage(availableAt)])
    case Claim(k, id, now, lease, token) =>
      if k in s.deliveries || id !in s.messages || !IsClaimable(s.messages[id], now) || token in s.issued || lease <= 0 then s
      else
        var m := Leased(s.messages[id], token, now + lease);
        s.(messages := s.messages[id := m], issued := s.issued + {token},
           deliveries := s.deliveries[k := Delivery(id, token, m.attempts, Publishing)])
    // A failed publish may still have reached the broker; only a confirmed one counts.
    case Publish(k, confirmed) =>
      if k !in s.deliveries || s.deliveries[k].stage != Publishing then s
      else if confirmed then
        s.(deliveries := s.deliveries[k := s.deliveries[k].(stage := Acknowledging)],
           confirmed := s.confirmed + {s.deliveries[k].message})
      else s.(deliveries := s.deliveries[k := s.deliveries[k].(stage := Rescheduling)])
    case Acknowledge(k) =>
      if k !in s.deliveries || s.deliveries[k].stage != Acknowledging || s.deliveries[k].message !in s.messages then s
      else
        var d := s.deliveries[k];
        s.(messages := s.messages[d.message := MarkedPublished(s.messages[d.message], d.token)],
           deliveries := s.deliveries[k := d.(stage := Settled)])
    case Reschedule(k, nextAttempt) =>
      if k !in s.deliveries || s.deliveries[k].stage != Rescheduling || s.deliveries[k].message !in s.messages then s
      else
        var d := s.deliveries[k];
        s.(messages := s.messages[d.message := MarkedRetry(s.messages[d.message], d.token, nextAttempt, maxAttempts)],
           deliveries := s.deliveries[k := d.(stage := Settled)])
  }

  function Run(s: Sys, maxAttempts: int, actions: seq<Action>): Sys
    decreases |actions|
  {
    if actions == [] then s else Run(Step(s, maxAttempts, actions[0]), maxAttempts, actions[1..])
  }

  const START := Sys(map[], map[], {}, {})

  /** A lease token is set exactly while the message is in flight; the attempts tell pending from poisoned. */
  predicate MessageOk(m: Message, maxAttempts: int) {
    && (m.state == InFlight <==> m.token.Some?)
    && (m.state == InFlight <==> m.leaseUntil.Some?)
    && (m.state == Pending ==> m.attempts < maxAttempts)
    && (m.state == Poisoned ==> m.attempts >= maxAttempts)
  }

  ghost predicate DeliveryOk(s: Sys, d: Delivery) {
    && d.message in s.messages && d.token in s.issued && 1 <= d.attempts <= s.messages[d.message].attempts
    && (s.messages[d.message].token == Some(d.token) ==> s.messages[d.message].attempts == d.attempts)
    && (d.stage == Acknowledging ==> d.message in s.confirmed)
  }

  ghost predicate Inv(s: Sys, maxAttempts: int) {
    && (forall id | id in s.messages ::
          && MessageOk(s.messages[id], maxAttempts)
          && (s.messages[id].state == Published ==> id in s.confirmed)
          && (s.messages[id].token.Some? ==> s.messages[id].token.value in s.issued))
    && (forall k | k in s.deliveries :: DeliveryOk(s, s.deliveries[k]))
    && (forall k, l | k in s.deliveries && l in s.deliveries && s.deliveries[k].token == s.deliveries[l].token :: k == l)
  }

  /** What no dispatcher can undo. */
  predicate MessageLater(m: Message, n: Message) {
    && m.attempts <= n.attempts
    && (m.state == Published || m.state == Poisoned ==> n == m)
  }

  /** A token that a message does not carry any more never returns to it. */
  ghost predicate Later(s: Sys, t: Sys) {
    && s.issued <= t.issued && s.confirmed <= t.confirmed
    && forall id | id in s.messages ::
         && id in t.messages && MessageLater(s.messages[id], t.messages[id])
         && (forall token | token in s.issued && s.messages[id].token != Some(token) :: t.messages[id].token != Some(token))
  }

  lemma StepKeepsInv(s: Sys, maxAttempts: int, a: Action)
    requires maxAttempts >= 1
    requires Inv(s, maxAttempts)
    ensures Inv(Step(s, maxAttempts, a), maxAttempts) && Later(s, Step(s, maxAttempts, a))
  {
    match a
    case Enqueue(id, availableAt) => EnqueueKeepsInv(s, maxAttempts, a);
    case Claim(_, _, _, _, _) => ClaimKeepsInv(s, maxAttempts, a);
    case Publish(_, _) => PublishKeepsInv(s, maxAttempts, a);
    case Acknowledge(k) =>
      if k in s.deliveries && s.deliveries[k].stage == Acknowledging && s.deliveries[k].message in s.messages {
        var d := s.deliveries[k];
        SettleKeepsInv(s, maxAttempts, k, MarkedPublished(s.messages[d.message], d.token));
      }
    case Reschedule(k, nextAttempt) =>
      if k in s.deliveries && s.deliveries[k].stage == Rescheduling && s.deliveries[k].message in s.messages {
        var d := s.deliveries[k];
        SettleKeepsInv(s, maxAttempts, k, MarkedRetry(s.messages[d.message], d.token, nextAttempt, maxAttempts));
      }
  }

  lemma EnqueueKeepsInv(s: Sys, maxAttempts: int, a: Action)
    requires maxAttempts >= 1 && a.Enqueue?
    requires Inv(s, maxAttempts)
    ensures Inv(Step(s, maxAttempts, a), maxAttempts) && Later(s, Step(s, maxAttempts, a))
  {
  }

  lemma PublishKeepsInv(s: Sys, maxAttempts: int, a: Action)
    requires a.Publish?
    requires Inv(s, maxAttempts)
    ensures Inv(Step(s, maxAttempts, a), maxAttempts) && Later(s, Step(s, maxAttempts, a))
  {
    hide MessageOk;
  }

  lemma ClaimKeepsInv(s: Sys, maxAttempts: int, a: Action)
    requires a.Claim?
    requires Inv(s, maxAttempts)
    ensures Inv(Step(s, maxAttempts, a), maxAttempts) && Later(s, Step(s, maxAttempts, a))
  {
    var t := Step(s, maxAttempts, a);
    forall k | k in s.deliveries ensures DeliveryOk(t, s.deliveries[k]) {
      assert DeliveryOk(s, s.deliveries[k]);
    }
  }

  /** A delivery is over, and its message was settled if it still carried the delivery's token. */
  lemma SettleKeepsInv(s: Sys, maxAttempts: int, k: Uuid, m: Message)
    requires k in s.deliveries && s.deliveries[k].message in s.messages
    requires
      var old_ := s.messages[s.deliveries[k].message];
      || m == old_
      || (IsLeasedWith(old_, s.deliveries[k].token) && m.token.None? && m.attempts == old_.attempts
          && MessageOk(m, maxAttempts) && (m.state == Published ==> s.deliveries[k].message in s.confirmed))
    requires Inv(s, maxAttempts)
    ensures
      var d := s.deliveries[k];
      var t := s.(messages := s.messages[d.message := m], deliveries := s.deliveries[k := d.(stage := Settled)]);
      Inv(t, maxAttempts) && Later(s, t)
  {
    var d := s.deliveries[k];
    var t := s.(messages := s.messages[d.message := m], deliveries := s.deliveries[k := d.(stage := Settled)]);
    forall l | l in t.deliveries ensures DeliveryOk(t, t.deliveries[l]) {
      assert DeliveryOk(s, s.deliveries[l]);
    }
  }

  lemma {:induction false} RunKeepsInv(s: Sys, maxAttempts: int, actions: seq<Action>)
    requires maxAttempts >= 1
    requires Inv(s, maxAttempts)
    ensures Inv(Run(s, maxAttempts, actions), maxAttempts) && Later(s, Run(s, maxAttempts, actions))
    decreases |actions|
  {
    if actions != [] {
      StepKeepsInv(s, maxAttempts, actions[0]);
      hide Inv, Step;
      RunKeepsInv(Step(s, maxAttempts, actions[0]), maxAttempts, actions[1..]);
    }
  }

  ghost function Reached(maxAttempts: int, actions: seq<Action>): Sys {
    Run(START, maxAttempts, actions)
  }

  /** In every reachable state the token, the state and the attempts of a message agree, and a published one was confirmed. */
  lemma MessagesAreConsistent(maxAttempts: int, actions: seq<Action>, id: Uuid)
    requires maxAttempts >= 1 && id in Reached(maxAttempts, actions).messages
    ensures
      var s := Reached(maxAttempts, actions);
      var m := s.messages[id];
      && (m.state == InFlight <==> m.token.Some?)
      && (m.state == Pending ==> m.attempts < maxAttempts)
      && (m.state == Poisoned ==> m.attempts >= maxAttempts)
      && (m.state == Published ==> id in s.confirmed)
  {
    RunKeepsInv(START, maxAttempts, actions);
  }

  /** Published and poisoned messages are never touched again, and every message keeps its row. */
  lemma SettledIsFinal(maxAttempts: int, before: seq<Action>, later: seq<Action>, id: Uuid)
    requires maxAttempts >= 1 && id in Reached(maxAttempts, before).messages
    ensures
      var s, t := Reached(maxAttempts, before), Run(Reached(maxAttempts, before), maxAttempts, later);
      && id in t.messages && s.messages[id].attempts <= t.messages[id].attempts
      && (s.messages[id].state in {Published, Poisoned} ==> t.messages[id] == s.messages[id])
  {
    RunKeepsInv(START, maxAttempts, before);
    RunKeepsInv(Reached(maxAttempts, before), maxAttempts, later);
  }

  /**
   * Only the current token settles a message: once its lease was reclaimed or settled, a delivery's
   * acknowledgement or rescheduling leaves the message alone in every later state.
   */
  lemma StaleDeliveryIsFenced(maxAttempts: int, before: seq<Action>, later: seq<Action>, k: Uuid, nextAttempt: Time)
    requires maxAttempts >= 1
    requires
      var s := Reached(maxAttempts, before);
      k in s.deliveries && s.deliveries[k].message in s.messages
      && s.messages[s.deliveries[k].message].token != Some(s.deliveries[k].token)
    ensures
      var d := Reached(maxAttempts, before).deliveries[k];
      var t := Run(Reached(maxAttempts, before), maxAttempts, later);
      && d.message in t.messages
      && MarkedPublished(t.messages[d.message], d.token) == t.messages[d.message]
      && MarkedRetry(t.messages[d.message], d.token, nextAttempt, maxAttempts) == t.messages[d.message]
  {
    RunKeepsInv(START, maxAttempts, before);
    RunKeepsInv(Reached(maxAttempts, before), maxAttempts, later);
  }
}
