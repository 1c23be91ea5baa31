/** Fair selection of queued jobs: round robin over owners, each owner's best jobs first. */
module FairScheduler {
  import opened Tables

  datatype Candidate = Candidate(owner: Uuid, id: Uuid, priority: int, createdAt: Time)

  /** Higher priority first, then older, then by id. */
  predicate CandidateBefore(x: Candidate, y: Candidate) {
    if x.priority != y.priority then x.priority > y.priority
    else if x.createdAt != y.createdAt then x.createdAt < y.createdAt
    else x.id < y.id
  }

  // ---------------------------------------------------------------- sorting

  /** No element should have come before an earlier one. */
  ghost predicate Ordered<T>(s: seq<T>, key: T -> Candidate) {
    forall i, k | 0 <= i < k < |s| :: !CandidateBefore(key(s[k]), key(s[i]))
  }

  function Insert<T>(x: T, s: seq<T>, key: T -> Candidate): seq<T> {
    if s == [] || !CandidateBefore(key(s[0]), key(x)) then [x] + s else [s[0]] + Insert(x, s[1..], key)
  }

  /** The library's stable sort. */
  function StableSort<T>(s: seq<T>, key: T -> Candidate): seq<T> {
    if s == [] then [] else Insert(s[0], StableSort(s[1..], key), key)
  }

  lemma {:induction false} InsertOrders<T(!new)>(x: T, s: seq<T>, key: T -> Candidate)
    requires Ordered(s, key)
    ensures Ordered(Insert(x, s, key), key) && multiset(Insert(x, s, key)) == multiset{x} + multiset(s)
  {
    if s != [] && CandidateBefore(key(s[0]), key(x)) {
      InsertOrders(x, s[1..], key);
      assert s == [s[0]] + s[1..];
      ConsOrders(s[0], Insert(x, s[1..], key), x, s[1..], key);
    } else {
      assert multiset([x] + s) == multiset{x} + multiset(s);
    }
  }

  lemma ConsOrders<T(!new)>(first: T, rest: seq<T>, x: T, s: seq<T>, key: T -> Candidate)
    requires Ordered(rest, key) && multiset(rest) == multiset{x} + multiset(s)
    requires !CandidateBefore(key(x), key(first)) && forall k | 0 <= k < |s| :: !CandidateBefore(key(s[k]), key(first))
    ensures Ordered([first] + rest, key) && multiset([first] + rest) == multiset{x} + multiset([first] + s)
  {
    forall k | 0 <= k < |rest| ensures !CandidateBefore(key(rest[k]), key(first)) {
      assert rest[k] in multiset(rest);
      assert rest[k] == x || rest[k] in s;
    }
    hide CandidateBefore;
  }

  lemma {:induction false} SortOrders<T(!new)>(s: seq<T>, key: T -> Candidate)
    ensures Ordered(StableSort(s, key), key) && multiset(StableSort(s, key)) == multiset(s)
    ensures |StableSort(s, key)| == |s|
  {
    if s != [] {
      SortOrders(s[1..], key);
      InsertOrders(s[0], StableSort(s[1..], key), key);
      assert s == [s[0]] + s[1..];
    }
    assert |multiset(StableSort(s, key))| == |multiset(s)|;
  }

  // ---------------------------------------------------------------- one owner's share

  function Filter(s: seq<Candidate>, owner: Uuid): seq<Candidate> {
    if s == [] then []
    else Filter(s[..|s| - 1], owner) + (if s[|s| - 1].owner == owner then [s[|s| - 1]] else [])
  }

  lemma FilterNext(s: seq<Candidate>, c: Candidate, owner: Uuid)
    ensures Filter(s + [c], owner) == Filter(s, owner) + (if c.owner == owner then [c] else [])
  {
    assert (s + [c])[..|s|] == s;
  }

  lemma {:induction false} FilterCounts(s: seq<Candidate>, c: Candidate)
    ensures multiset(s)[c] == multiset(Filter(s, c.owner))[c]
  {
    if s != [] {
      var front, last := s[..|s| - 1], s[|s| - 1];
      FilterCounts(front, c);
      assert s == front + [last];
    }
  }

  lemma {:induction false} FilterOwns(s: seq<Candidate>, owner: Uuid)
    ensures forall c | c in Filter(s, owner) :: c in s && c.owner == owner
    ensures Filter(s, owner) == [] <==> forall c | c in s :: c.owner != owner
  {
    if s != [] {
      FilterOwns(s[..|s| - 1], owner);
      assert s == s[..|s| - 1] + [s[|s| - 1]];
    }
  }

  /** An owner's candidates, best first. */
  function Best(candidates: seq<Candidate>, owner: Uuid): seq<Candidate> {
    StableSort(Filter(candidates, owner), (c: Candidate) => c)
  }

  /** How many jobs of the owner were picked. */
  function Picks(selected: seq<Candidate>, owner: Uuid): nat {
    |Filter(selected, owner)|
  }

  /** Every owner got its best jobs in order, and no owner is more than one ahead of one that could still be served. */
  ghost predicate IsFair(selected: seq<Candidate>, candidates: seq<Candidate>) {
    && (forall o :: Filter(selected, o) <= Best(candidates, o))
    && (forall o, p | Picks(selected, o) < |Best(candidates, o)| :: Picks(selected, p) <= Picks(selected, o) + 1)
  }

  /** Some owner was not served to the end. */
  ghost predicate HasRest(selected: seq<Candidate>, candidates: seq<Candidate>) {
    exists o :: Picks(selected, o) < |Best(candidates, o)|
  }

  lemma BestFacts(candidates: seq<Candidate>, owner: Uuid)
    ensures multiset(Best(candidates, owner)) == multiset(Filter(candidates, owner))
    ensures |Best(candidates, owner)| == |Filter(candidates, owner)|
    ensures forall i, k | 0 <= i < k < |Best(candidates, owner)| ::
      !CandidateBefore(Best(candidates, owner)[k], Best(candidates, owner)[i])
  {
    SortOrders(Filter(candidates, owner), (c: Candidate) => c);
    assert Ordered(Best(candidates, owner), (c: Candidate) => c);
  }

  /** A fair selection takes nothing twice, and takes everything when no owner has anything left. */
  lemma FairSelectsFromCandidates(selected: seq<Candidate>, candidates: seq<Candidate>)
    requires IsFair(selected, candidates)
    ensures multiset(selected) <= multiset(candidates) && |selected| <= |candidates|
    ensures !HasRest(selected, candidates) ==> multiset(selected) == multiset(candidates) && |selected| == |candidates|
  {
    hide IsFair, HasRest;
    forall c: Candidate
      ensures multiset(selected)[c] <= multiset(candidates)[c]
      ensures !HasRest(selected, candidates) ==> multiset(selected)[c] == multiset(candidates)[c]
    {
      FairCounts(selected, candidates, c);
    }
    SubsetLength(selected, candidates);
    if !HasRest(selected, candidates) {
      assert multiset(selected) == multiset(candidates);
      SubsetLength(candidates, selected);
    }
  }

  lemma FairCounts(selected: seq<Candidate>, candidates: seq<Candidate>, c: Candidate)
    requires IsFair(selected, candidates)
    ensures multiset(selected)[c] <= multiset(candidates)[c]
    ensures !HasRest(selected, candidates) ==> multiset(selected)[c] == multiset(candidates)[c]
  {
    FilterCounts(selected, c);
    FilterCounts(candidates, c);
    BestFacts(candidates, c.owner);
    hide Best, Filter;
    var mine, best := Filter(selected, c.owner), Best(candidates, c.owner);
    assert best == mine + best[|mine|..];
    if !HasRest(selected, candidates) {
      assert Picks(selected, c.owner) >= |best|;
      assert mine == best;
    }
  }

  lemma {:induction false} SubsetLength(s: seq<Candidate>, t: seq<Candidate>)
    requires multiset(s) <= multiset(t)
    ensures |s| <= |t|
  {
    if s != [] {
      var c, rest := s[|s| - 1], s[..|s| - 1];
      assert s == rest + [c];
      assert c in multiset(t);
      var i :| 0 <= i < |t| && t[i] == c;
      var u := t[..i] + t[i + 1..];
      assert t == t[..i] + [c] + t[i + 1..];
      assert multiset(u) == multiset(t) - multiset{c};
      SubsetLength(rest, u);
    }
  }

  // ---------------------------------------------------------------- the selection loop

  function Min(x: int, y: int): int {
    if x < y then x else y
  }

  /** The owners in the order of their rounds, and every owner's candidates, best first. */
  ghost predicate IsIndex(candidates: seq<Candidate>, owners: seq<Uuid>, byOwner: map<Uuid, seq<Candidate>>) {
    && (forall j, k | 0 <= j < k < |owners| :: owners[j] != owners[k])
    && (forall j | 0 <= j < |owners| :: owners[j] in byOwner && byOwner[owners[j]] == Best(candidates, owners[j]))
    && (forall j | 0 <= j < |owners| :: byOwner[owners[j]] != [])
    && (forall c | c in candidates :: c.owner in owners)
  }

  /** The selection once the first `turn` owners have had their turn in this round. */
  ghost predicate AtTurn(selected: seq<Candidate>, owners: seq<Uuid>, byOwner: map<Uuid, seq<Candidate>>, round: nat, turn: nat) {
    && (forall j | 0 <= j < |owners| ::
          && owners[j] in byOwner
          && Filter(selected, owners[j])
               == byOwner[owners[j]][..Min(|byOwner[owners[j]]|, round + (if j < turn then 1 else 0))])
    && (forall o | o !in owners :: Filter(selected, o) == [])
  }

  lemma TurnPicks(candidates: seq<Candidate>, selected: seq<Candidate>, owners: seq<Uuid>, byOwner: map<Uuid, seq<Candidate>>,
                  round: nat, turn: nat)
    requires IsIndex(candidates, owners, byOwner) && AtTurn(selected, owners, byOwner, round, turn)
    requires turn < |owners| && round < |byOwner[owners[turn]]|
    ensures AtTurn(selected + [byOwner[owners[turn]][round]], owners, byOwner, round, turn + 1)
  {
    var c := byOwner[owners[turn]][round];
    assert c in Best(candidates, owners[turn]);
    BestOwns(candidates, owners[turn]);
    hide Best, Filter, IsIndex;
    forall j | 0 <= j < |owners|
      ensures Filter(selected + [c], owners[j])
           == byOwner[owners[j]][..Min(|byOwner[owners[j]]|, round + (if j < turn + 1 then 1 else 0))]
    {
      if j == turn {
        SharesGrow(selected, c, byOwner[owners[turn]], round);
      } else {
        DistinctOwners(candidates, owners, byOwner, j, turn);
        FilterNext(selected, c, owners[j]);
        assert Filter(selected + [c], owners[j]) == Filter(selected, owners[j]);
      }
    }
    forall o | o !in owners ensures Filter(selected + [c], o) == [] {
      FilterNext(selected, c, o);
    }
  }

  lemma SharesGrow(selected: seq<Candidate>, c: Candidate, items: seq<Candidate>, n: nat)
    requires n < |items| && items[n] == c && Filter(selected, c.owner) == items[..n]
    ensures Filter(selected + [c], c.owner) == items[..n + 1]
  {
    FilterNext(selected, c, c.owner);
  }

  lemma DistinctOwners(candidates: seq<Candidate>, owners: seq<Uuid>, byOwner: map<Uuid, seq<Candidate>>, j: nat, k: nat)
    requires IsIndex(candidates, owners, byOwner) && j < |owners| && k < |owners| && j != k
    ensures owners[j] != owners[k]
  {
    hide Best;
  }

  lemma BestOwns(candidates: seq<Candidate>, owner: Uuid)
    ensures forall c | c in Best(candidates, owner) :: c.owner == owner && c in candidates
    ensures forall c | c in candidates && c.owner == owner :: c in Best(candidates, owner)
  {
    BestFacts(candidates, owner);
    FilterOwns(candidates, owner);
    forall c | c in Best(candidates, owner) ensures c in Filter(candidates, owner) {
      assert c in multiset(Best(candidates, owner));
    }
    forall c | c in candidates && c.owner == owner ensures c in Best(candidates, owner) {
      FilterCounts(candidates, c);
      assert c in multiset(candidates);
      assert c in multiset(Best(candidates, owner));
    }
  }

  lemma TurnIsFair(candidates: seq<Candidate>, selected: seq<Candidate>, owners: seq<Uuid>, byOwner: map<Uuid, seq<Candidate>>,
                   round: nat, turn: nat)
    requires IsIndex(candidates, owners, byOwner) && AtTurn(selected, owners, byOwner, round, turn)
    ensures IsFair(selected, candidates)
    ensures (forall j | 0 <= j < |owners| :: |byOwner[owners[j]]| <= round) ==> !HasRest(selected, candidates)
  {
    forall o | o !in owners ensures Filter(selected, o) == [] && Best(candidates, o) == [] {
      FilterOwns(candidates, o);
      BestFacts(candidates, o);
    }
    hide Best, Filter;
    forall o ensures Filter(selected, o) <= Best(candidates, o) {
      if o in owners {
        var j :| 0 <= j < |owners| && owners[j] == o;
      }
    }
    forall o, p | Picks(selected, o) < |Best(candidates, o)| ensures Picks(selected, p) <= Picks(selected, o) + 1 {
      assert o in owners;
      var j :| 0 <= j < |owners| && owners[j] == o;
      assert Picks(selected, o) >= round;
      if p in owners {
        var k :| 0 <= k < |owners| && owners[k] == p;
        assert Picks(selected, p) <= round + 1;
      }
    }
    if forall j | 0 <= j < |owners| :: |byOwner[owners[j]]| <= round {
      forall o ensures Picks(selected, o) >= |Best(candidates, o)| {
        if o in owners {
          var j :| 0 <= j < |owners| && owners[j] == o;
        }
      }
    }
  }

  /** Every owner's candidates, in the order given. */
  method GroupByOwner(candidates: seq<Candidate>) returns (byOwner: map<Uuid, seq<Candidate>>)
    ensures forall o | o in byOwner :: byOwner[o] == Filter(candidates, o) && byOwner[o] != []
    ensures forall o | o !in byOwner :: Filter(candidates, o) == []
  {
    byOwner := map[];
    for i := 0 to |candidates|
      invariant forall o | o in byOwner :: byOwner[o] == Filter(candidates[..i], o) && byOwner[o] != []
      invariant forall o | o !in byOwner :: Filter(candidates[..i], o) == []
    {
      var c := candidates[i];
      assert candidates[..i + 1] == candidates[..i] + [c];
      forall o ensures Filter(candidates[..i + 1], o) == Filter(candidates[..i], o) + (if c.owner == o then [c] else []) {
        FilterNext(candidates[..i], c, o);
      }
      hide Filter;
      byOwner := byOwner[c.owner := (if c.owner in byOwner then byOwner[c.owner] else []) + [c]];
    }
    assert candidates[..|candidates|] == candidates;
  }

  /** Lists the owners, in whatever order the map yields them, and sorts each one's candidates. */
  method SortGroups(candidates: seq<Candidate>, groups: map<Uuid, seq<Candidate>>)
    returns (owners: seq<Uuid>, byOwner: map<Uuid, seq<Candidate>>)
    requires forall o | o in groups :: groups[o] == Filter(candidates, o) && groups[o] != []
    requires forall o | o !in groups :: Filter(candidates, o) == []
    ensures IsIndex(candidates, owners, byOwner)
  {
    hide StableSort, Filter, Best, IsIndex;
    byOwner := groups;
    owners := [];
    var rest := groups.Keys;
    while rest != {}
      invariant byOwner.Keys == groups.Keys && rest <= groups.Keys
      invariant forall o | o in owners :: o in groups && o !in rest
      invariant forall o | o in groups && o !in rest :: o in owners
      invariant forall j, k | 0 <= j < k < |owners| :: owners[j] != owners[k]
      invariant forall o | o in rest :: byOwner[o] == Filter(candidates, o)
      invariant forall o | o in owners :: byOwner[o] == Best(candidates, o)
      decreases |rest|
    {
      var owner :| owner in rest;
      BestIsSort(candidates, owner);
      owners := owners + [owner];
      byOwner := byOwner[owner := StableSort(byOwner[owner], (c: Candidate) => c)];
      rest := rest - {owner};
    }
    GroupsMakeIndex(candidates, groups, owners, byOwner);
  }

  lemma BestIsSort(candidates: seq<Candidate>, owner: Uuid)
    ensures StableSort(Filter(candidates, owner), (c: Candidate) => c) == Best(candidates, owner)
  {
  }

  lemma GroupsMakeIndex(candidates: seq<Candidate>, groups: map<Uuid, seq<Candidate>>, owners: seq<Uuid>,
                        byOwner: map<Uuid, seq<Candidate>>)
    requires forall o | o in groups :: groups[o] == Filter(candidates, o) && groups[o] != []
    requires forall o | o !in groups :: Filter(candidates, o) == []
    requires byOwner.Keys == groups.Keys && forall o | o in owners :: o in groups && byOwner[o] == Best(candidates, o)
    requires forall o | o in groups :: o in owners
    requires forall j, k | 0 <= j < k < |owners| :: owners[j] != owners[k]
    ensures IsIndex(candidates, owners, byOwner)
  {
    forall c | c in candidates ensures c.owner in groups {
      FilterOwns(candidates, c.owner);
    }
    forall o ensures |Best(candidates, o)| == |Filter(candidates, o)| {
      BestFacts(candidates, o);
    }
    hide Best, Filter;
    forall j | 0 <= j < |owners| ensures byOwner[owners[j]] != [] {
      assert owners[j] in owners;
    }
  }

  /** An owner's rank is that of its best candidate. */
  function Rank(byOwner: map<Uuid, seq<Candidate>>): Uuid -> Candidate {
    owner => if owner in byOwner && byOwner[owner] != [] then byOwner[owner][0] else Candidate(NIL, NIL, 0, 0)
  }

  lemma SortKeepsIndex(candidates: seq<Candidate>, owners: seq<Uuid>, byOwner: map<Uuid, seq<Candidate>>)
    requires IsIndex(candidates, owners, byOwner)
    ensures
      var sorted := StableSort(owners, Rank(byOwner));
      IsIndex(candidates, sorted, byOwner) && Ordered(sorted, Rank(byOwner)) && |sorted| == |owners|
  {
    var sorted := StableSort(owners, Rank(byOwner));
    SortOrders(owners, Rank(byOwner));
    hide StableSort, Best;
    forall o ensures o in sorted <==> o in owners {
      assert o in sorted <==> o in multiset(sorted);
      assert o in owners <==> o in multiset(owners);
    }
    DistinctStays(owners, sorted);
    forall j | 0 <= j < |sorted| ensures sorted[j] in byOwner && byOwner[sorted[j]] == Best(candidates, sorted[j]) && byOwner[sorted[j]] != [] {
      assert sorted[j] in owners;
      var k :| 0 <= k < |owners| && owners[k] == sorted[j];
    }
  }

  lemma DistinctStays(s: seq<Uuid>, t: seq<Uuid>)
    requires multiset(s) == multiset(t) && forall j, k | 0 <= j < k < |s| :: s[j] != s[k]
    ensures forall j, k | 0 <= j < k < |t| :: t[j] != t[k]
  {
    forall j, k | 0 <= j < k < |t| ensures t[j] != t[k] {
      if t[j] == t[k] {
        OnceEach(s, t[j]);
        Twice(t, j, k);
      }
    }
  }

  lemma Twice<T>(s: seq<T>, j: nat, k: nat)
    requires j < k < |s| && s[j] == s[k]
    ensures multiset(s)[s[j]] >= 2
  {
    assert s == s[..j] + [s[j]] + s[j + 1..k] + [s[k]] + s[k + 1..];
  }

  lemma {:induction false} OnceEach<T>(s: seq<T>, x: T)
    requires forall j, k | 0 <= j < k < |s| :: s[j] != s[k]
    ensures multiset(s)[x] <= 1
  {
    if s != [] {
      var front := s[..|s| - 1];
      OnceEach(front, x);
      assert s == front + [s[|s| - 1]];
      if s[|s| - 1] == x {
        assert x !in front;
      }
    }
  }

  /** The best of all candidates heads the first owner's list. */
  lemma FirstIsBest(candidates: seq<Candidate>, owners: seq<Uuid>, byOwner: map<Uuid, seq<Candidate>>, c: Candidate)
    requires IsIndex(candidates, owners, byOwner) && Ordered(owners, Rank(byOwner)) && |owners| >= 1 && c in candidates
    ensures !CandidateBefore(c, byOwner[owners[0]][0])
  {
    var j :| 0 <= j < |owners| && owners[j] == c.owner;
    BestOwns(candidates, c.owner);
    BestFacts(candidates, c.owner);
    var best := Best(candidates, c.owner);
    var i :| 0 <= i < |best| && best[i] == c;
    hide Best, Filter;
    assert !CandidateBefore(c, best[0]);
    assert !CandidateBefore(Rank(byOwner)(owners[j]), Rank(byOwner)(owners[0]));
  }

  /** As long as the owners last, the selection starts with the head of each owner's list, in the owners' order. */
  predicate HeadsFirst(selected: seq<Candidate>, owners: seq<Uuid>, byOwner: map<Uuid, seq<Candidate>>) {
    forall j | 0 <= j < |selected| && j < |owners| ::
      owners[j] in byOwner && byOwner[owners[j]] != [] && selected[j] == byOwner[owners[j]][0]
  }

  lemma HeadsOfNone(owners: seq<Uuid>, byOwner: map<Uuid, seq<Candidate>>)
    ensures HeadsFirst([], owners, byOwner)
  {
  }

  lemma HeadsGrow(selected: seq<Candidate>, owners: seq<Uuid>, byOwner: map<Uuid, seq<Candidate>>)
    requires HeadsFirst(selected, owners, byOwner) && |selected| < |owners|
    requires owners[|selected|] in byOwner && byOwner[owners[|selected|]] != []
    ensures HeadsFirst(selected + [byOwner[owners[|selected|]][0]], owners, byOwner)
  {
  }

  lemma HeadsStay(before: seq<Candidate>, after: seq<Candidate>, owners: seq<Uuid>, byOwner: map<Uuid, seq<Candidate>>)
    requires HeadsFirst(before, owners, byOwner) && before <= after && |owners| <= |before|
    ensures HeadsFirst(after, owners, byOwner)
  {
  }

  /** One round: every owner that still has a candidate of this rank is served, while the limit lasts. */
  method PlayRound(ghost candidates: seq<Candidate>, chosen: seq<Candidate>, owners: seq<Uuid>, byOwner: map<Uuid, seq<Candidate>>,
                   round: nat, limit: int)
    returns (selected: seq<Candidate>, added: bool, ghost turn: nat)
    requires IsIndex(candidates, owners, byOwner) && AtTurn(chosen, owners, byOwner, round, 0) && |chosen| < limit
    ensures chosen <= selected && |selected| <= limit && turn <= |owners|
    ensures AtTurn(selected, owners, byOwner, round, turn)
    ensures |selected| < limit ==> turn == |owners|
    ensures added <==> |chosen| < |selected|
    ensures !added ==> |selected| < limit && forall k | 0 <= k < |owners| :: owners[k] in byOwner && |byOwner[owners[k]]| <= round
    ensures round == 0 && chosen == [] ==> HeadsFirst(selected, owners, byOwner) && |selected| == turn
    ensures round == 0 && chosen == [] && |owners| > 0 ==> selected != []
  {
    hide Best, Filter, AtTurn, HeadsFirst;
    HeadsOfNone(owners, byOwner);
    selected, added := chosen, false;
    var j := 0;
    while j < |owners|
      invariant 0 <= j <= |owners| && chosen <= selected && |selected| < limit
      invariant AtTurn(selected, owners, byOwner, round, j)
      invariant added <==> |chosen| < |selected|
      invariant !added ==> forall k | 0 <= k < j :: |byOwner[owners[k]]| <= round
      invariant j == 0 ==> selected == chosen
      invariant round == 0 && chosen == [] ==> HeadsFirst(selected, owners, byOwner) && |selected| == j
    {
      var items := byOwner[owners[j]];
      if round < |items| {
        TurnPicks(candidates, selected, owners, byOwner, round, j);
        if round == 0 && chosen == [] {
          HeadsGrow(selected, owners, byOwner);
        }
        selected := selected + [items[round]];
        added := true;
        if |selected| == limit {
          turn := j + 1;
          return;
        }
      } else {
        TurnSkips(selected, owners, byOwner, round, j);
      }
      j := j + 1;
    }
    turn := j;
  }

  lemma TurnSkips(selected: seq<Candidate>, owners: seq<Uuid>, byOwner: map<Uuid, seq<Candidate>>, round: nat, turn: nat)
    requires AtTurn(selected, owners, byOwner, round, turn) && turn < |owners|
    requires owners[turn] in byOwner && |byOwner[owners[turn]]| <= round
    ensures AtTurn(selected, owners, byOwner, round, turn + 1)
  {
    hide Filter;
  }

  lemma NextRound(selected: seq<Candidate>, owners: seq<Uuid>, byOwner: map<Uuid, seq<Candidate>>, round: nat)
    requires AtTurn(selected, owners, byOwner, round, |owners|)
    ensures AtTurn(selected, owners, byOwner, round + 1, 0)
  {
    hide Filter;
  }

  /**
   * Selects up to `limit` candidates fairly: exactly as many as there are, if the limit allows, none
   * twice, every owner's best first, owners at most one apart, and the best candidate of all first.
   */
  method FairSelect(candidates: seq<Candidate>, limit: int) returns (selected: seq<Candidate>)
    ensures |selected| == Min(Max(limit, 0), |candidates|)
    ensures multiset(selected) <= multiset(candidates)
    ensures IsFair(selected, candidates)
    ensures selected != [] ==> forall c | c in candidates :: IsAtLeastAsGood(selected[0], c)
    ensures forall i, k | 0 <= i < k < |selected| && selected[i].owner == selected[k].owner :: IsAtLeastAsGood(selected[i], selected[k])
    ensures forall i, k | 0 <= i < k < |selected| && IsFirstPick(selected, k) :: IsAtLeastAsGood(selected[i], selected[k])
    ensures forall x: Candidate, y: Candidate | x in selected && y.owner == x.owner && multiset(selected)[y] < multiset(candidates)[y] :: IsAtLeastAsGood(x, y)
  {
    if limit <= 0 || |candidates| == 0 {
      NothingIsFair(candidates);
      return [];
    }
    var owners, byOwner := IndexByOwner(candidates);
    hide IsFair, HasRest, AtTurn, IsIndex, Ordered, CandidateBefore, IsAtLeastAsGood, HeadsFirst, IsFirstPick;
    HasFirst(candidates, owners, byOwner);
    ghost var round, turn;
    selected, round, turn := PlayRounds(candidates, owners, byOwner, limit);
    TurnIsFair(candidates, selected, owners, byOwner, round, turn);
    FairSelectsFromCandidates(selected, candidates);
    FairOrders(selected, candidates);
    FirstPicksOrder(candidates, selected, owners, byOwner);
    FirstOfAll(candidates, selected, owners, byOwner);
  }

  // ---------------------------------------------------------------- the order, written out

  /** Of higher priority, or of the same and older, or as old and with an identifier that is not larger. */
  predicate IsAtLeastAsGood(x: Candidate, y: Candidate) {
    || x.priority > y.priority
    || (x.priority == y.priority && x.createdAt < y.createdAt)
    || (x.priority == y.priority && x.createdAt == y.createdAt && x.id <= y.id)
  }

  /** No earlier pick is of the same owner. */
  predicate IsFirstPick(selected: seq<Candidate>, k: nat) {
    k < |selected| && forall i | 0 <= i < k :: selected[i].owner != selected[k].owner
  }

  lemma GoodMeansNotBefore(x: Candidate, y: Candidate)
    ensures IsAtLeastAsGood(x, y) <==> !CandidateBefore(y, x)
  {
  }

  /** Where a pick stands among its owner's. */
  lemma {:induction false} PickStands(selected: seq<Candidate>, i: nat)
    requires i < |selected|
    ensures
      var o := selected[i].owner;
      Picks(selected[..i], o) < Picks(selected, o) && Filter(selected, o)[Picks(selected[..i], o)] == selected[i]
  {
    var o, n := selected[i].owner, |selected| - 1;
    assert selected == selected[..n] + [selected[n]];
    if i < n {
      PickStands(selected[..n], i);
      assert selected[..n][..i] == selected[..i] && selected[..n][i] == selected[i];
    }
  }

  lemma {:induction false} PicksGrow(selected: seq<Candidate>, i: nat, k: nat)
    requires i < k <= |selected|
    ensures Picks(selected[..i], selected[i].owner) < Picks(selected[..k], selected[i].owner)
  {
    PickStands(selected[..k], i);
    assert selected[..k][..i] == selected[..i];
  }

  /** In a fair selection every owner's picks are in order, and none is worse than what the owner has left. */
  lemma FairOrders(selected: seq<Candidate>, candidates: seq<Candidate>)
    requires IsFair(selected, candidates)
    ensures forall i, k | 0 <= i < k < |selected| && selected[i].owner == selected[k].owner :: IsAtLeastAsGood(selected[i], selected[k])
    ensures forall x: Candidate, y: Candidate | x in selected && y.owner == x.owner && multiset(selected)[y] < multiset(candidates)[y] :: IsAtLeastAsGood(x, y)
  {
    hide Filter, Best, IsFair, IsAtLeastAsGood;
    forall i, k | 0 <= i < k < |selected| && selected[i].owner == selected[k].owner ensures IsAtLeastAsGood(selected[i], selected[k]) {
      PicksAreOrdered(selected, candidates, i, k);
    }
    forall x: Candidate, y: Candidate | x in selected && y.owner == x.owner && multiset(selected)[y] < multiset(candidates)[y] ensures IsAtLeastAsGood(x, y) {
      var i :| 0 <= i < |selected| && selected[i] == x;
      RestIsNoBetter(selected, candidates, i, y);
    }
  }

  lemma PicksAreOrdered(selected: seq<Candidate>, candidates: seq<Candidate>, i: nat, k: nat)
    requires IsFair(selected, candidates) && i < k < |selected| && selected[i].owner == selected[k].owner
    ensures IsAtLeastAsGood(selected[i], selected[k])
  {
    hide Filter, Best, CandidateBefore, IsAtLeastAsGood;
    var o := selected[i].owner;
    PickStands(selected, i);
    PickStands(selected, k);
    PicksGrow(selected, i, k);
    BestFacts(candidates, o);
    var p, q := Picks(selected[..i], o), Picks(selected[..k], o);
    assert Best(candidates, o)[p] == selected[i] && Best(candidates, o)[q] == selected[k];
    GoodMeansNotBefore(selected[i], selected[k]);
  }

  lemma RestIsNoBetter(selected: seq<Candidate>, candidates: seq<Candidate>, i: nat, y: Candidate)
    requires IsFair(selected, candidates) && i < |selected| && y.owner == selected[i].owner
    requires multiset(selected)[y] < multiset(candidates)[y]
    ensures IsAtLeastAsGood(selected[i], y)
  {
    hide Filter, Best, CandidateBefore, IsAtLeastAsGood;
    var o := y.owner;
    var mine, best := Filter(selected, o), Best(candidates, o);
    FilterCounts(selected, y);
    FilterCounts(candidates, y);
    BestFacts(candidates, o);
    assert best == mine + best[|mine|..];
    assert y in multiset(best[|mine|..]);
    var k :| 0 <= k < |best[|mine|..]| && best[|mine|..][k] == y;
    PickStands(selected, i);
    assert best[Picks(selected[..i], o)] == selected[i] && best[|mine| + k] == y;
    GoodMeansNotBefore(selected[i], y);
  }

  /** Whoever is served before an owner's first turn is at least as good as that owner's best. */
  lemma FirstPicksOrder(candidates: seq<Candidate>, selected: seq<Candidate>, owners: seq<Uuid>, byOwner: map<Uuid, seq<Candidate>>)
    requires IsIndex(candidates, owners, byOwner) && Ordered(owners, Rank(byOwner)) && HeadsFirst(selected, owners, byOwner)
    requires multiset(selected) <= multiset(candidates)
    ensures forall i, k | 0 <= i < k < |selected| && IsFirstPick(selected, k) :: IsAtLeastAsGood(selected[i], selected[k])
  {
    hide Best, CandidateBefore, IsAtLeastAsGood;
    forall i, k | 0 <= i < k < |selected| && IsFirstPick(selected, k) ensures IsAtLeastAsGood(selected[i], selected[k]) {
      assert selected[k] in multiset(candidates);
      var j :| 0 <= j < |owners| && owners[j] == selected[k].owner;
      HeadIsOwn(candidates, owners, byOwner, j);
      if j < k {
        assert false;
      }
      assert selected[i] == Rank(byOwner)(owners[i]) && selected[k] == Rank(byOwner)(owners[k]);
      GoodMeansNotBefore(selected[i], selected[k]);
    }
  }

  lemma HeadIsOwn(candidates: seq<Candidate>, owners: seq<Uuid>, byOwner: map<Uuid, seq<Candidate>>, j: nat)
    requires IsIndex(candidates, owners, byOwner) && j < |owners|
    ensures byOwner[owners[j]][0].owner == owners[j]
  {
    hide Best;
    BestOwns(candidates, owners[j]);
    assert byOwner[owners[j]][0] in byOwner[owners[j]];
  }

  lemma FirstOfAll(candidates: seq<Candidate>, selected: seq<Candidate>, owners: seq<Uuid>, byOwner: map<Uuid, seq<Candidate>>)
    requires |owners| > 0 && owners[0] in byOwner && byOwner[owners[0]] != [] && HeadsFirst(selected, owners, byOwner)
    requires forall c | c in candidates :: !CandidateBefore(c, byOwner[owners[0]][0])
    ensures selected != [] ==> forall c | c in candidates :: IsAtLeastAsGood(selected[0], c)
  {
    hide CandidateBefore, IsAtLeastAsGood;
    forall c ensures selected != [] && c in candidates ==> IsAtLeastAsGood(selected[0], c) {
      GoodMeansNotBefore(byOwner[owners[0]][0], c);
    }
  }

  /** Owners in the order of their best candidates, and each one's candidates in order. */
  method IndexByOwner(candidates: seq<Candidate>) returns (owners: seq<Uuid>, byOwner: map<Uuid, seq<Candidate>>)
    ensures IsIndex(candidates, owners, byOwner) && Ordered(owners, Rank(byOwner))
  {
    var groups := GroupByOwner(candidates);
    owners, byOwner := SortGroups(candidates, groups);
    hide IsIndex, Ordered, StableSort;
    SortKeepsIndex(candidates, owners, byOwner);
    owners := StableSort(owners, Rank(byOwner));
  }

  /** Round after round until the limit is reached or nobody has anything left. */
  method PlayRounds(ghost candidates: seq<Candidate>, owners: seq<Uuid>, byOwner: map<Uuid, seq<Candidate>>, limit: int)
    returns (selected: seq<Candidate>, ghost round: nat, ghost turn: nat)
    requires IsIndex(candidates, owners, byOwner) && limit > 0 && |owners| > 0
    requires owners[0] in byOwner && byOwner[owners[0]] != []
    ensures AtTurn(selected, owners, byOwner, round, turn) && |selected| <= limit
    ensures |selected| < limit ==> forall j | 0 <= j < |owners| :: owners[j] in byOwner && |byOwner[owners[j]]| <= round
    ensures selected != [] && HeadsFirst(selected, owners, byOwner)
  {
    hide AtTurn, IsIndex, HeadsFirst;
    HeadsOfNone(owners, byOwner);
    selected := [];
    StartTurn(owners, byOwner, candidates);
    var r := 0;
    round, turn := 0, 0;
    while |selected| < limit
      invariant |selected| <= limit && round == r
      invariant AtTurn(selected, owners, byOwner, r, turn)
      invariant |selected| < limit ==> turn == 0
      invariant selected == [] ==> r == 0
      invariant HeadsFirst(selected, owners, byOwner)
      invariant |selected| < limit ==> if r == 0 then selected == [] else |selected| >= |owners|
      decreases limit - |selected|
    {
      var grown, added, last := PlayRound(candidates, selected, owners, byOwner, r, limit);
      ghost var before := selected;
      selected, turn := grown, last;
      if r > 0 {
        HeadsStay(before, selected, owners, byOwner);
      }
      if !added {
        break;
      }
      if |selected| < limit {
        NextRound(selected, owners, byOwner, r);
        turn, r := 0, r + 1;
        round := r;
      }
    }
  }

  lemma HasFirst(candidates: seq<Candidate>, owners: seq<Uuid>, byOwner: map<Uuid, seq<Candidate>>)
    requires candidates != [] && IsIndex(candidates, owners, byOwner) && Ordered(owners, Rank(byOwner))
    ensures |owners| > 0 && owners[0] in byOwner && byOwner[owners[0]] != []
    ensures forall c | c in candidates :: !CandidateBefore(c, byOwner[owners[0]][0])
  {
    hide Best, CandidateBefore;
    assert candidates[0] in candidates;
    assert candidates[0].owner in owners;
    forall c | c in candidates ensures !CandidateBefore(c, byOwner[owners[0]][0]) {
      FirstIsBest(candidates, owners, byOwner, c);
    }
  }

  /** If no candidate is listed twice, none is selected twice. */
  lemma SelectionIsDistinct(selected: seq<Candidate>, candidates: seq<Candidate>)
    requires multiset(selected) <= multiset(candidates)
    requires forall j, k | 0 <= j < k < |candidates| :: candidates[j] != candidates[k]
    ensures forall j, k | 0 <= j < k < |selected| :: selected[j] != selected[k]
  {
    forall j, k | 0 <= j < k < |selected| ensures selected[j] != selected[k] {
      OnceEach(candidates, selected[j]);
      if selected[j] == selected[k] {
        Twice(selected, j, k);
      }
    }
  }

  lemma StartTurn(owners: seq<Uuid>, byOwner: map<Uuid, seq<Candidate>>, candidates: seq<Candidate>)
    requires IsIndex(candidates, owners, byOwner)
    ensures AtTurn([], owners, byOwner, 0, 0)
  {
    hide Best;
  }

  lemma NothingIsFair(candidates: seq<Candidate>)
    ensures IsFair([], candidates)
  {
    hide Best;
  }
}
