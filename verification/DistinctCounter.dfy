/** Distinct counting: exact up to a limit, then a sketch of the smallest digests. */
module DistinctCounter {

  /** A digest is the first eight bytes of a hash. */
  const DIGEST_MAX := 0xffff_ffff_ffff_ffff

  datatype Counter = Counter(limit: nat, exact: set<nat>, hashes: set<nat>, approximate: bool)

  function New(limit: nat, approximate: bool): Counter {
    Counter(limit, {}, {}, approximate)
  }

  ghost predicate IsMax(s: set<nat>, m: nat) {
    m in s && forall x | x in s :: x <= m
  }

  lemma {:induction false} MaxExists(s: set<nat>)
    requires s != {}
    ensures exists m :: IsMax(s, m)
  {
    var x :| x in s;
    var rest := s - {x};
    if rest == {} {
      assert s == {x};
      assert IsMax(s, x);
    } else {
      MaxExists(rest);
      var m :| IsMax(rest, m);
      var top := if m < x then x else m;
      forall y | y in s ensures y <= top {
        assert y == x || y in rest;
      }
      assert IsMax(s, top);
    }
  }

  ghost function MaxOf(s: set<nat>): (m: nat)
    requires s != {}
    ensures IsMax(s, m)
  {
    MaxExists(s);
    var m :| IsMax(s, m);
    m
  }

  ghost function Add(c: Counter, digest: nat): Counter {
    if !c.approximate then
      var exact := c.exact + {digest};
      if |exact| > c.limit then c.(approximate := true, hashes := exact, exact := {}) else c.(exact := exact)
    else
      var hashes := c.hashes + {digest};
      c.(hashes := if |hashes| > c.limit then hashes - {MaxOf(hashes)} else hashes)
  }

  /** The nearest integer, ties to even. */
  function Round(x: real): int {
    var low := x.Floor;
    var fraction := x - low as real;
    if fraction < 0.5 || (fraction == 0.5 && low % 2 == 0) then low else low + 1
  }

  /** The estimate from a full sketch: its density below its largest digest, spread over the whole range. */
  function Estimate(size: nat, maximum: nat): nat {
    if maximum == 0 || size == 0 then size
    else
      var estimate := Round((size - 1) as real * DIGEST_MAX as real / maximum as real);
      if estimate > size then estimate else size
  }

  ghost function Count(c: Counter): nat {
    if !c.approximate then |c.exact|
    else if c.hashes == {} then 0
    else if |c.hashes| < c.limit then |c.hashes|
    else Estimate(|c.hashes|, MaxOf(c.hashes))
  }

  // ---------------------------------------------------------------- the plain set it stands for

  /** `h` are the `|h|` smallest elements of `seen`. */
  ghost predicate IsSmallest(h: set<nat>, seen: set<nat>) {
    h <= seen && forall x, y | x in h && y in seen && y !in h :: x < y
  }

  /** The counter's relation to the set of digests seen; `born` is whether it was approximate from the start. */
  ghost predicate Refines(c: Counter, seen: set<nat>, born: bool) {
    if !c.approximate then !born && c.exact == seen && |seen| <= c.limit
    else
      && IsSmallest(c.hashes, seen)
      && if born then |c.hashes| == (if |seen| < c.limit then |seen| else c.limit)
         else |seen| > c.limit && (|c.hashes| == c.limit || |c.hashes| == c.limit + 1)
  }

  lemma {:induction false} SubsetSize(s: set<nat>, t: set<nat>)
    requires s <= t
    ensures |s| <= |t|
    ensures |s| == |t| ==> s == t
  {
    if x :| x in s {
      SubsetSize(s - {x}, t - {x});
      if |s| == |t| {
        assert s == (s - {x}) + {x} && t == (t - {x}) + {x};
      }
    } else {
      assert s == {};
      if |t| == 0 {
        assert t == {};
      }
    }
  }

  /** Adding a digest to the sketch and dropping the largest keeps the smallest. */
  lemma KeepsSmallest(h: set<nat>, seen: set<nat>, digest: nat)
    requires IsSmallest(h, seen)
    ensures IsSmallest(h + {digest} - {MaxOf(h + {digest})}, seen + {digest})
    ensures (h == seen || digest in h) ==> IsSmallest(h + {digest}, seen + {digest})
    ensures |h + {digest} - {MaxOf(h + {digest})}| == |h + {digest}| - 1
  {
    var grown := h + {digest};
    var m := MaxOf(grown);
    assert grown - {m} <= grown && m in grown;
    forall x, y | x in grown - {m} && y in seen + {digest} && y !in grown - {m} ensures x < y {
      if y == m {
        assert x <= m && x != m;
      } else {
        assert y in seen && y !in h && y !in grown;
        if x in h {
          assert x < y;
        } else {
          assert x == digest && m in h && m < y;
        }
      }
    }
  }

  lemma AddRefines(c: Counter, seen: set<nat>, born: bool, digest: nat)
    requires Refines(c, seen, born)
    ensures Refines(Add(c, digest), seen + {digest}, born)
    ensures Add(c, digest).limit == c.limit
  {
    if c.approximate {
      KeepsSmallest(c.hashes, seen, digest);
      SubsetSize(c.hashes, seen);
      SubsetSize(seen, seen + {digest});
      if digest in c.hashes {
        assert c.hashes + {digest} == c.hashes && seen + {digest} == seen;
      } else if digest in seen {
        assert seen + {digest} == seen;
      }
    } else {
      assert IsSmallest(c.exact + {digest}, seen + {digest});
    }
  }

  function SeenIn(digests: seq<nat>): set<nat> {
    set d | d in digests
  }

  ghost function AddAll(c: Counter, digests: seq<nat>): Counter
    decreases |digests|
  {
    if digests == [] then c else Add(AddAll(c, digests[..|digests| - 1]), digests[|digests| - 1])
  }

  lemma {:induction false} RunRefines(limit: nat, born: bool, digests: seq<nat>)
    ensures Refines(AddAll(New(limit, born), digests), SeenIn(digests), born)
    ensures AddAll(New(limit, born), digests).limit == limit
    decreases |digests|
  {
    if digests != [] {
      var front, last := digests[..|digests| - 1], digests[|digests| - 1];
      RunRefines(limit, born, front);
      AddRefines(AddAll(New(limit, born), front), SeenIn(front), born, last);
      assert digests == front + [last];
      assert SeenIn(digests) == SeenIn(front) + {last};
    } else {
      assert SeenIn(digests) == {};
    }
  }

  /** The smallest elements are determined by their number. */
  lemma SmallestIsUnique(g: set<nat>, h: set<nat>, seen: set<nat>)
    requires IsSmallest(g, seen) && IsSmallest(h, seen) && |g| == |h|
    ensures g == h
  {
    if x :| x in g && x !in h {
      forall y | y in h ensures y in g {
        assert y < x;
      }
      SubsetSize(h, g);
    } else {
      assert g <= h;
      SubsetSize(g, h);
    }
  }

  /**
   * An exact counter is exact, and its flag flips, precisely as long as and when the distinct digests
   * fit the limit; from then on it keeps the smallest digests, one more than the limit at most.
   */
  lemma ExactUntilTheLimit(limit: nat, digests: seq<nat>)
    ensures
      var c, seen := AddAll(New(limit, false), digests), SeenIn(digests);
      && (c.approximate <==> |seen| > limit)
      && (|seen| <= limit ==> Count(c) == |seen|)
      && (|seen| > limit ==> IsSmallest(c.hashes, seen) && limit <= |c.hashes| <= limit + 1)
  {
    RunRefines(limit, false, digests);
  }

  /** A counter that is approximate from the start depends on what it saw, not on the order or on repetitions. */
  lemma OrderDoesNotMatter(limit: nat, xs: seq<nat>, ys: seq<nat>)
    requires SeenIn(xs) == SeenIn(ys)
    ensures AddAll(New(limit, true), xs).hashes == AddAll(New(limit, true), ys).hashes
    ensures Count(AddAll(New(limit, true), xs)) == Count(AddAll(New(limit, true), ys))
  {
    RunRefines(limit, true, xs);
    RunRefines(limit, true, ys);
    SmallestIsUnique(AddAll(New(limit, true), xs).hashes, AddAll(New(limit, true), ys).hashes, SeenIn(xs));
  }

  /** The count never falls below the number of digests seen, as far as the limit lets it know. */
  lemma CountIsAtLeast(limit: nat, born: bool, digests: seq<nat>)
    ensures Count(AddAll(New(limit, born), digests)) >= (if |SeenIn(digests)| < limit then |SeenIn(digests)| else limit)
  {
    RunRefines(limit, born, digests);
  }

  // ---------------------------------------------------------------- repetitions after the flip

  /** Some digest was added again while the sketch held it. */
  ghost predicate Repeated(limit: nat, digests: seq<nat>) {
    exists i | 0 <= i < |digests| ::
      && AddAll(New(limit, false), digests[..i]).approximate
      && digests[i] in AddAll(New(limit, false), digests[..i]).hashes
  }

  lemma RepeatedNext(limit: nat, front: seq<nat>, last: nat)
    ensures Repeated(limit, front + [last])
       <==> Repeated(limit, front) || (AddAll(New(limit, false), front).approximate && last in AddAll(New(limit, false), front).hashes)
  {
    hide AddAll;
    var digests := front + [last];
    assert digests[..|front|] == front;
    if i :| 0 <= i < |front| && AddAll(New(limit, false), front[..i]).approximate
            && front[i] in AddAll(New(limit, false), front[..i]).hashes {
      assert digests[..i] == front[..i] && digests[i] == front[i];
    }
    if i :| 0 <= i < |digests| && AddAll(New(limit, false), digests[..i]).approximate
            && digests[i] in AddAll(New(limit, false), digests[..i]).hashes {
      if i < |front| {
        assert digests[..i] == front[..i] && digests[i] == front[i];
      }
    }
  }

  /** How adding a digest changes the size of a sketch that is full. */
  lemma SketchSize(c: Counter, digest: nat)
    requires c.approximate && (|c.hashes| == c.limit || |c.hashes| == c.limit + 1)
    ensures |Add(c, digest).hashes| == if digest in c.hashes then c.limit else |c.hashes|
  {
    if digest in c.hashes {
      assert c.hashes + {digest} == c.hashes;
    }
  }

  /** The sketch is one larger than the limit unless something was repeated. */
  ghost predicate SizeShows(c: Counter, repeated: bool) {
    if c.approximate then |c.hashes| == (if repeated then c.limit else c.limit + 1) else !repeated
  }

  lemma AddShows(c: Counter, seen: set<nat>, digest: nat, repeated: bool)
    requires Refines(c, seen, false) && SizeShows(c, repeated)
    ensures SizeShows(Add(c, digest), repeated || (c.approximate && digest in c.hashes))
  {
    if c.approximate {
      SketchSize(c, digest);
    } else {
      SubsetSize(c.exact, c.exact + {digest});
      if digest in c.exact {
        assert c.exact + {digest} == c.exact;
      }
    }
  }

  /**
   * A counter that started exact keeps one digest more than its limit exactly as long as no digest was
   * added again while the sketch held it.
   */
  lemma {:induction false} SketchIsOneLarger(limit: nat, digests: seq<nat>)
    ensures SizeShows(AddAll(New(limit, false), digests), Repeated(limit, digests))
    decreases |digests|
  {
    hide Repeated, SizeShows, Refines, Add, AddAll;
    if digests == [] {
      NothingShows(limit, digests);
    } else {
      var front, last := digests[..|digests| - 1], digests[|digests| - 1];
      SketchIsOneLarger(limit, front);
      NextShows(limit, front, last);
      assert front + [last] == digests;
    }
  }

  lemma NothingShows(limit: nat, digests: seq<nat>)
    requires digests == []
    ensures SizeShows(AddAll(New(limit, false), digests), Repeated(limit, digests))
  {
  }

  lemma NextShows(limit: nat, front: seq<nat>, last: nat)
    requires SizeShows(AddAll(New(limit, false), front), Repeated(limit, front))
    ensures SizeShows(AddAll(New(limit, false), front + [last]), Repeated(limit, front + [last]))
  {
    hide Repeated, SizeShows, Refines, Add;
    AddAllNext(New(limit, false), front, last);
    hide AddAll;
    RunRefines(limit, false, front);
    RepeatedNext(limit, front, last);
    AddShows(AddAll(New(limit, false), front), SeenIn(front), last, Repeated(limit, front));
  }

  lemma AddAllNext(c: Counter, front: seq<nat>, last: nat)
    ensures AddAll(c, front + [last]) == Add(AddAll(c, front), last)
  {
    hide Add;
    assert (front + [last])[..|front|] == front;
  }

  /** So an exact counter depends on the set of digests and on that one bit, not on their order. */
  lemma OnlyRepetitionMatters(limit: nat, xs: seq<nat>, ys: seq<nat>)
    requires SeenIn(xs) == SeenIn(ys) && (Repeated(limit, xs) <==> Repeated(limit, ys))
    ensures AddAll(New(limit, false), xs) == AddAll(New(limit, false), ys)
  {
    RunRefines(limit, false, xs);
    RunRefines(limit, false, ys);
    SketchIsOneLarger(limit, xs);
    SketchIsOneLarger(limit, ys);
    hide Repeated;
    var c, d := AddAll(New(limit, false), xs), AddAll(New(limit, false), ys);
    if c.approximate {
      SmallestIsUnique(c.hashes, d.hashes, SeenIn(xs));
      CounterParts(limit, xs);
      CounterParts(limit, ys);
    } else {
      CounterParts(limit, xs);
      CounterParts(limit, ys);
    }
  }

  /** One of the two sets is always empty. */
  lemma {:induction false} CounterParts(limit: nat, digests: seq<nat>)
    ensures
      var c := AddAll(New(limit, false), digests);
      c.limit == limit && (if c.approximate then c.exact == {} else c.hashes == {})
    decreases |digests|
  {
    if digests != [] {
      CounterParts(limit, digests[..|digests| - 1]);
    }
  }

  /** The numbers from 1 to `n`. */
  function Numbers(n: nat): (s: seq<nat>)
    ensures |s| == n && forall i | 0 <= i < n :: s[i] == i + 1
  {
    seq(n, i => i + 1)
  }

  lemma NumbersMember(n: nat, x: nat)
    ensures x in SeenIn(Numbers(n)) <==> 1 <= x <= n
  {
    hide Numbers;
    if 1 <= x <= n {
      assert Numbers(n)[x - 1] == x;
    }
  }

  lemma {:induction false} NumbersSeen(n: nat)
    ensures |SeenIn(Numbers(n))| == n && forall x: nat :: x in SeenIn(Numbers(n)) <==> 1 <= x <= n
  {
    hide Numbers, SeenIn;
    forall x: nat ensures x in SeenIn(Numbers(n)) <==> 1 <= x <= n {
      NumbersMember(n, x);
    }
    if n == 0 {
      assert SeenIn(Numbers(0)) == {};
    } else {
      NumbersSeen(n - 1);
      assert SeenIn(Numbers(n)) == SeenIn(Numbers(n - 1)) + {n};
    }
  }

  /** Distinct digests repeat nothing. */
  lemma NumbersDoNotRepeat(limit: nat, n: nat)
    ensures !Repeated(limit, Numbers(n))
  {
    forall i | 0 <= i < n ensures Numbers(n)[i] !in AddAll(New(limit, false), Numbers(n)[..i]).hashes
                               || !AddAll(New(limit, false), Numbers(n)[..i]).approximate {
      RunRefines(limit, false, Numbers(n)[..i]);
      assert Numbers(n)[..i] == Numbers(i);
      NumbersSeen(i);
    }
  }

  /** The sketch of one digest too many holds them all. */
  lemma SketchOfNumbers(n: nat)
    ensures
      var c := AddAll(New(n, false), Numbers(n + 1));
      c.approximate && c.limit == n && c.hashes == SeenIn(Numbers(n + 1))
  {
    NumbersSeen(n + 1);
    NumbersDoNotRepeat(n, n + 1);
    RunRefines(n, false, Numbers(n + 1));
    SketchIsOneLarger(n, Numbers(n + 1));
    hide AddAll, Repeated;
    SubsetSize(AddAll(New(n, false), Numbers(n + 1)).hashes, SeenIn(Numbers(n + 1)));
  }

  /** Seeing the first again drops the largest. */
  lemma SketchAfterRepetition(n: nat)
    requires n >= 1
    ensures SeenIn(Numbers(n + 1) + [1]) == SeenIn(Numbers(n + 1))
    ensures
      var c := AddAll(New(n, false), Numbers(n + 1) + [1]);
      c.approximate && c.limit == n && c.hashes == SeenIn(Numbers(n))
  {
    var xs, ys := Numbers(n + 1), Numbers(n + 1) + [1];
    SketchOfNumbers(n);
    NumbersSeen(n);
    NumbersSeen(n + 1);
    RepeatedNext(n, xs, 1);
    assert SeenIn(ys) == SeenIn(xs);
    RunRefines(n, false, ys);
    SketchIsOneLarger(n, ys);
    hide AddAll, Repeated;
    assert IsSmallest(SeenIn(Numbers(n)), SeenIn(xs));
    SmallestIsUnique(AddAll(New(n, false), ys).hashes, SeenIn(Numbers(n)), SeenIn(xs));
  }

  lemma CountOfNumbers(c: Counter, n: nat)
    requires c.approximate && n >= 1 && n >= c.limit && c.hashes == SeenIn(Numbers(n))
    ensures Count(c) == Estimate(n, n)
  {
    NumbersSeen(n);
    assert n in c.hashes;
    assert MaxOf(c.hashes) == n;
  }

  /**
   * The bit shows in the result. At 128, the smallest limit a profile may ask for, 129 distinct digests
   * are counted differently once the first is seen again.
   */
  lemma RepetitionShows()
    ensures SeenIn(Numbers(129) + [1]) == SeenIn(Numbers(129))
    ensures Count(AddAll(New(128, false), Numbers(129) + [1])) != Count(AddAll(New(128, false), Numbers(129)))
  {
    hide AddAll, Count, Estimate, SeenIn;
    SketchOfNumbers(128);
    SketchAfterRepetition(128);
    CountOfNumbers(AddAll(New(128, false), Numbers(129)), 129);
    CountOfNumbers(AddAll(New(128, false), Numbers(129) + [1]), 128);
    EstimatesDiffer();
  }

  lemma EstimatesDiffer()
    ensures Estimate(129, 129) != Estimate(128, 128)
  {
    var x, y := 128.0 * DIGEST_MAX as real / 129.0, 127.0 * DIGEST_MAX as real / 128.0;
    assert x > y + 2.0;
    assert y > 129.0;
  }

  // ---------------------------------------------------------------- the class

  class DistinctCounter {
    const limit: nat
    var exact: set<nat>
    var hashes: set<nat>
    var approximate: bool

    /** The digests added so far, and whether the counter was approximate from the start. */
    ghost var seen: set<nat>
    ghost const born: bool

    function State(): Counter
      reads this
    {
      Counter(limit, exact, hashes, approximate)
    }

    ghost predicate Valid()
      reads this
    {
      Refines(State(), seen, born)
    }

    constructor (limit: nat, approximate: bool)
      ensures Valid() && seen == {} && born == approximate && State() == New(limit, approximate)
    {
      this.limit, this.born := limit, approximate;
      this.exact, this.hashes, this.approximate, this.seen := {}, {}, approximate, {};
    }

    /** One more digest is known; while the counter is exact it knows them all, and afterwards the smallest. */
    method AddDigest(digest: nat)
      requires Valid()
      modifies this
      ensures Valid() && seen == old(seen) + {digest}
      ensures approximate <==> born || |seen| > limit
      ensures !approximate ==> exact == seen
      ensures approximate ==> IsSmallest(hashes, seen)
      ensures State() == Add(old(State()), digest)
    {
      AddRefines(State(), seen, born, digest);
      seen := seen + {digest};
      if !approximate {
        exact := exact + {digest};
        if |exact| > limit {
          approximate := true;
          hashes := exact;
          exact := {};
        }
      } else {
        hashes := hashes + {digest};
        if |hashes| > limit {
          var m := Largest(hashes);
          hashes := hashes - {m};
        }
      }
    }

    /** Exact as long as the counter is, or as its sketch is not full; never less than what it knows. */
    method CountDigests() returns (n: nat)
      requires Valid()
      ensures !approximate ==> n == |seen|
      ensures |seen| < limit ==> n == |seen|
      ensures n >= if |seen| < limit then |seen| else limit
      ensures n == Count(State())
    {
      if !approximate {
        return |exact|;
      }
      SubsetSize(hashes, seen);
      if hashes == {} {
        return 0;
      }
      if |hashes| < limit {
        return |hashes|;
      }
      var maximum := Largest(hashes);
      if maximum == 0 {
        return |hashes|;
      }
      var estimate := Round((|hashes| - 1) as real * DIGEST_MAX as real / maximum as real);
      return if estimate > |hashes| then estimate else |hashes|;
    }
  }

  method Largest(s: set<nat>) returns (m: nat)
    requires s != {}
    ensures m == MaxOf(s)
  {
    m :| m in s;
    var rest := s - {m};
    while rest != {}
      invariant m in s && rest <= s && forall x | x in s && x !in rest :: x <= m
      decreases |rest|
    {
      var x :| x in rest;
      rest := rest - {x};
      if x > m {
        m := x;
      }
    }
  }
}
