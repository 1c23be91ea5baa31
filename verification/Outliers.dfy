/** The outlier detectors, over real numbers, and how many values they can flag. */
module Outliers {

  datatype Method = Iqr | ZScore | ModifiedZScore

  datatype Warning = NoWarning | InsufficientSample | NonFiniteInput | ZeroVariance

  datatype Detection = Detection(indices: seq<nat>, warning: Warning)

  // ---------------------------------------------------------------- sorting and counting

  function Insert(x: real, s: seq<real>): seq<real> {
    if s == [] || x <= s[0] then [x] + s else [s[0]] + Insert(x, s[1..])
  }

  function Sort(s: seq<real>): seq<real> {
    if s == [] then [] else Insert(s[0], Sort(s[1..]))
  }

  ghost predicate Ordered(s: seq<real>) {
    forall i, k | 0 <= i <= k < |s| :: s[i] <= s[k]
  }

  function CountIf(s: seq<real>, p: real -> bool): nat {
    if s == [] then 0 else (if p(s[0]) then 1 else 0) + CountIf(s[1..], p)
  }

  lemma {:induction false} InsertFacts(x: real, s: seq<real>, p: real -> bool)
    requires Ordered(s)
    ensures Ordered(Insert(x, s)) && |Insert(x, s)| == |s| + 1
    ensures CountIf(Insert(x, s), p) == (if p(x) then 1 else 0) + CountIf(s, p)
    ensures forall k | 0 <= k < |Insert(x, s)| :: Insert(x, s)[k] == x || Insert(x, s)[k] in s
  {
    if s != [] && x > s[0] {
      InsertFacts(x, s[1..], p);
      var rest := Insert(x, s[1..]);
      assert forall k | 0 <= k < |rest| :: s[0] <= rest[k];
      assert ([s[0]] + rest)[1..] == rest;
    } else {
      assert ([x] + s)[1..] == s;
    }
  }

  lemma {:induction false} SortFacts(s: seq<real>, p: real -> bool)
    ensures Ordered(Sort(s)) && |Sort(s)| == |s| && CountIf(Sort(s), p) == CountIf(s, p)
  {
    if s != [] {
      SortFacts(s[1..], p);
      InsertFacts(s[0], Sort(s[1..]), p);
    }
  }

  lemma SortIsOrdered(s: seq<real>)
    ensures Ordered(Sort(s)) && |Sort(s)| == |s|
  {
    SortFacts(s, x => false);
  }

  lemma {:induction false} CountParts(s: seq<real>, t: seq<real>, p: real -> bool)
    ensures CountIf(s + t, p) == CountIf(s, p) + CountIf(t, p) && CountIf(s, p) <= |s|
  {
    if s == [] {
      assert s + t == t;
    } else {
      CountParts(s[1..], t, p);
      assert (s + t)[1..] == s[1..] + t;
    }
  }

  lemma {:induction false} CountNone(s: seq<real>, p: real -> bool)
    requires forall k | 0 <= k < |s| :: !p(s[k])
    ensures CountIf(s, p) == 0
  {
    if s != [] {
      CountNone(s[1..], p);
    }
  }

  lemma {:induction false} CountFewer(s: seq<real>, p: real -> bool, q: real -> bool)
    requires forall x :: p(x) ==> q(x)
    ensures CountIf(s, p) <= CountIf(s, q)
  {
    if s != [] {
      CountFewer(s[1..], p, q);
    }
  }

  lemma {:induction false} CountEither(s: seq<real>, p: real -> bool, q: real -> bool)
    ensures CountIf(s, x => p(x) || q(x)) <= CountIf(s, p) + CountIf(s, q)
  {
    if s != [] {
      CountEither(s[1..], p, q);
    }
  }

  // ---------------------------------------------------------------- quantiles

  function Ceil(x: real): int {
    -((-x).Floor)
  }

  lemma FloorCeil(x: real, n: int)
    requires x <= n as real
    ensures x.Floor as real <= x <= Ceil(x) as real && x.Floor <= Ceil(x) <= x.Floor + 1 && Ceil(x) <= n
  {
  }

  /** The value at a fractional rank, interpolated between its two neighbours. */
  function At(ordered: seq<real>, position: real): real
    requires ordered != [] && 0.0 <= position <= (|ordered| - 1) as real
  {
    var lower, upper := position.Floor, Ceil(position);
    if lower == upper then ordered[lower]
    else ordered[lower] + (ordered[upper] - ordered[lower]) * (position - lower as real)
  }

  /** The rank a quantile stands for. */
  function Position(n: nat, fraction: real): real {
    (n - 1) as real * fraction
  }

  function Quantile(values: seq<real>, fraction: real): real
    requires values != [] && 0.0 <= fraction <= 1.0
  {
    SortIsOrdered(values);
    Share((|values| - 1) as real, fraction);
    At(Sort(values), Position(|values|, fraction))
  }

  lemma Share(n: real, fraction: real)
    requires n >= 0.0 && 0.0 <= fraction <= 1.0
    ensures 0.0 <= n * fraction <= n
  {
  }

  lemma AtBetweenRanks(ordered: seq<real>, position: real)
    requires ordered != [] && 0.0 <= position <= (|ordered| - 1) as real && Ordered(ordered)
    ensures 0 <= position.Floor <= Ceil(position) < |ordered|
    ensures ordered[position.Floor] <= At(ordered, position) <= ordered[Ceil(position)]
  {
    var lower, upper := position.Floor, Ceil(position);
    FloorCeil(position, |ordered| - 1);
    hide Ceil;
    if lower != upper {
      Share(ordered[upper] - ordered[lower], position - lower as real);
    }
  }

  /** A quantile lies between the two ranks its position falls between. */
  lemma QuantileBetweenRanks(values: seq<real>, fraction: real)
    requires values != [] && 0.0 <= fraction <= 1.0
    ensures
      var ordered, position := Sort(values), Position(|values|, fraction);
      && |ordered| == |values| && Ordered(ordered)
      && 0 <= position.Floor <= Ceil(position) < |ordered|
      && ordered[position.Floor] <= Quantile(values, fraction) <= ordered[Ceil(position)]
  {
    hide Sort, At;
    SortIsOrdered(values);
    Share((|values| - 1) as real, fraction);
    AtBetweenRanks(Sort(values), Position(|values|, fraction));
  }

  /**
   * The quartiles in whole ranks: of n sorted values, the one `m` quarters of the way from the first to the last,
   * or the one before that point and as many quarters of the way to its successor as remain.
   */
  lemma QuartileIsExact(values: seq<real>, m: nat)
    requires values != [] && 1 <= m <= 3
    ensures
      var ordered := Sort(values);
      var k, r := m * (|values| - 1) / 4, m * (|values| - 1) % 4;
      && |ordered| == |values| && k < |values| && (r > 0 ==> k + 1 < |values|)
      && Quantile(values, m as real * 0.25)
           == if r == 0 then ordered[k] else ordered[k] + (ordered[k + 1] - ordered[k]) * (r as real * 0.25)
  {
    hide Sort, At, Ceil;
    SortIsOrdered(values);
    Quartering(|values| - 1, m);
    var k, r := m * (|values| - 1) / 4, m * (|values| - 1) % 4;
    AtQuarter(Sort(values), Position(|values|, m as real * 0.25), k, r);
  }

  lemma AtQuarter(ordered: seq<real>, p: real, k: nat, r: nat)
    requires r < 4 && k < |ordered| && (r > 0 ==> k + 1 < |ordered|) && 0.0 <= p <= (|ordered| - 1) as real
    requires p == k as real + r as real * 0.25 && p.Floor == k && Ceil(p) == (if r == 0 then k else k + 1)
    ensures At(ordered, p) == if r == 0 then ordered[k] else ordered[k] + (ordered[k + 1] - ordered[k]) * (r as real * 0.25)
  {
    hide Ceil;
    assert p - k as real == r as real * 0.25;
  }

  lemma Quartering(n: nat, m: nat)
    requires 1 <= m <= 3
    ensures
      var p, k, r := n as real * (m as real * 0.25), m * n / 4, m * n % 4;
      && p == k as real + r as real * 0.25 && p.Floor == k && Ceil(p) == (if r == 0 then k else k + 1)
      && k <= n && (r > 0 ==> k + 1 <= n)
  {
    var p, k, r := n as real * (m as real * 0.25), m * n / 4, m * n % 4;
    assert m * n == 4 * k + r;
    assert p == (m * n) as real * 0.25;
    assert p == k as real + r as real * 0.25;
  }

  /** At most the ranks above a value can exceed it, and at most the ranks below can fall short of it. */
  lemma FewAbove(values: seq<real>, rank: nat, bound: real)
    requires rank < |values| && |Sort(values)| == |values| && Sort(values)[rank] <= bound
    ensures CountIf(values, x => x > bound) <= |values| - 1 - rank
  {
    var s, p := Sort(values), x => x > bound;
    SortFacts(values, p);
    assert s == s[..rank + 1] + s[rank + 1..];
    CountParts(s[..rank + 1], s[rank + 1..], p);
    CountParts(s[rank + 1..], [], p);
    CountNone(s[..rank + 1], p);
  }

  lemma FewBelow(values: seq<real>, rank: nat, bound: real)
    requires rank < |values| && |Sort(values)| == |values| && bound <= Sort(values)[rank]
    ensures CountIf(values, x => x < bound) <= rank
  {
    var s, p := Sort(values), x => x < bound;
    SortFacts(values, p);
    assert s == s[..rank] + s[rank..];
    CountParts(s[..rank], s[rank..], p);
    CountNone(s[rank..], p);
  }

  // ---------------------------------------------------------------- the detectors

  function Abs(x: real): real {
    if x < 0.0 then -x else x
  }

  function Sq(x: real): real {
    x * x
  }

  function Sum(s: seq<real>): real {
    if s == [] then 0.0 else s[0] + Sum(s[1..])
  }

  function Map(s: seq<real>, f: real -> real): seq<real> {
    seq(|s|, i requires 0 <= i < |s| => f(s[i]))
  }

  function Mean(values: seq<real>): real
    requires values != []
  {
    Sum(values) / |values| as real
  }

  function Variance(values: seq<real>): real
    requires values != []
  {
    var mean := Mean(values);
    Sum(Map(values, v => Sq(v - mean))) / |values| as real
  }

  function Deviations(values: seq<real>): seq<real>
    requires values != []
  {
    var median := Quantile(values, 0.5);
    Map(values, v => Abs(v - median))
  }

  /** The indices whose value is flagged, in order. */
  function Flagged(values: seq<real>, from: nat, p: real -> bool): seq<nat> {
    if values == [] then []
    else (if p(values[0]) then [from] else []) + Flagged(values[1..], from + 1, p)
  }

  lemma {:induction false} FlaggedIsCount(values: seq<real>, from: nat, p: real -> bool)
    ensures |Flagged(values, from, p)| == CountIf(values, p)
  {
    if values != [] {
      FlaggedIsCount(values[1..], from + 1, p);
    }
  }

  lemma {:induction false} FlaggedByValue(values: seq<real>, from: nat, p: real -> bool, i: nat)
    ensures i in Flagged(values, from, p) <==> from <= i < from + |values| && p(values[i - from])
  {
    if values != [] {
      var rest := Flagged(values[1..], from + 1, p);
      FlaggedByValue(values[1..], from + 1, p, i);
      assert i in Flagged(values, from, p) <==> (p(values[0]) && i == from) || i in rest;
      assert i > from ==> i - from - 1 < |values[1..]| ==> values[1..][i - from - 1] == values[i - from];
    }
  }

  /** What the method flags; `spread` is the square root of the variance, taken by the library. */
  function Flags(values: seq<real>, m: Method, threshold: real, spread: real): real -> bool
    requires values != []
  {
    match m
    case Iqr =>
      var q1, q3 := Quantile(values, 0.25), Quantile(values, 0.75);
      (v: real) => v < q1 - threshold * (q3 - q1) || v > q3 + threshold * (q3 - q1)
    case ZScore =>
      var mean := Mean(values);
      (v: real) => if spread == 0.0 then false else Abs(v - mean) / spread > threshold
    case ModifiedZScore =>
      var median, mad := Quantile(values, 0.5), Quantile(Deviations(values), 0.5);
      (v: real) => if mad == 0.0 then false else 0.6745 * Abs(v - median) / mad > threshold
  }

  function SpreadOf(values: seq<real>, m: Method, spread: real): real
    requires values != []
  {
    match m
    case Iqr => Quantile(values, 0.75) - Quantile(values, 0.25)
    case ZScore => spread
    case ModifiedZScore => Quantile(Deviations(values), 0.5)
  }

  function Detect(values: seq<real>, m: Method, threshold: real, minimum: int, spread: real): Detection {
    if |values| < minimum then Detection([], InsufficientSample)
    else if values == [] then Detection([], NonFiniteInput)
    else if SpreadOf(values, m, spread) == 0.0 then Detection([], ZeroVariance)
    else Detection(Flagged(values, 0, Flags(values, m, threshold, spread)), NoWarning)
  }

  /** A detection flags exactly the indices whose value its method flags. */
  lemma DetectFlagsByValue(values: seq<real>, m: Method, threshold: real, minimum: int, spread: real, i: nat)
    requires Detect(values, m, threshold, minimum, spread).warning == NoWarning
    ensures values != []
    ensures i in Detect(values, m, threshold, minimum, spread).indices
       <==> i < |values| && Flags(values, m, threshold, spread)(values[i])
  {
    FlaggedByValue(values, 0, Flags(values, m, threshold, spread), i);
  }

  /** No detection flags more values than its method's test. */
  lemma DetectCounts(values: seq<real>, m: Method, threshold: real, minimum: int, spread: real)
    requires values != []
    ensures |Detect(values, m, threshold, minimum, spread).indices| <= CountIf(values, Flags(values, m, threshold, spread))
  {
    FlaggedIsCount(values, 0, Flags(values, m, threshold, spread));
  }

  // ---------------------------------------------------------------- IQR

  lemma Quarters(n: nat)
    ensures Ceil(n as real * 0.25) == (n + 3) / 4 && n - (n as real * 0.75).Floor == (n + 3) / 4
  {
    var p, q := n as real * 0.25, n as real * 0.75;
    assert 4.0 * p == n as real && 4.0 * q == 3.0 * n as real;
  }

  lemma QuartilesOrdered(values: seq<real>)
    requires values != []
    ensures Quantile(values, 0.25) <= Quantile(values, 0.75)
  {
    var p, q := Position(|values|, 0.25), Position(|values|, 0.75);
    QuantileBetweenRanks(values, 0.25);
    QuantileBetweenRanks(values, 0.75);
    var ordered := Sort(values);
    if |values| == 2 {
      TwoValues(ordered);
    } else {
      hide Sort, Quantile, At;
      assert q - p == 0.5 * (|values| - 1) as real;
      if |values| == 1 {
        assert p == q == 0.0;
      } else {
        assert q - p >= 1.0;
        assert Ceil(p) <= q.Floor;
        assert ordered[Ceil(p)] <= ordered[q.Floor];
      }
    }
  }

  lemma TwoValues(ordered: seq<real>)
    requires |ordered| == 2 && Ordered(ordered)
    ensures At(ordered, 0.25) <= At(ordered, 0.75)
  {
    assert (0.25).Floor == 0 && Ceil(0.25) == 1 && (0.75).Floor == 0 && Ceil(0.75) == 1;
    assert ordered[0] <= ordered[1];
  }

  /** The interquartile method flags at most twice a quarter of the other values, rounded up. */
  lemma IqrFlagsFew(values: seq<real>, threshold: real, minimum: int, spread: real)
    requires values != [] && threshold >= 0.0
    ensures |Detect(values, Iqr, threshold, minimum, spread).indices| <= 2 * ((|values| - 1 + 3) / 4)
  {
    hide Detect, Flags, Quantile, CountIf;
    DetectCounts(values, Iqr, threshold, minimum, spread);
    forall v ensures Flags(values, Iqr, threshold, spread)(v) ==> v < Quantile(values, 0.25) || v > Quantile(values, 0.75) {
      IqrFlagsOutside(values, threshold, spread, v);
    }
    OutsideQuartiles(values, Quantile(values, 0.25), Quantile(values, 0.75), Flags(values, Iqr, threshold, spread));
  }

  lemma IqrFlagsOutside(values: seq<real>, threshold: real, spread: real, v: real)
    requires values != [] && threshold >= 0.0
    ensures Flags(values, Iqr, threshold, spread)(v) ==> v < Quantile(values, 0.25) || v > Quantile(values, 0.75)
  {
    hide Quantile;
    QuartilesOrdered(values);
    NonNegative(threshold, Quantile(values, 0.75) - Quantile(values, 0.25));
  }

  lemma NonNegative(x: real, y: real)
    requires x >= 0.0 && y >= 0.0
    ensures x * y >= 0.0
  {
  }

  lemma OutsideQuartiles(values: seq<real>, low: real, high: real, p: real -> bool)
    requires values != [] && low <= Quantile(values, 0.25) && Quantile(values, 0.75) <= high
    requires forall v :: p(v) ==> v < low || v > high
    ensures CountIf(values, p) <= 2 * ((|values| - 1 + 3) / 4)
  {
    hide Sort, Quantile, CountIf;
    var quarter := (|values| - 1 + 3) / 4;
    QuartileRanks(values);
    FewBelow(values, quarter, low);
    FewAbove(values, |values| - 1 - quarter, high);
    var below, above := (x: real) => x < low, (x: real) => x > high;
    CountEither(values, below, above);
    CountFewer(values, p, x => below(x) || above(x));
  }

  /** The quartiles lie within the ranks a quarter from either end. */
  lemma QuartileRanks(values: seq<real>)
    requires values != []
    ensures
      var quarter := (|values| - 1 + 3) / 4;
      && |Sort(values)| == |values| && quarter < |values|
      && Quantile(values, 0.25) <= Sort(values)[quarter]
      && Sort(values)[|values| - 1 - quarter] <= Quantile(values, 0.75)
  {
    hide Sort, Quantile;
    QuantileBetweenRanks(values, 0.25);
    QuantileBetweenRanks(values, 0.75);
    Quarters(|values| - 1);
  }

  // ---------------------------------------------------------------- modified z-score

  lemma Halves(n: nat)
    requires n >= 1
    ensures n - 1 - Position(n, 0.5).Floor == n / 2
  {
    var p := Position(n, 0.5);
    assert 2.0 * p == (n - 1) as real;
  }

  lemma {:induction false} CountMapped(s: seq<real>, f: real -> real, p: real -> bool)
    ensures CountIf(Map(s, f), p) == CountIf(s, x => p(f(x)))
  {
    if s != [] {
      CountMapped(s[1..], f, p);
      assert Map(s, f)[1..] == Map(s[1..], f);
    }
  }

  /** With a threshold of at least 0.6745 the modified z-score flags at most half the values. */
  lemma ModifiedZScoreFlagsHalf(values: seq<real>, threshold: real, minimum: int, spread: real)
    requires values != [] && threshold >= 0.6745
    ensures |Detect(values, ModifiedZScore, threshold, minimum, spread).indices| <= |values| / 2
  {
    var median, deviations := Quantile(values, 0.5), Deviations(values);
    var mad := Quantile(deviations, 0.5);
    DetectCounts(values, ModifiedZScore, threshold, minimum, spread);
    var p := Flags(values, ModifiedZScore, threshold, spread);
    MadIsPositive(values);
    forall v ensures p(v) ==> Abs(v - median) > mad {
      if p(v) {
        FarFromMedian(Abs(v - median), mad, threshold);
      }
    }
    QuantileBetweenRanks(deviations, 0.5);
    Halves(|values|);
    hide Sort, Quantile, CountIf, Detect, Flags, Abs;
    FewAbove(deviations, Position(|values|, 0.5).Floor, mad);
    var far := (x: real) => x > mad;
    CountMapped(values, v => Abs(v - median), far);
    CountFewer(values, p, x => far((v => Abs(v - median))(x)));
  }

  lemma FarFromMedian(deviation: real, mad: real, threshold: real)
    requires deviation >= 0.0 && mad > 0.0 && threshold >= 0.6745 && 0.6745 * deviation / mad > threshold
    ensures deviation > mad
  {
    Above(0.6745 * deviation, mad, threshold);
    NonNegative(threshold - 0.6745, mad);
    assert (threshold - 0.6745) * mad == threshold * mad - 0.6745 * mad;
  }

  lemma Above(x: real, z: real, t: real)
    requires z > 0.0 && x / z > t
    ensures x > t * z
  {
    var q := x / z;
    assert q * z == x;
    assert (q - t) * z > 0.0 by { Grow(q - t, z); }
    assert (q - t) * z == q * z - t * z;
  }

  lemma AboveExactly(x: real, z: real, t: real)
    requires z > 0.0
    ensures x / z > t <==> x > t * z
  {
    if x / z > t {
      Above(x, z, t);
    } else {
      var q := x / z;
      assert q * z == x;
      NonNegative(t - q, z);
      assert (t - q) * z == t * z - q * z;
    }
  }

  lemma Grow(x: real, y: real)
    requires x > 0.0 && y > 0.0
    ensures x * y > 0.0
  {
  }

  lemma MadIsPositive(values: seq<real>)
    requires values != []
    ensures Quantile(Deviations(values), 0.5) >= 0.0
  {
    QuantileBetweenRanks(Deviations(values), 0.5);
    var deviations, median := Deviations(values), Quantile(values, 0.5);
    hide Sort, At;
    forall k | 0 <= k < |deviations| ensures deviations[k] >= 0.0 {
      assert deviations[k] == Abs(values[k] - median);
    }
    NoneNegative(deviations);
    var rank := Position(|deviations|, 0.5).Floor;
    hide Quantile;
    assert Sort(deviations)[rank] >= 0.0;
  }

  lemma {:induction false} NoneNegative(s: seq<real>)
    requires forall k | 0 <= k < |s| :: s[k] >= 0.0
    ensures forall k | 0 <= k < |Sort(s)| :: Sort(s)[k] >= 0.0
  {
    if s != [] {
      NoneNegative(s[1..]);
      SortFacts(s[1..], x => false);
      InsertFacts(s[0], Sort(s[1..]), x => false);
    }
  }

  /** Below that threshold the bound fails: of -1, 0 and 1 the method flags two. */
  lemma SmallThresholdFlagsMore(threshold: real)
    requires 0.0 <= threshold < 0.6745
    ensures |Detect([-1.0, 0.0, 1.0], ModifiedZScore, threshold, 3, 0.0).indices| > 3 / 2
  {
    var values := [-1.0, 0.0, 1.0];
    assert Position(3, 0.5) == 1.0 && (1.0).Floor == 1 && Ceil(1.0) == 1;
    assert values[1..] == [0.0, 1.0] && [0.0, 1.0][1..] == [1.0] && [1.0][1..] == [];
    assert Sort(values) == values;
    assert Quantile(values, 0.5) == 0.0;
    var deviations := Deviations(values);
    assert |deviations| == 3;
    assert deviations[0] == Abs(-1.0) && deviations[1] == Abs(0.0) && deviations[2] == Abs(1.0);
    assert deviations == [1.0, 0.0, 1.0];
    assert deviations[1..] == [0.0, 1.0];
    assert Sort([0.0, 1.0]) == [0.0, 1.0];
    assert Insert(1.0, [0.0, 1.0]) == [0.0] + Insert(1.0, [1.0]) == [0.0, 1.0, 1.0];
    assert Sort(deviations) == [0.0, 1.0, 1.0];
    assert Quantile(deviations, 0.5) == 1.0;
    var p := Flags(values, ModifiedZScore, threshold, 0.0);
    assert p(-1.0) && !p(0.0) && p(1.0);
    assert Flagged(values, 0, p) == [0] + Flagged([0.0, 1.0], 1, p);
    assert Flagged([0.0, 1.0], 1, p) == [] + Flagged([1.0], 2, p);
    assert Flagged([1.0], 2, p) == [2];
  }

  // ---------------------------------------------------------------- squares

  lemma PositiveProduct(x: real, y: real, product: real)
    requires x > 0.0 && y > 0.0 && product == x * y
    ensures product > 0.0
  {
  }

  lemma SqFacts(x: real)
    ensures Sq(x) >= 0.0 && Sq(-x) == Sq(x)
    ensures x == 0.0 <==> Sq(x) == 0.0
  {
    if x > 0.0 {
      PositiveProduct(x, x, Sq(x));
    } else if x < 0.0 {
      PositiveProduct(-x, -x, Sq(x));
    }
  }

  lemma SqProduct(x: real, y: real)
    ensures Sq(x * y) == Sq(x) * Sq(y)
  {
    var p := x * y;
    assert p * p == x * (y * p) && y * p == x * Sq(y);
    assert x * (x * Sq(y)) == Sq(x) * Sq(y);
  }

  lemma SqSum(x: real, y: real)
    ensures Sq(x + y) == Sq(x) + 2.0 * (x * y) + Sq(y)
  {
    assert Sq(x + y) == (x + y) * (x + y);
    assert (x + y) * (x + y) == x * (x + y) + y * (x + y);
    assert x * (x + y) == Sq(x) + x * y;
    assert y * (x + y) == x * y + Sq(y);
  }

  lemma SqLess(b: real, a: real)
    requires 0.0 <= b < a
    ensures Sq(b) < Sq(a)
  {
    PositiveProduct(a - b, a + b, Sq(a) - Sq(b));
  }

  lemma Less(x: real, y: real, factor: real)
    requires factor > 0.0 && x * factor < y * factor
    ensures x < y
  {
    assert (x - y) * factor == x * factor - y * factor;
    if x >= y {
      NonNegative(x - y, factor);
    }
  }

  lemma LessOrEqual(x: real, y: real, factor: real)
    requires factor > 0.0 && factor * x <= factor * y
    ensures x <= y
  {
    assert factor * (x - y) == factor * x - factor * y;
    if x > y {
      Grow(factor, x - y);
    }
  }

  // ---------------------------------------------------------------- z-score

  lemma {:induction false} SumOfFlagged(values: seq<real>, f: real -> real, p: real -> bool, least: real)
    requires least >= 0.0 && forall v :: f(v) >= 0.0 && (p(v) ==> f(v) > least)
    ensures Sum(Map(values, f)) >= CountIf(values, p) as real * least
    ensures CountIf(values, p) > 0 ==> Sum(Map(values, f)) > CountIf(values, p) as real * least
  {
    if values != [] {
      SumOfFlagged(values[1..], f, p, least);
      assert Map(values, f)[1..] == Map(values[1..], f);
    }
  }

  /** The library's square root of the variance. */
  predicate IsSpread(values: seq<real>, spread: real)
    requires values != []
  {
    spread >= 0.0 && Sq(spread) == Variance(values)
  }

  /** If any value is flagged, fewer than one in `threshold` squared is. */
  lemma ZScoreFlagsFew(values: seq<real>, threshold: real, minimum: int, spread: real)
    requires values != [] && threshold >= 0.0 && IsSpread(values, spread)
    ensures
      var k := |Detect(values, ZScore, threshold, minimum, spread).indices|;
      k > 0 ==> k as real * Sq(threshold) < |values| as real
  {
    var k := |Detect(values, ZScore, threshold, minimum, spread).indices|;
    hide Flags, CountIf, Variance, Sq, Detect;
    if k > 0 {
      ZScoreCounts(values, threshold, minimum, spread);
      SqFacts(spread);
      FlaggedAreFar(values, threshold, spread);
      assert k as real * (Sq(threshold) * Sq(spread)) == (k as real * Sq(threshold)) * Sq(spread);
      Less(k as real * Sq(threshold), |values| as real, Sq(spread));
    }
  }

  lemma ZScoreCounts(values: seq<real>, threshold: real, minimum: int, spread: real)
    requires values != []
    ensures
      var k := |Detect(values, ZScore, threshold, minimum, spread).indices|;
      k > 0 ==> spread != 0.0 && k == CountIf(values, Flags(values, ZScore, threshold, spread))
  {
    hide Flags;
    FlaggedIsCount(values, 0, Flags(values, ZScore, threshold, spread));
  }

  lemma FlaggedAreFar(values: seq<real>, threshold: real, spread: real)
    requires values != [] && threshold >= 0.0 && spread > 0.0 && IsSpread(values, spread)
    ensures
      var k := CountIf(values, Flags(values, ZScore, threshold, spread));
      k > 0 ==> k as real * (Sq(threshold) * Sq(spread)) < |values| as real * Sq(spread)
  {
    hide Flags, CountIf, Sum, Map, Sq;
    var p, mean := Flags(values, ZScore, threshold, spread), Mean(values);
    var least := Sq(threshold) * Sq(spread);
    var square := (v: real) => Sq(v - mean);
    forall v ensures square(v) >= 0.0 && (p(v) ==> square(v) > least) {
      ZScoreIsFar(values, threshold, spread, v);
    }
    SqFacts(threshold);
    SqFacts(spread);
    NonNegative(Sq(threshold), Sq(spread));
    SumOfFlagged(values, square, p, least);
    SquaresSum(values, spread);
  }

  lemma SquaresSum(values: seq<real>, spread: real)
    requires values != [] && IsSpread(values, spread)
    ensures
      var mean := Mean(values);
      Sum(Map(values, v => Sq(v - mean))) == |values| as real * Sq(spread)
  {
    hide Sum, Map, Sq, Mean;
    var mean, n := Mean(values), |values| as real;
    var total := Sum(Map(values, v => Sq(v - mean)));
    Undivided(total, n, Variance(values));
  }

  lemma ZScoreIsFar(values: seq<real>, threshold: real, spread: real, v: real)
    requires values != [] && threshold >= 0.0 && spread > 0.0
    ensures
      var d := Sq(v - Mean(values));
      d >= 0.0 && (Flags(values, ZScore, threshold, spread)(v) ==> d > Sq(threshold) * Sq(spread))
  {
    hide Sum, Sq, Mean;
    var d := v - Mean(values);
    SqFacts(d);
    if Flags(values, ZScore, threshold, spread)(v) {
      Above(Abs(d), spread, threshold);
      NonNegative(threshold, spread);
      SqLess(threshold * spread, Abs(d));
      SqProduct(threshold, spread);
    }
  }

  // ---------------------------------------------------------------- small samples

  /** The square of a sum is at most the number of terms times the sum of the squares. */
  lemma {:induction false} CauchySchwarz(s: seq<real>)
    ensures Sq(Sum(s)) <= |s| as real * Sum(Map(s, Sq))
    ensures Sum(Map(s, Sq)) >= 0.0
  {
    if s != [] {
      var d, t := s[0], s[1..];
      CauchySchwarz(t);
      assert Map(s, Sq)[1..] == Map(t, Sq);
      SquareStep(Sum(t), Sum(Map(t, Sq)), |t| as real, d);
    }
  }

  lemma SquareStep(sum: real, squares: real, m: real, d: real)
    requires m >= 0.0 && squares >= 0.0 && Sq(sum) <= m * squares && (m == 0.0 || m >= 1.0)
    ensures Sq(d + sum) <= (m + 1.0) * (Sq(d) + squares)
    ensures Sq(d) + squares >= 0.0
  {
    hide Sq;
    SqFacts(d);
    SqFacts(sum);
    SqSum(d, sum);
    assert (m + 1.0) * (Sq(d) + squares) == m * Sq(d) + m * squares + Sq(d) + squares;
    if m == 0.0 {
      assert sum == 0.0;
      assert d * sum == 0.0;
    } else {
      CrossTerm(sum, squares, m, d);
    }
  }

  lemma CrossTerm(sum: real, squares: real, m: real, d: real)
    requires m >= 1.0 && Sq(sum) <= m * squares
    ensures 2.0 * (d * sum) <= m * Sq(d) + squares
  {
    hide Sq;
    SqFacts(m * d - sum);
    SqSum(m * d, -sum);
    SqFacts(sum);
    SqProduct(m, d);
    Factor(m, d, sum);
    var y := m * Sq(d) + squares;
    assert m * y == m * (m * Sq(d)) + m * squares;
    assert m * (2.0 * (d * sum)) == 2.0 * (m * (d * sum));
    LessOrEqual(2.0 * (d * sum), y, m);
  }

  lemma Factor(m: real, d: real, sum: real)
    ensures Sq(m) * Sq(d) == m * (m * Sq(d)) && (m * d) * -sum == -(m * (d * sum))
  {
    var e := Sq(d);
    assert Sq(m) * e == m * (m * e);
    assert (m * d) * sum == m * (d * sum);
  }

  lemma {:induction false} SumWithout(s: seq<real>, i: nat)
    requires i < |s|
    ensures Sum(s) == s[i] + Sum(s[..i] + s[i + 1..])
  {
    if i == 0 {
      assert s[..0] + s[1..] == s[1..];
    } else {
      SumWithout(s[1..], i - 1);
      assert s[1..][..i - 1] == s[1..i] && s[1..][i..] == s[i + 1..];
      assert s[..i] + s[i + 1..] == [s[0]] + (s[1..i] + s[i + 1..]);
      assert ([s[0]] + (s[1..i] + s[i + 1..]))[1..] == s[1..i] + s[i + 1..];
    }
  }

  lemma {:induction false} SumShifted(s: seq<real>, by_: real)
    ensures Sum(Map(s, v => v - by_)) == Sum(s) - |s| as real * by_
  {
    if s != [] {
      SumShifted(s[1..], by_);
      assert Map(s, v => v - by_)[1..] == Map(s[1..], v => v - by_);
      assert |s| as real * by_ == |s[1..]| as real * by_ + by_;
    }
  }

  /** No deviation from the mean exceeds what the others can balance. */
  lemma DeviationIsBounded(ds: seq<real>, i: nat)
    requires i < |ds| && Sum(ds) == 0.0
    ensures |ds| as real * Sq(ds[i]) <= (|ds| - 1) as real * Sum(Map(ds, Sq))
  {
    hide Sq, Sum, Map;
    OthersBalance(ds, i);
    SquaresWithout(ds, i);
    Balance(|ds|, Sq(ds[i]), Sum(Map(ds[..i] + ds[i + 1..], Sq)), Sum(Map(ds, Sq)));
  }

  lemma OthersBalance(ds: seq<real>, i: nat)
    requires i < |ds| && Sum(ds) == 0.0
    ensures Sq(ds[i]) <= (|ds| - 1) as real * Sum(Map(ds[..i] + ds[i + 1..], Sq))
  {
    hide Sq, Sum, Map;
    var rest := ds[..i] + ds[i + 1..];
    SumWithout(ds, i);
    assert Sum(rest) == -ds[i] && |rest| == |ds| - 1;
    SqFacts(ds[i]);
    CauchySchwarz(rest);
  }

  lemma SquaresWithout(ds: seq<real>, i: nat)
    requires i < |ds|
    ensures Sum(Map(ds, Sq)) == Sq(ds[i]) + Sum(Map(ds[..i] + ds[i + 1..], Sq))
  {
    hide Sum, Sq;
    SumWithout(Map(ds, Sq), i);
    assert Map(ds, Sq)[..i] + Map(ds, Sq)[i + 1..] == Map(ds[..i] + ds[i + 1..], Sq);
  }

  lemma Balance(n: nat, d2: real, q: real, total: real)
    requires n >= 1 && d2 <= (n - 1) as real * q && total == d2 + q
    ensures n as real * d2 <= (n - 1) as real * total
  {
    var m := (n - 1) as real;
    assert n as real * d2 == m * d2 + d2;
    assert m * total == m * d2 + m * q;
  }

  /** In a sample with at most `threshold` squared other values, the z-score flags nothing. */
  lemma ZScoreIgnoresSmallSamples(values: seq<real>, threshold: real, minimum: int, spread: real)
    requires values != [] && threshold >= 0.0 && IsSpread(values, spread)
    requires (|values| - 1) as real <= Sq(threshold)
    ensures Detect(values, ZScore, threshold, minimum, spread).indices == []
  {
    hide Sq, Variance;
    var p := Flags(values, ZScore, threshold, spread);
    FlaggedIsCount(values, 0, p);
    if spread > 0.0 {
      forall i | 0 <= i < |values| ensures !p(values[i]) {
        NothingIsFarEnough(values, threshold, spread, i);
      }
      hide Flags;
      CountNone(values, p);
    }
  }

  lemma DeviationsBalance(values: seq<real>, ds: seq<real>)
    requires values != [] && ds == Map(values, v => v - Mean(values))
    ensures Sum(ds) == 0.0
  {
    hide Sum, Map;
    var mean := Mean(values);
    assert mean == Sum(values) / |values| as real;
    SumShifted(values, mean);
    Undivided(Sum(values), |values| as real, mean);
    hide Mean;
    assert ds == Map(values, v => v - mean);
  }

  lemma Undivided(total: real, n: real, quotient: real)
    requires n > 0.0 && quotient == total / n
    ensures n * quotient == total
  {
    assert quotient * n == total;
  }

  lemma NothingIsFarEnough(values: seq<real>, threshold: real, spread: real, i: nat)
    requires i < |values| && threshold >= 0.0 && spread > 0.0 && IsSpread(values, spread)
    requires (|values| - 1) as real <= Sq(threshold)
    ensures !Flags(values, ZScore, threshold, spread)(values[i])
  {
    hide Flags, Sum, Sq;
    var mean, n := Mean(values), |values| as real;
    var ds := Map(values, v => v - Mean(values));
    DeviationsBalance(values, ds);
    DeviationIsBounded(ds, i);
    var squares, others := Map(ds, Sq), Map(values, v => Sq(v - mean));
    forall j | 0 <= j < |values| ensures squares[j] == others[j] {
      assert ds[j] == values[j] - mean;
    }
    assert squares == others;
    SquaresSum(values, spread);
    ZScoreIsFar(values, threshold, spread, values[i]);
    SqFacts(spread);
    hide Map, Mean, Variance;
    TooClose(n, Sq(values[i] - mean), Sq(threshold), Sq(spread));
  }

  lemma TooClose(n: real, d2: real, t2: real, s2: real)
    requires n >= 1.0 && s2 >= 0.0 && n - 1.0 <= t2 && n * d2 <= (n - 1.0) * (n * s2)
    ensures d2 <= t2 * s2
  {
    NonNegative(t2 - (n - 1.0), s2);
    assert (t2 - (n - 1.0)) * s2 == t2 * s2 - (n - 1.0) * s2;
    assert (n - 1.0) * (n * s2) == n * ((n - 1.0) * s2);
    LessOrEqual(d2, (n - 1.0) * s2, n);
  }

  // ---------------------------------------------------------------- exactly which values are flagged

  /** Outside the fences a quarter of the way in from either end, widened by `threshold` times their distance. */
  ghost predicate OutsideFences(values: seq<real>, threshold: real, v: real)
    requires values != []
  {
    var q1, q3 := Quantile(values, 0.25), Quantile(values, 0.75);
    v < q1 - threshold * (q3 - q1) || v > q3 + threshold * (q3 - q1)
  }

  /** Farther from the mean than `threshold` standard deviations. */
  ghost predicate FarFromMean(values: seq<real>, threshold: real, spread: real, v: real)
    requires values != []
  {
    v - Mean(values) > threshold * spread || Mean(values) - v > threshold * spread
  }

  /** Farther from the median than `threshold` deviations, in units of 0.6745 of the median deviation. */
  ghost predicate FarFromTheMedian(values: seq<real>, threshold: real, v: real)
    requires values != []
  {
    var median, mad := Quantile(values, 0.5), Quantile(Deviations(values), 0.5);
    0.6745 * (v - median) > threshold * mad || 0.6745 * (median - v) > threshold * mad
  }

  ghost predicate IsOutlying(values: seq<real>, m: Method, threshold: real, spread: real, v: real)
    requires values != []
  {
    match m
    case Iqr => OutsideFences(values, threshold, v)
    case ZScore => FarFromMean(values, threshold, spread, v)
    case ModifiedZScore => FarFromTheMedian(values, threshold, v)
  }

  /**
   * A detection that is not refused lists exactly the outlying values, each once and in order, and it is refused
   * exactly for too few values or for values without spread.
   */
  lemma DetectedExactly(values: seq<real>, m: Method, threshold: real, minimum: int, spread: real)
    requires values != [] && IsSpread(values, spread)
    ensures
      var d := Detect(values, m, threshold, minimum, spread);
      if |values| < minimum then d == Detection([], InsufficientSample)
      else if (match m
               case Iqr => Quantile(values, 0.25) == Quantile(values, 0.75)
               case ZScore => Variance(values) == 0.0
               case ModifiedZScore => Quantile(Deviations(values), 0.5) == 0.0) then d == Detection([], ZeroVariance)
      else
        && d.warning == NoWarning
        && (forall i: nat :: i in d.indices <==> i < |values| && IsOutlying(values, m, threshold, spread, values[i]))
        && (forall i, k | 0 <= i < k < |d.indices| :: d.indices[i] < d.indices[k])
  {
    hide Quantile, Deviations, Mean, Variance, Sq, Flags, IsOutlying;
    SqFacts(spread);
    var d := Detect(values, m, threshold, minimum, spread);
    if d.warning == NoWarning {
      FlaggedIncrease(values, 0, Flags(values, m, threshold, spread));
      forall i: nat ensures i in d.indices <==> i < |values| && IsOutlying(values, m, threshold, spread, values[i]) {
        DetectFlagsByValue(values, m, threshold, minimum, spread, i);
        if i < |values| {
          FlagsOutlying(values, m, threshold, spread, values[i]);
        }
      }
    }
  }

  /** A distance in units of `z` exceeds `t` when it exceeds `t` times `z` to one side or the other. */
  lemma DistanceExactly(x: real, weight: real, z: real, t: real)
    requires z > 0.0 && weight > 0.0
    ensures weight * Abs(x) / z > t <==> weight * x > t * z || weight * -x > t * z
  {
    AboveExactly(weight * Abs(x), z, t);
    if x < 0.0 {
      Grow(-x, weight);
      assert weight * Abs(x) == weight * -x >= 0.0 >= weight * x;
    } else {
      NonNegative(x, weight);
      assert weight * Abs(x) == weight * x >= 0.0 >= weight * -x;
    }
  }

  lemma FlagsOutlying(values: seq<real>, m: Method, threshold: real, spread: real, v: real)
    requires values != [] && IsSpread(values, spread) && SpreadOf(values, m, spread) != 0.0
    ensures Flags(values, m, threshold, spread)(v) <==> IsOutlying(values, m, threshold, spread, v)
  {
    hide Quantile, Deviations, Mean, Variance, Sq, Abs;
    match m
    case Iqr =>
    case ZScore => ZScoreFlagsFar(values, threshold, spread, v);
    case ModifiedZScore => ModifiedFlagsFar(values, threshold, spread, v);
  }

  lemma ZScoreFlagsFar(values: seq<real>, threshold: real, spread: real, v: real)
    requires values != [] && spread > 0.0
    ensures Flags(values, ZScore, threshold, spread)(v) <==> FarFromMean(values, threshold, spread, v)
  {
    hide Mean, Abs;
    DistanceExactly(v - Mean(values), 1.0, spread, threshold);
  }

  lemma ModifiedFlagsFar(values: seq<real>, threshold: real, spread: real, v: real)
    requires values != [] && Quantile(Deviations(values), 0.5) != 0.0
    ensures Flags(values, ModifiedZScore, threshold, spread)(v) <==> FarFromTheMedian(values, threshold, v)
  {
    assert |Deviations(values)| == |values|;
    hide Quantile, Abs, Deviations;
    MadIsPositive(values);
    DistanceExactly(v - Quantile(values, 0.5), 0.6745, Quantile(Deviations(values), 0.5), threshold);
  }

  lemma {:induction false} FlaggedIncrease(values: seq<real>, from: nat, p: real -> bool)
    ensures forall i, k | 0 <= i < k < |Flagged(values, from, p)| :: Flagged(values, from, p)[i] < Flagged(values, from, p)[k]
    ensures forall i | 0 <= i < |Flagged(values, from, p)| :: Flagged(values, from, p)[i] >= from
  {
    if values != [] {
      FlaggedIncrease(values[1..], from + 1, p);
    }
  }
}
