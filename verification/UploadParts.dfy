/** Part arithmetic of multipart uploads, and the checks a completion makes on its parts. */
module UploadParts {
  import opened Tables
  import opened UploadSessions

  const MINIMUM_PART_SIZE := 5 * 1024 * 1024
  const MAXIMUM_PART_SIZE := 5 * 1024 * 1024 * 1024
  const MAXIMUM_URL_TTL := 7 * 24 * 3_600_000_000_000
  const MAX_INT64 := 0x7fff_ffff_ffff_ffff

  datatype Config = Config(partSize: int, maxParts: int, maxBytes: int, sessionTtl: Time, partUrlTtl: Time, completionGrace: Time)

  predicate ValidConfig(c: Config) {
    && MINIMUM_PART_SIZE <= c.partSize <= MAXIMUM_PART_SIZE
    && 1 <= c.maxParts <= 10000
    && c.partSize <= c.maxBytes <= c.partSize * c.maxParts
    && c.sessionTtl > 0 && 0 < c.partUrlTtl <= MAXIMUM_URL_TTL && c.completionGrace > 0
  }

  function PartCount(expectedSize: int, partSize: int): int
    requires partSize > 0 && expectedSize > 0
  {
    (expectedSize - 1) / partSize + 1
  }

  /** The size part `number` of `count` must have. */
  function PartLength(expectedSize: int, partSize: int, count: int, number: int): int {
    if number == count then expectedSize - partSize * (count - 1) else partSize
  }

  /**
   * Every size the configuration accepts needs between one and the maximum number of parts, its last
   * part holds between one byte and a full part, and no product on the way leaves 64 bits.
   */
  lemma PartsFit(c: Config, expectedSize: int)
    requires ValidConfig(c) && 0 < expectedSize <= c.maxBytes
    ensures
      var count := PartCount(expectedSize, c.partSize);
      && 1 <= count <= c.maxParts
      && 1 <= PartLength(expectedSize, c.partSize, count, count) <= c.partSize
      && 0 <= c.partSize * (count - 1) <= c.partSize * c.maxParts <= MAX_INT64
  {
    Division(expectedSize, c.partSize, c.maxParts);
    hide PartCount;
    Scale(c.partSize, MAXIMUM_PART_SIZE, c.maxParts);
    Scale(c.maxParts, 10000, MAXIMUM_PART_SIZE);
  }

  lemma Division(size: int, part: int, max: int)
    requires part > 0 && 0 < size <= part * max
    ensures 1 <= PartCount(size, part) <= max
    ensures 1 <= size - part * (PartCount(size, part) - 1) <= part
    ensures 0 <= part * (PartCount(size, part) - 1) <= part * max
  {
    var q, r := (size - 1) / part, (size - 1) % part;
    assert size == part * q + r + 1 && 0 <= r < part;
    if q >= max {
      Scale(max, q, part);
      assert false;
    }
    if q < 0 {
      Scale(q, -1, part);
      assert false;
    }
    Scale(0, q, part);
    Scale(q, max, part);
  }

  lemma Scale(x: int, y: int, factor: int)
    requires x <= y && factor >= 0
    ensures factor * x <= factor * y
  {
  }

  // ---------------------------------------------------------------- entity tags

  predicate IsSpace(c: char) {
    c == ' ' || '\t' <= c <= '\r' || c as int == 0x85 || c as int == 0xa0
  }

  function TrimLeft(s: string, drop: char -> bool): string {
    if s != [] && drop(s[0]) then TrimLeft(s[1..], drop) else s
  }

  function TrimRight(s: string, drop: char -> bool): string {
    if s != [] && drop(s[|s| - 1]) then TrimRight(s[..|s| - 1], drop) else s
  }

  function Trim(s: string, drop: char -> bool): string {
    TrimRight(TrimLeft(s, drop), drop)
  }

  function TrimQuotes(s: string): string {
    Trim(Trim(s, IsSpace), c => c == '"')
  }

  function NormalizeETag(value: string): Option<string> {
    var etag := TrimQuotes(value);
    if etag == "" || |etag| > 256 || '\r' in etag || '\n' in etag then None else Some(etag)
  }

  // ---------------------------------------------------------------- the three checks of a completion

  datatype CompletePart = CompletePart(number: int, etag: string)
  datatype Part = Part(number: int, etag: string, size: int)
  datatype PartError = InvalidPart | PartMissing | PartConflict | SizeMismatch

  /** The request lists parts 1 to `count` in order, each with a usable tag. */
  ghost predicate IsComplete(requested: seq<CompletePart>, count: int) {
    && |requested| == count
    && forall i | 0 <= i < |requested| :: requested[i].number == i + 1 && NormalizeETag(requested[i].etag).Some?
  }

  method NormalizeCompleteParts(requested: seq<CompletePart>, count: int) returns (parts: Option<seq<CompletePart>>)
    ensures parts.Some? <==> IsComplete(requested, count)
    ensures parts.Some? ==>
      && |parts.value| == count
      && forall i | 0 <= i < count ::
           parts.value[i].number == i + 1 && Some(parts.value[i].etag) == NormalizeETag(requested[i].etag)
  {
    if |requested| != count {
      return None;
    }
    var result: seq<CompletePart> := [];
    for i := 0 to |requested|
      invariant |result| == i
      invariant forall k | 0 <= k < i ::
                  && requested[k].number == k + 1
                  && result[k].number == k + 1 && Some(result[k].etag) == NormalizeETag(requested[k].etag)
    {
      if requested[i].number != i + 1 {
        return None;
      }
      var etag := NormalizeETag(requested[i].etag);
      if etag.None? {
        return None;
      }
      result := result + [CompletePart(requested[i].number, etag.value)];
    }
    return Some(result);
  }

  /** The registered parts are the requested ones, with the sizes the arithmetic calls for. */
  ghost predicate AreRegistered(requested: seq<CompletePart>, registered: seq<Part>, expectedSize: int, partSize: int) {
    && |registered| == |requested|
    && forall i | 0 <= i < |requested| ::
         && registered[i].number == requested[i].number && registered[i].etag == requested[i].etag
         && registered[i].size == PartLength(expectedSize, partSize, |requested|, i + 1)
  }

  method VerifyRegisteredParts(requested: seq<CompletePart>, registered: seq<Part>, expectedSize: int, partSize: int)
    returns (error: Option<PartError>)
    ensures error.None? <==> AreRegistered(requested, registered, expectedSize, partSize)
    ensures error == Some(PartMissing) <==> |registered| != |requested|
    ensures error == Some(SizeMismatch) ==>
      exists i | 0 <= i < |requested| :: registered[i].size != PartLength(expectedSize, partSize, |requested|, i + 1)
    ensures error != Some(InvalidPart)
  {
    if |registered| != |requested| {
      return Some(PartMissing);
    }
    for i := 0 to |requested|
      invariant forall k | 0 <= k < i ::
                  && registered[k].number == requested[k].number && registered[k].etag == requested[k].etag
                  && registered[k].size == PartLength(expectedSize, partSize, |requested|, k + 1)
    {
      if registered[i].number != requested[i].number || registered[i].etag != requested[i].etag {
        return Some(PartConflict);
      }
      var expectedPartSize := partSize;
      if i == |requested| - 1 {
        expectedPartSize := expectedSize - partSize * (|requested| - 1);
      }
      if registered[i].size != expectedPartSize {
        return Some(SizeMismatch);
      }
    }
    return None;
  }

  function TotalSize(parts: seq<Part>): int {
    if parts == [] then 0 else TotalSize(parts[..|parts| - 1]) + parts[|parts| - 1].size
  }

  lemma {:induction false} FullParts(parts: seq<Part>, partSize: int)
    requires forall i | 0 <= i < |parts| :: parts[i].size == partSize
    ensures TotalSize(parts) == partSize * |parts|
  {
    if parts != [] {
      FullParts(parts[..|parts| - 1], partSize);
    }
  }

  /** When both checks succeed, the registered sizes add up to exactly the announced size. */
  lemma RegisteredSizesAddUp(requested: seq<CompletePart>, registered: seq<Part>, c: Config, expectedSize: int)
    requires ValidConfig(c) && 0 < expectedSize <= c.maxBytes
    requires |requested| == PartCount(expectedSize, c.partSize)
    requires AreRegistered(requested, registered, expectedSize, c.partSize)
    ensures TotalSize(registered) == expectedSize
  {
    PartsFit(c, expectedSize);
    hide PartCount, ValidConfig, TotalSize;
    LastPartCompletes(registered, expectedSize, c.partSize);
  }

  lemma LastPartCompletes(parts: seq<Part>, expectedSize: int, partSize: int)
    requires |parts| >= 1
    requires forall i | 0 <= i < |parts| :: parts[i].size == PartLength(expectedSize, partSize, |parts|, i + 1)
    ensures TotalSize(parts) == expectedSize
  {
    FullParts(parts[..|parts| - 1], partSize);
  }

  /** The store holds the requested part under its number, with its tag. */
  ghost predicate HasMatch(remote: seq<Part>, part: CompletePart) {
    exists k | 0 <= k < |remote| :: remote[k].number == part.number && TrimQuotes(remote[k].etag) == part.etag
  }

  /** The store lists exactly the requested parts, each once, with the requested tags. */
  ghost predicate AreStored(requested: seq<CompletePart>, remote: seq<Part>) {
    && |remote| == |requested|
    && (forall i, k | 0 <= i < k < |remote| :: remote[i].number != remote[k].number)
    && (forall i | 0 <= i < |requested| :: HasMatch(remote, requested[i]))
  }

  lemma NoMatch(remote: seq<Part>, byNumber: map<int, Part>, part: CompletePart)
    requires forall k | 0 <= k < |remote| :: remote[k].number in byNumber && byNumber[remote[k].number] == remote[k]
    requires part.number !in byNumber || TrimQuotes(byNumber[part.number].etag) != part.etag
    ensures !HasMatch(remote, part)
  {
    hide TrimQuotes;
  }

  lemma Match(remote: seq<Part>, byNumber: map<int, Part>, part: CompletePart)
    requires forall n | n in byNumber :: byNumber[n].number == n && byNumber[n] in remote
    requires part.number in byNumber && TrimQuotes(byNumber[part.number].etag) == part.etag
    ensures HasMatch(remote, part)
  {
    hide TrimQuotes;
    var k :| 0 <= k < |remote| && remote[k] == byNumber[part.number];
  }

  method VerifyRemoteParts(requested: seq<CompletePart>, remote: seq<Part>) returns (error: Option<PartError>)
    ensures error.None? <==> AreStored(requested, remote)
    ensures error == Some(PartMissing) <==> |remote| != |requested|
  {
    if |remote| != |requested| {
      return Some(PartMissing);
    }
    var byNumber: map<int, Part> := map[];
    for i := 0 to |remote|
      invariant forall k | 0 <= k < i :: remote[k].number in byNumber && byNumber[remote[k].number] == remote[k]
      invariant forall n | n in byNumber :: byNumber[n].number == n && byNumber[n] in remote[..i]
      invariant forall k, l | 0 <= k < l < i :: remote[k].number != remote[l].number
    {
      if remote[i].number in byNumber {
        return Some(PartConflict);
      }
      byNumber := byNumber[remote[i].number := remote[i]];
    }
    assert remote[..|remote|] == remote;
    hide HasMatch, TrimQuotes;
    for i := 0 to |requested|
      invariant forall l | 0 <= l < i :: HasMatch(remote, requested[l])
    {
      var n := requested[i].number;
      if n !in byNumber || TrimQuotes(byNumber[n].etag) != requested[i].etag {
        NoMatch(remote, byNumber, requested[i]);
        return Some(PartConflict);
      }
      Match(remote, byNumber, requested[i]);
    }
    return None;
  }

  /** The places of the parts numbered 1 to `n`. */
  ghost function Places(parts: seq<Part>, n: int): set<nat> {
    set k: nat | k < |parts| && 1 <= parts[k].number <= n
  }

  lemma {:induction false} PlacesCount(parts: seq<Part>, n: nat)
    requires forall m | 1 <= m <= n :: HasNumber(parts, m)
    ensures |Places(parts, n)| >= n
  {
    if n > 0 {
      PlacesCount(parts, n - 1);
      assert HasNumber(parts, n);
      var k: nat :| k < |parts| && parts[k].number == n;
      var before, after := Places(parts, n - 1), Places(parts, n);
      assert k !in before && k in after;
      assert before <= after - {k};
      SubsetSize(before, after - {k});
    }
  }

  lemma {:induction false} SubsetSize(s: set<nat>, t: set<nat>)
    requires s <= t
    ensures |s| <= |t|
  {
    if x :| x in s {
      SubsetSize(s - {x}, t - {x});
    } else {
      assert s == {};
    }
  }

  lemma {:induction false} BelowCount(n: nat, s: set<nat>)
    requires forall k | k in s :: k < n
    ensures |s| <= n
  {
    if n == 0 {
      if x :| x in s {
        assert false;
      }
      assert s == {};
    } else {
      BelowCount(n - 1, s - {n - 1});
    }
  }

  ghost predicate HasNumber(parts: seq<Part>, n: int) {
    exists k: nat | k < |parts| :: parts[k].number == n
  }

  /** So the upload that is completed has no part beyond the requested ones. */
  lemma StoredPartsAreExactlyTheRequested(requested: seq<CompletePart>, remote: seq<Part>)
    requires AreStored(requested, remote)
    requires forall i | 0 <= i < |requested| :: requested[i].number == i + 1
    ensures forall n | 1 <= n <= |requested| :: HasNumber(remote, n)
    ensures forall k | 0 <= k < |remote| :: 1 <= remote[k].number <= |requested|
  {
    var n := |requested|;
    forall m | 1 <= m <= n ensures HasNumber(remote, m) {
      assert HasMatch(remote, requested[m - 1]) && requested[m - 1].number == m;
    }
    PlacesCount(remote, n);
    forall k | 0 <= k < |remote| ensures 1 <= remote[k].number <= n {
      if !(1 <= remote[k].number <= n) {
        OneMissing(remote, n, k);
      }
    }
  }

  lemma OneMissing(parts: seq<Part>, n: int, k: nat)
    requires k < |parts| && k !in Places(parts, n)
    ensures |Places(parts, n)| < |parts|
  {
    BelowCount(|parts|, Places(parts, n) + {k});
  }

  // ---------------------------------------------------------------- registering parts

  datatype MutationError = SessionIsCompleted | SessionIsClosed | SessionIsExpired | PartInvalid | PartSizeMismatch

  function ValidateMutablePart(s: Session, partSize: int, partCount: int, number: int, size: int, now: Time): Option<MutationError> {
    if s.state != SessionInitiated then
      Some(if s.state == SessionCompleted then SessionIsCompleted else SessionIsClosed)
    else if now >= s.expiresAt then Some(SessionIsExpired)
    else if number < 1 || number > partCount || size <= 0 then Some(PartInvalid)
    else if size != PartLength(s.expectedSize, partSize, partCount, number) then Some(PartSizeMismatch)
    else None
  }

  /** Parts that were accepted when registered never fail the completion's size check. */
  lemma AcceptedPartsHaveTheRightSize(s: Session, c: Config, requested: seq<CompletePart>, registered: seq<Part>, times: seq<Time>)
    requires ValidConfig(c) && 0 < s.expectedSize <= c.maxBytes && |times| == |registered| == |requested|
    requires IsComplete(requested, PartCount(s.expectedSize, c.partSize))
    requires forall i | 0 <= i < |registered| ::
      && registered[i].number == requested[i].number && registered[i].etag == requested[i].etag
      && ValidateMutablePart(s, c.partSize, |requested|, registered[i].number, registered[i].size, times[i]).None?
    ensures AreRegistered(requested, registered, s.expectedSize, c.partSize)
    ensures TotalSize(registered) == s.expectedSize
  {
    assert AreRegistered(requested, registered, s.expectedSize, c.partSize);
    RegisteredSizesAddUp(requested, registered, c, s.expectedSize);
  }
}
